/**
 * The card administration table of src/pages/Cards/index.tsx: the colour mappings, the tag column,
 * the choice of listing endpoint, and the handlers that keep the keyword and status filters apart
 * and guard saving and batch deletion. A remote call is a parameter. For `LoadCards`, `None` stands
 * for a request that threw or answered with `success` false. For `HandleSave` and `HandleBatchDelete`,
 * `remoteOk` says only whether the call threw: those handlers do not look at `success`, so an answer
 * without success counts as done.
 */
module CardsAdmin {
  import opened Wrappers

  // ----- Colour mappings -----

  /** `getStatusColor`. */
  function StatusColor(status: string): (r: string)
    ensures r == "success" <==> status == "PUBLISHED"
    ensures r == "warning" <==> status == "ARCHIVED"
    ensures r == "default" <==> status != "PUBLISHED" && status != "ARCHIVED"
  {
    match status
    case "DRAFT" => "default"
    case "PUBLISHED" => "success"
    case "ARCHIVED" => "warning"
    case _ => "default"
  }

  /** `getPriorityColor`: thresholds tested from the highest down. */
  function PriorityColor(priority: int): (r: string)
    ensures r == "red" <==> 4 <= priority
    ensures r == "orange" <==> priority == 3
    ensures r == "blue" <==> priority == 2
    ensures r == "default" <==> priority < 2
  {
    if priority >= 4 then "red"
    else if priority >= 3 then "orange"
    else if priority >= 2 then "blue"
    else "default"
  }

  // ----- The tag column -----

  /** `s.split(sep)`: the pieces between separators, empty pieces included. */
  function Split(s: string, sep: char): (r: seq<string>)
    ensures |r| >= 1
    ensures forall k | 0 <= k < |r| :: sep !in r[k]
    decreases |s|
  {
    if s == [] then [""]
    else if s[0] == sep then [""] + Split(s[1..], sep)
    else
      var rest := Split(s[1..], sep);
      [[s[0]] + rest[0]] + rest[1..]
  }

  /** `pieces.join(sep)`. */
  function Join(pieces: seq<string>, sep: char): string
    decreases |pieces|
  {
    if pieces == [] then ""
    else if |pieces| == 1 then pieces[0]
    else pieces[0] + [sep] + Join(pieces[1..], sep)
  }

  /** Splitting loses nothing: joining the pieces back gives the original text. */
  lemma {:induction false} JoinSplit(s: string, sep: char)
    ensures Join(Split(s, sep), sep) == s
    decreases |s|
  {
    if s != [] {
      JoinSplit(s[1..], sep);
      var rest := Split(s[1..], sep);
      if s[0] == sep {
        assert Split(s, sep) == [""] + rest;
        assert ([""] + rest)[1..] == rest;
      } else {
        assert Split(s, sep) == [[s[0]] + rest[0]] + rest[1..];
        if |rest| > 1 {
          assert ([[s[0]] + rest[0]] + rest[1..])[1..] == rest[1..];
        }
      }
    }
  }

  /** Text without a separator is a single piece. */
  lemma {:induction false} SplitNoSeparator(a: string, sep: char)
    requires sep !in a
    ensures Split(a, sep) == [a]
    decreases |a|
  {
    if a != [] {
      SplitNoSeparator(a[1..], sep);
      assert [a[0]] + a[1..] == a;
    }
  }

  /** A separator-free first piece followed by a separator splits off as exactly that piece. */
  lemma {:induction false} SplitFirstPiece(a: string, b: string, sep: char)
    requires sep !in a
    ensures Split(a + [sep] + b, sep) == [a] + Split(b, sep)
    decreases |a|
  {
    var s := a + [sep] + b;
    if a == [] {
      assert s[1..] == b;
    } else {
      assert s[1..] == a[1..] + [sep] + b;
      SplitFirstPiece(a[1..], b, sep);
      assert [a[0]] + a[1..] == a;
    }
  }

  /** Joining separator-free pieces and splitting again gives the pieces back. */
  lemma {:induction false} SplitJoin(pieces: seq<string>, sep: char)
    requires |pieces| >= 1
    requires forall k | 0 <= k < |pieces| :: sep !in pieces[k]
    ensures Split(Join(pieces, sep), sep) == pieces
    decreases |pieces|
  {
    if |pieces| == 1 {
      SplitNoSeparator(pieces[0], sep);
    } else {
      SplitJoin(pieces[1..], sep);
      SplitFirstPiece(pieces[0], Join(pieces[1..], sep), sep);
      assert [pieces[0]] + pieces[1..] == pieces;
    }
  }

  /** There is one piece per separator, plus one. */
  lemma {:induction false} SplitCount(s: string, sep: char)
    ensures |Split(s, sep)| == multiset(s)[sep] + 1
    decreases |s|
  {
    if s != [] {
      SplitCount(s[1..], sep);
      assert s == [s[0]] + s[1..];
      assert multiset(s) == multiset([s[0]]) + multiset(s[1..]);
    }
  }

  /** `trim` removes ECMAScript white space and line terminators. */
  predicate IsWhitespace(c: char)
  {
    || c == ' ' || c == '\t' || c == '\n' || c == '\r' || c == '\U{000B}' || c == '\U{000C}'
    || c == '\U{00A0}' || c == '\U{FEFF}' || c == '\U{1680}' || ('\U{2000}' <= c <= '\U{200A}')
    || c == '\U{2028}' || c == '\U{2029}' || c == '\U{202F}' || c == '\U{205F}' || c == '\U{3000}'
  }

  function TrimStart(s: string): (r: string)
    ensures |r| <= |s| && r == s[|s| - |r|..]
    ensures forall k | 0 <= k < |s| - |r| :: IsWhitespace(s[k])
    ensures r != [] ==> !IsWhitespace(r[0])
    decreases |s|
  {
    if s != [] && IsWhitespace(s[0]) then TrimStart(s[1..]) else s
  }

  function TrimEnd(s: string): (r: string)
    ensures |r| <= |s| && r == s[..|r|]
    ensures forall k | |r| <= k < |s| :: IsWhitespace(s[k])
    ensures r != [] ==> !IsWhitespace(r[|r| - 1])
    decreases |s|
  {
    if s != [] && IsWhitespace(s[|s| - 1]) then TrimEnd(s[..|s| - 1]) else s
  }

  /** `r` sits at offset `i` of `s`, and everything of `s` before and after it is white space. */
  ghost predicate TrimmedAt(s: string, r: string, i: int)
  {
    && 0 <= i <= |s| - |r|
    && r == s[i..i + |r|]
    && (forall k | 0 <= k < i :: IsWhitespace(s[k]))
    && (forall k | i + |r| <= k < |s| :: IsWhitespace(s[k]))
  }

  /**
   * `s.trim()`: `s` with its leading and trailing white space removed; what remains neither starts
   * nor ends with white space.
   */
  function Trim(s: string): (r: string)
    ensures r != [] ==> !IsWhitespace(r[0]) && !IsWhitespace(r[|r| - 1])
    ensures exists i :: TrimmedAt(s, r, i)
  {
    var t := TrimStart(s);
    var r := TrimEnd(t);
    assert TrimmedAt(s, r, |s| - |t|);
    r
  }

  /** Trimming twice is trimming once. */
  lemma TrimIdempotent(s: string)
    ensures Trim(Trim(s)) == Trim(s)
  {
  }

  datatype TagsCell = Dash | TagList(tags: seq<string>)

  /** The tag column: `-` without tags, else one trimmed tag per comma-separated piece, in order. */
  function RenderTags(tags: Option<string>): (r: TagsCell)
    ensures tags.None? || tags == Some("") ==> r == Dash
    ensures tags.Some? && tags.value != "" ==>
      r.TagList? && |r.tags| == |Split(tags.value, ',')| == multiset(tags.value)[','] + 1
      && forall k | 0 <= k < |r.tags| :: r.tags[k] == Trim(Split(tags.value, ',')[k])
  {
    if tags.None? || tags.value == "" then Dash
    else
      var pieces := Split(tags.value, ',');
      SplitCount(tags.value, ',');
      TagList(seq(|pieces|, k requires 0 <= k < |pieces| => Trim(pieces[k])))
  }

  // ----- Choosing the listing endpoint -----

  datatype Endpoint =
    | SearchCards(keyword: string)
    | CardsByStatus(status: string)
    | PagedCards(sortBy: string, sortDir: string)

  /** One listing request: the endpoint and the 0-based page it asks for. */
  datatype Query = Query(endpoint: Endpoint, page: int, size: int)

  /** `loadCards(page, size, keyword, status)`: a keyword wins over a status, which wins over plain paging. */
  function SelectQuery(page: int, size: int, keyword: string, status: string): (q: Query)
    ensures q.endpoint.SearchCards? <==> keyword != ""
    ensures q.endpoint.CardsByStatus? <==> keyword == "" && status != ""
    ensures q.endpoint.PagedCards? <==> keyword == "" && status == ""
    ensures q.endpoint.SearchCards? ==> q.endpoint.keyword == keyword
    ensures q.endpoint.CardsByStatus? ==> q.endpoint.status == status
    ensures q.endpoint.PagedCards? ==> q.endpoint == PagedCards("createdAt", "desc")
    ensures q.page == page - 1 && q.size == size
  {
    if keyword != "" then Query(SearchCards(keyword), page - 1, size)
    else if status != "" then Query(CardsByStatus(status), page - 1, size)
    else Query(PagedCards("createdAt", "desc"), page - 1, size)
  }

  // ----- The page's handlers -----

  /** The fields of `CardDTO` the handlers look at. */
  datatype CardDTO = CardDTO(
    id: Option<int>,
    title: string,
    content: Option<string>,
    tags: Option<string>,
    priority: Option<int>,
    status: Option<string>)

  datatype PageResult = PageResult(content: seq<CardDTO>, totalElements: int)

  /** `if (editingCard.id)`: an id is usable only when present and not 0. */
  predicate HasUsableId(card: CardDTO)
  {
    card.id.Some? && card.id.value != 0
  }

  datatype RemoteCall =
    | NoCall
    | UpdateCall(id: int, values: CardDTO)
    | CreateCall(values: CardDTO)
    | BatchDeleteCall(ids: seq<int>)

  datatype Notice = Success(text: string) | Error(text: string) | Warning(text: string)

  /** What a handler did besides changing page state: the remote call, the message shown, the reload issued. */
  datatype Effect = Effect(call: RemoteCall, notice: Notice, reload: Option<Query>)

  /** The remote call `handleSave` issues: an update of the edited card, a creation, or none without an id. */
  function SaveCall(editing: Option<CardDTO>, values: CardDTO): (c: RemoteCall)
    ensures editing.None? <==> c.CreateCall?
    ensures c.NoCall? <==> editing.Some? && !HasUsableId(editing.value)
    ensures editing.Some? && HasUsableId(editing.value) ==> c == UpdateCall(editing.value.id.value, values)
    ensures c.UpdateCall? ==> c.id == editing.value.id.value && c.id != 0
    ensures c.UpdateCall? || c.CreateCall? ==> c.values == values
  {
    if editing.None? then CreateCall(values)
    else if HasUsableId(editing.value) then UpdateCall(editing.value.id.value, values)
    else NoCall
  }

  /** The component state of the table page. */
  class CardManagement {
    var rows: seq<CardDTO>
    var loading: bool
    var searchKeyword: string
    var statusFilter: string
    var current: int
    var pageSize: int
    var total: int
    var selectedRowKeys: seq<int>
    var modalVisible: bool
    var editingCard: Option<CardDTO>

    /** The keyword and status filters are never both set. */
    predicate AtMostOneFilter()
      reads this
    {
      searchKeyword == "" || statusFilter == ""
    }

    /** The initial `useState` values. */
    constructor ()
      ensures rows == [] && !loading && searchKeyword == "" && statusFilter == "" && AtMostOneFilter()
      ensures current == 1 && pageSize == 10 && total == 0
      ensures selectedRowKeys == [] && !modalVisible && editingCard == None
    {
      rows := [];
      loading := false;
      searchKeyword := "";
      statusFilter := "";
      current := 1;
      pageSize := 10;
      total := 0;
      selectedRowKeys := [];
      modalVisible := false;
      editingCard := None;
    }

    /**
     * `loadCards`: issues the selected query; a successful `response` replaces the rows and the
     * pagination, anything else leaves them as they were. The loading flag is raised for the request
     * and always lowered at the end.
     */
    method LoadCards(page: int, size: int, keyword: string, status: string, response: Option<PageResult>)
      returns (q: Query)
      modifies this`rows, this`loading, this`current, this`pageSize, this`total
      ensures q == SelectQuery(page, size, keyword, status)
      ensures !loading
      ensures response.Some? ==>
        rows == response.value.content && current == page && pageSize == size && total == response.value.totalElements
      ensures response.None? ==>
        rows == old(rows) && current == old(current) && pageSize == old(pageSize) && total == old(total)
    {
      loading := true;
      if keyword != "" {
        q := Query(SearchCards(keyword), page - 1, size);
      } else if status != "" {
        q := Query(CardsByStatus(status), page - 1, size);
      } else {
        q := Query(PagedCards("createdAt", "desc"), page - 1, size);
      }
      if response.Some? {
        rows := response.value.content;
        current, pageSize, total := page, size, response.value.totalElements;
      }
      loading := false;
    }

    /** `handleSearch`: sets the keyword, clears the status filter and reloads from page 1. */
    method HandleSearch(value: string, response: Option<PageResult>) returns (q: Query)
      modifies this`searchKeyword, this`statusFilter, this`rows, this`loading, this`current, this`pageSize, this`total
      ensures searchKeyword == value && statusFilter == "" && AtMostOneFilter()
      ensures q == SelectQuery(1, old(pageSize), value, "")
      ensures q.page == 0 && !q.endpoint.CardsByStatus?
      ensures !loading
      ensures response.Some? ==>
        rows == response.value.content && current == 1 && pageSize == old(pageSize)
        && total == response.value.totalElements
      ensures response.None? ==>
        rows == old(rows) && current == old(current) && pageSize == old(pageSize) && total == old(total)
    {
      searchKeyword := value;
      statusFilter := "";
      q := LoadCards(1, pageSize, value, "", response);
    }

    /** `handleStatusFilter`: sets the status, clears the keyword and reloads from page 1. */
    method HandleStatusFilter(value: string, response: Option<PageResult>) returns (q: Query)
      modifies this`searchKeyword, this`statusFilter, this`rows, this`loading, this`current, this`pageSize, this`total
      ensures statusFilter == value && searchKeyword == "" && AtMostOneFilter()
      ensures q == SelectQuery(1, old(pageSize), "", value)
      ensures q.page == 0 && !q.endpoint.SearchCards?
      ensures !loading
      ensures response.Some? ==>
        rows == response.value.content && current == 1 && pageSize == old(pageSize)
        && total == response.value.totalElements
      ensures response.None? ==>
        rows == old(rows) && current == old(current) && pageSize == old(pageSize) && total == old(total)
    {
      statusFilter := value;
      searchKeyword := "";
      q := LoadCards(1, pageSize, "", value, response);
    }

    /**
     * `handleSave`: editing a card without a usable id only reports an error; otherwise the update or
     * creation is sent and, unless it threw (`remoteOk` false), the modal closes and the current page
     * is reloaded.
     */
    method HandleSave(values: CardDTO, remoteOk: bool) returns (effect: Effect)
      modifies this`modalVisible, this`editingCard
      ensures effect.call == SaveCall(old(editingCard), values)
      ensures effect.call.NoCall? ==>
        effect.notice == Error("卡片ID不存在，无法更新") && effect.reload == None
        && modalVisible == old(modalVisible) && editingCard == old(editingCard)
      ensures !effect.call.NoCall? && remoteOk ==>
        effect.notice.Success? && !modalVisible && editingCard == None
        && effect.reload == Some(SelectQuery(current, pageSize, searchKeyword, statusFilter))
      ensures !effect.call.NoCall? && !remoteOk ==>
        effect.notice.Error? && effect.reload == None
        && modalVisible == old(modalVisible) && editingCard == old(editingCard)
    {
      var call: RemoteCall;
      if editingCard.Some? {
        if editingCard.value.id.Some? && editingCard.value.id.value != 0 {
          call := UpdateCall(editingCard.value.id.value, values);
        } else {
          return Effect(NoCall, Error("卡片ID不存在，无法更新"), None);
        }
      } else {
        call := CreateCall(values);
      }
      if !remoteOk {
        return Effect(call, Error(if editingCard.Some? then "更新卡片失败" else "创建卡片失败"), None);
      }
      var text := if editingCard.Some? then "更新卡片成功" else "创建卡片成功";
      modalVisible := false;
      editingCard := None;
      effect := Effect(call, Success(text), Some(SelectQuery(current, pageSize, searchKeyword, statusFilter)));
    }

    /**
     * `handleBatchDelete`: with nothing selected it only warns; otherwise it deletes the selection and,
     * unless the call threw (`remoteOk` false), clears the selection and reloads the current page.
     */
    method HandleBatchDelete(remoteOk: bool) returns (effect: Effect)
      modifies this`selectedRowKeys
      ensures old(selectedRowKeys) == [] ==>
        effect == Effect(NoCall, Warning("请选择要删除的卡片"), None) && selectedRowKeys == old(selectedRowKeys)
      ensures old(selectedRowKeys) != [] ==> effect.call == BatchDeleteCall(old(selectedRowKeys))
      ensures old(selectedRowKeys) != [] && remoteOk ==>
        selectedRowKeys == [] && effect.notice.Success?
        && effect.reload == Some(SelectQuery(current, pageSize, searchKeyword, statusFilter))
      ensures old(selectedRowKeys) != [] && !remoteOk ==>
        selectedRowKeys == old(selectedRowKeys) && effect.notice.Error? && effect.reload == None
    {
      if |selectedRowKeys| == 0 {
        return Effect(NoCall, Warning("请选择要删除的卡片"), None);
      }
      var call := BatchDeleteCall(selectedRowKeys);
      if !remoteOk {
        return Effect(call, Error("批量删除失败"), None);
      }
      selectedRowKeys := [];
      effect := Effect(call, Success("批量删除成功"), Some(SelectQuery(current, pageSize, searchKeyword, statusFilter)));
    }
  }
}
