/**
 * The canvas of src/components/MindCard/CardSpace.tsx: the search projection over the current bucket,
 * the drag session (which card is held and where it was grabbed), the clamp that keeps a dragged card
 * inside the canvas, and double-click creation. Pixel coordinates are integers.
 */
module CardSpace {
  import opened Wrappers
  import opened CardTypes
  import Seqs

  // ----- Search projection -----

  /** `toLowerCase` on one character, for the ASCII letters. */
  function LowerChar(c: char): char
  {
    if 'A' <= c <= 'Z' then (c as int + 32) as char else c
  }

  function ToLower(s: string): (r: string)
    ensures |r| == |s|
    ensures forall i | 0 <= i < |s| :: r[i] == LowerChar(s[i])
  {
    seq(|s|, i requires 0 <= i < |s| => LowerChar(s[i]))
  }

  /** `s.includes(sub)`: `sub` occurs in `s` at some position. */
  function Includes(s: string, sub: string): (r: bool)
    ensures r <==> exists i | 0 <= i <= |s| :: sub <= s[i..]
    decreases |s|
  {
    if sub <= s then
      assert s[0..] == s;
      true
    else if s == [] then false
    else
      var r := Includes(s[1..], sub);
      assert forall i | 1 <= i <= |s| :: s[i..] == s[1..][i - 1..];
      r
  }

  /** The filter test: the lowered title contains the lowered query, or the content is non-empty and does. */
  predicate Matches(card: Card, query: string)
  {
    || Includes(ToLower(card.title), ToLower(query))
    || (card.content.Some? && card.content.value != "" && Includes(ToLower(card.content.value), ToLower(query)))
  }

  function MatchesQuery(query: string): Card -> bool
  {
    (c: Card) => Matches(c, query)
  }

  /** `filteredCards`: the matching cards of the bucket, in bucket order. */
  function FilteredCards(cards: seq<Card>, query: string): (r: seq<Card>)
    ensures forall c :: c in r <==> c in cards && Matches(c, query)
    ensures forall c :: multiset(r)[c] == if Matches(c, query) then multiset(cards)[c] else 0
    ensures Seqs.IsSubsequence(r, cards)
  {
    Seqs.FilterMultiset(cards, MatchesQuery(query));
    Seqs.Filter(cards, MatchesQuery(query))
  }

  /** The empty query matches every card, so the projection is the whole bucket in its order. */
  lemma FilterEmptyQuery(cards: seq<Card>)
    ensures FilteredCards(cards, "") == cards
  {
    forall k | 0 <= k < |cards| ensures Matches(cards[k], "") {
      assert "" <= ToLower(cards[k].title)[0..];
    }
  }

  /** The matching is case-insensitive: a query and its lowered form select the same cards. */
  lemma FilterIgnoresQueryCase(cards: seq<Card>, query: string)
    ensures FilteredCards(cards, ToLower(query)) == FilteredCards(cards, query)
  {
    assert ToLower(ToLower(query)) == ToLower(query);
    Seqs.FilterCongruent(cards, MatchesQuery(ToLower(query)), MatchesQuery(query));
  }

  /** Searching "plan" over the cards "Plan A" and "Notes" keeps only "Plan A". */
  lemma FilterExample(planA: Card, notes: Card)
    requires planA.title == "Plan A" && planA.content == None
    requires notes.title == "Notes" && notes.content == None
    ensures FilteredCards([planA, notes], "plan") == [planA]
  {
    assert ToLower("plan") == "plan";
    assert ToLower("Plan A") == "plan a";
    assert "plan" <= ToLower("Plan A")[0..];
    assert ToLower("Notes") == "notes";
    assert !Includes("notes", "plan") by {
      forall i | 0 <= i <= 5 ensures !("plan" <= "notes"[i..]) {
        assert "notes"[i..] == [] || "notes"[i..][0] != 'p';
      }
    }
    assert Matches(planA, "plan") && !Matches(notes, "plan");
    var p := MatchesQuery("plan");
    assert [planA, notes][1..] == [notes];
    assert Seqs.Filter([notes], p) == [];
    assert Seqs.Filter([planA, notes], p) == [planA] + Seqs.Filter([notes], p);
  }

  // ----- Geometry -----

  /** The fixed footprint of a card on the canvas. */
  const CardWidth := 280
  const CardHeight := 160

  datatype Point = Point(x: int, y: int)
  datatype Rect = Rect(left: int, top: int, width: int, height: int)

  function Max(a: int, b: int): int { if a < b then b else a }
  function Min(a: int, b: int): int { if a < b then a else b }

  /** `Math.max(0, Math.min(v, extent - footprint))`: one axis of the clamp. */
  function Clamp(v: int, extent: int, footprint: int): (r: int)
    ensures 0 <= r <= Max(0, extent - footprint)
    ensures 0 <= v <= extent - footprint ==> r == v
    ensures v < 0 ==> r == 0
    ensures extent - footprint < v ==> r == Max(0, extent - footprint)
  {
    Max(0, Min(v, extent - footprint))
  }

  /** The position `handleMouseMove` proposes: pointer relative to the canvas, minus the grab offset, clamped. */
  function DragTarget(pointer: Point, container: Rect, offset: Position): (p: Position)
    ensures 0 <= p.x <= Max(0, container.width - CardWidth)
    ensures 0 <= p.y <= Max(0, container.height - CardHeight)
    ensures var x := pointer.x - container.left - offset.x;
      0 <= x <= container.width - CardWidth ==> p.x == x
    ensures var x := pointer.x - container.left - offset.x;
      x < 0 ==> p.x == 0
    ensures var x := pointer.x - container.left - offset.x;
      container.width - CardWidth < x ==> p.x == Max(0, container.width - CardWidth)
    ensures var y := pointer.y - container.top - offset.y;
      0 <= y <= container.height - CardHeight ==> p.y == y
    ensures var y := pointer.y - container.top - offset.y;
      y < 0 ==> p.y == 0
    ensures var y := pointer.y - container.top - offset.y;
      container.height - CardHeight < y ==> p.y == Max(0, container.height - CardHeight)
  {
    Position(
      Clamp(pointer.x - container.left - offset.x, container.width, CardWidth),
      Clamp(pointer.y - container.top - offset.y, container.height, CardHeight))
  }

  /** The position of a card created by double-click: centred under the pointer, never negative. */
  function DoubleClickPosition(pointer: Point, canvas: Rect): (p: Position)
    ensures 0 <= p.x && 0 <= p.y
    ensures p.x == Max(0, pointer.x - canvas.left - CardWidth / 2)
    ensures p.y == Max(0, pointer.y - canvas.top - CardHeight / 2)
  {
    Position(Max(0, pointer.x - canvas.left - 140), Max(0, pointer.y - canvas.top - 80))
  }

  /** What a double-click asks the page to create. */
  datatype CreateIntent = CreateIntent(title: string, content: string, position: Position)

  /** `handleDoubleClick`: only a double-click on the canvas itself (not on a card) creates a card. */
  function HandleDoubleClick(onCanvas: bool, pointer: Point, canvas: Rect): (r: Option<CreateIntent>)
    ensures r.Some? <==> onCanvas
    ensures r.Some? ==> r.value == CreateIntent("新卡片", "", DoubleClickPosition(pointer, canvas))
  {
    if onCanvas then Some(CreateIntent("新卡片", "", DoubleClickPosition(pointer, canvas))) else None
  }

  /** A dragged card's position update changes its position and timestamp and nothing else. */
  lemma DragUpdateOnlyMoves(card: Card, p: Position, now: string)
    ensures Merge(card, PositionPatch(p), now) == card.(position := Some(p), updatedAt := now)
  {
  }

  // ----- Drag session -----

  /** The element a mouse-down landed on: its tag name, and whether it lies inside a button. */
  datatype Target = Target(tagName: string, insideButton: bool)

  /** Mouse-downs on embedded controls must reach the control, not start a drag. */
  predicate IsEmbeddedControl(t: Target)
  {
    t.tagName == "BUTTON" || t.insideButton || t.tagName == "INPUT" || t.tagName == "TEXTAREA"
  }

  /** The component state `draggedCard` / `dragOffset`: idle when no card is held. */
  class DragSession {
    var draggedCard: Option<Card>
    var dragOffset: Position

    constructor ()
      ensures draggedCard == None && dragOffset == Position(0, 0)
    {
      draggedCard := None;
      dragOffset := Position(0, 0);
    }

    /**
     * `handleMouseDown` on `card`, whose box is `cardRect`; `hasContainer` says whether the card's
     * parent element has a bounding box.
     */
    method HandleMouseDown(target: Target, card: Card, pointer: Point, cardRect: Rect, hasContainer: bool)
      modifies this
      ensures IsEmbeddedControl(target) || !hasContainer ==>
        draggedCard == old(draggedCard) && dragOffset == old(dragOffset)
      ensures !IsEmbeddedControl(target) && hasContainer ==>
        draggedCard == Some(card) && dragOffset == Position(pointer.x - cardRect.left, pointer.y - cardRect.top)
    {
      if IsEmbeddedControl(target) {
        return;
      }
      if hasContainer {
        draggedCard := Some(card);
        dragOffset := Position(pointer.x - cardRect.left, pointer.y - cardRect.top);
      }
    }

    /**
     * `handleMouseMove`: the update it hands to `onUpdateCard`, if any. It reads the session and
     * changes nothing, so the grab offset stays frozen for the whole drag.
     */
    method HandleMouseMove(pointer: Point, container: Rect) returns (update: Option<(string, CardPatch)>)
      ensures draggedCard.None? ==> update.None?
      ensures draggedCard.Some? ==> update.Some? && update.value.0 == draggedCard.value.id
      ensures draggedCard.Some? ==> update.value.1 == PositionPatch(DragTarget(pointer, container, dragOffset))
    {
      if draggedCard.None? {
        return None;
      }
      var newX := pointer.x - container.left - dragOffset.x;
      var newY := pointer.y - container.top - dragOffset.y;
      var position := Position(Max(0, Min(newX, container.width - CardWidth)), Max(0, Min(newY, container.height - CardHeight)));
      update := Some((draggedCard.value.id, PositionPatch(position)));
    }

    /** `handleMouseUp`, also bound to mouse-leave: back to idle with a zero offset. */
    method HandleMouseUp()
      modifies this
      ensures draggedCard == None && dragOffset == Position(0, 0)
    {
      draggedCard := None;
      dragOffset := Position(0, 0);
    }
  }
}
