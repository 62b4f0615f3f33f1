/**
 * The workspace page of src/pages/MindCard/index.tsx: it derives the current container from the
 * breadcrumb path, regroups fetched cards into buckets, moves along the path, and commits every
 * create, update and delete to the card store only after the remote call has succeeded.
 * A remote call is a parameter: `None` / `false` stands for a call that threw.
 */
module MindCardPage {
  import opened Wrappers
  import opened CardTypes
  import opened CardSlice
  import Seqs

  // ----- Current container -----

  /** `getCurrentCardId`: the id of the last card on the path, or the root locator. */
  function CurrentCardId(path: seq<Card>): (r: string)
    ensures path == [] ==> r == Root
    ensures path != [] ==> r == path[|path| - 1].id
  {
    if |path| > 0 then path[|path| - 1].id else Root
  }

  /** `getCurrentCards`: the current container's bucket; a container without a bucket shows no cards. */
  function CurrentCards(cards: Buckets, path: seq<Card>): (r: seq<Card>)
    ensures CurrentCardId(path) in cards ==> r == cards[CurrentCardId(path)]
    ensures CurrentCardId(path) !in cards ==> r == []
  {
    Bucket(cards, CurrentCardId(path))
  }

  /** The `parentId` sent to the remote: `undefined` at the top level, the container id otherwise. */
  function RemoteParent(path: seq<Card>): (r: Option<string>)
    ensures r.None? <==> CurrentCardId(path) == Root
    ensures r.Some? ==> r.value == CurrentCardId(path)
  {
    if CurrentCardId(path) == Root then None else Some(CurrentCardId(path))
  }

  // ----- Breadcrumb navigation -----

  /** Where `Array.prototype.slice(0, end)` stops on a sequence of length `len`. */
  function SliceEnd(len: nat, end: int): (r: nat)
    ensures r <= len
    ensures 0 <= end <= len ==> r == end
    ensures len < end ==> r == len
    ensures end < 0 ==> r == if len + end < 0 then 0 else len + end
  {
    if end < 0 then (if len + end < 0 then 0 else len + end)
    else if end < len then end
    else len
  }

  /** The path after `navigateBack(index)`: `[]` for -1, else `path.slice(0, index + 1)`. */
  function PathAfterBack(path: seq<Card>, index: int): (r: seq<Card>)
    ensures r <= path
    ensures index == -1 ==> r == []
    ensures 0 <= index < |path| ==> r == path[..index + 1]
    ensures |path| <= index + 1 ==> r == path
    ensures index < -1 ==> |r| == if |path| + index + 1 < 0 then 0 else |path| + index + 1
  {
    if index == -1 then [] else path[..SliceEnd(|path|, index + 1)]
  }

  /** Entering each card of `cards` in turn with `navigateToCard`, starting from `path`. */
  function Reentered(path: seq<Card>, cards: seq<Card>): seq<Card>
    decreases |cards|
  {
    if cards == [] then path else Reentered(path + [cards[0]], cards[1..])
  }

  lemma {:induction false} ReenteredAppends(path: seq<Card>, cards: seq<Card>)
    ensures Reentered(path, cards) == path + cards
    decreases |cards|
  {
    if cards != [] {
      ReenteredAppends(path + [cards[0]], cards[1..]);
      assert path + [cards[0]] + cards[1..] == path + cards;
    }
  }

  /** Backing out to `index` and entering the cards that were cut off, in order, restores the path. */
  lemma NavigationRoundTrip(path: seq<Card>, index: int)
    requires -1 <= index < |path|
    ensures Reentered(PathAfterBack(path, index), path[index + 1..]) == path
  {
    ReenteredAppends(PathAfterBack(path, index), path[index + 1..]);
    assert path[..index + 1] + path[index + 1..] == path;
  }

  /** Entering a card makes it the current container; backing out to `index` makes `path[index]` current. */
  lemma NavigationLocator(path: seq<Card>, card: Card, index: int)
    ensures CurrentCardId(path + [card]) == card.id
    ensures CurrentCardId(PathAfterBack(path, -1)) == Root
    ensures 0 <= index < |path| ==> CurrentCardId(PathAfterBack(path, index)) == path[index].id
  {
  }

  /** `navigateToCard`. */
  method NavigateToCard(store: CardStore, card: Card)
    modifies store`currentPath
    ensures store.currentPath == old(store.currentPath) + [card]
  {
    store.SetCurrentPath(store.currentPath + [card]);
  }

  /** `navigateBack`. */
  method NavigateBack(store: CardStore, index: int)
    modifies store`currentPath
    ensures store.currentPath == PathAfterBack(old(store.currentPath), index)
  {
    if index == -1 {
      store.SetCurrentPath([]);
    } else {
      store.SetCurrentPath(store.currentPath[..SliceEnd(|store.currentPath|, index + 1)]);
    }
  }

  // ----- Grouping fetched cards -----

  /** `card.parentId || 'root'`: a missing or empty parent id means the top level. */
  function ParentLocator(card: Card): (r: string)
    ensures card.parentId.None? || card.parentId == Some("") ==> r == Root
    ensures card.parentId.Some? && card.parentId.value != "" ==> r == card.parentId.value
  {
    if card.parentId.Some? && card.parentId.value != "" then card.parentId.value else Root
  }

  /** The test "this card belongs in bucket `locator`". */
  function LocatedAt(locator: string): Card -> bool
  {
    (c: Card) => ParentLocator(c) == locator
  }

  /** The cards of `response` that belong in bucket `locator`, in response order. */
  function CardsUnder(response: seq<Card>, locator: string): seq<Card>
  {
    Seqs.Filter(response, LocatedAt(locator))
  }

  /** The map the `loadCards` loop builds: start from `{ root: [] }` and push each card onto its bucket. */
  function Grouped(response: seq<Card>): (m: Buckets)
    ensures Root in m
    decreases |response|
  {
    if response == [] then InitialCards
    else
      var card := response[|response| - 1];
      Added(Grouped(response[..|response| - 1]), ParentLocator(card), card)
  }

  /** Every bucket holds exactly the response's cards with that parent, in response order. */
  lemma {:induction false} GroupedBuckets(response: seq<Card>)
    ensures forall l :: Bucket(Grouped(response), l) == CardsUnder(response, l)
    decreases |response|
  {
    if response != [] {
      var prefix, card := response[..|response| - 1], response[|response| - 1];
      assert response == prefix + [card];
      GroupedBuckets(prefix);
      forall l ensures Bucket(Grouped(response), l) == CardsUnder(response, l) {
        Seqs.FilterSnoc(prefix, card, LocatedAt(l));
      }
    }
  }

  /** The buckets are the root plus exactly the parents that occur in the response. */
  lemma {:induction false} GroupedKeys(response: seq<Card>)
    ensures Grouped(response).Keys == {Root} + set c | c in response :: ParentLocator(c)
    decreases |response|
  {
    if response != [] {
      var prefix, card := response[..|response| - 1], response[|response| - 1];
      assert response == prefix + [card];
      GroupedKeys(prefix);
    }
  }

  /** The number of cards over all buckets. */
  ghost function TotalCards(m: Buckets): nat
    decreases |m|
  {
    if |m| == 0 then 0
    else
      var l :| l in m;
      |m[l]| + TotalCards(m - {l})
  }

  /** The key the definition of `TotalCards` picks first. */
  lemma TotalCardsUnfold(m: Buckets) returns (l: string)
    requires |m| != 0
    ensures l in m && TotalCards(m) == |m[l]| + TotalCards(m - {l})
  {
    l :| l in m && TotalCards(m) == |m[l]| + TotalCards(m - {l});
  }

  lemma RemoveKeyShrinks(m: Buckets, l: string)
    requires l in m
    ensures |m - {l}| == |m| - 1
  {
    assert (m - {l}).Keys == m.Keys - {l};
  }

  /** `TotalCards` does not depend on the order in which buckets are counted: any bucket may go first. */
  lemma {:induction false} TotalCardsSplit(m: Buckets, l: string)
    requires l in m
    ensures TotalCards(m) == |m[l]| + TotalCards(m - {l})
    decreases |m|
  {
    RemoveKeyShrinks(m, l);
    var j := TotalCardsUnfold(m);
    if j != l {
      var mj, ml := m - {j}, m - {l};
      RemoveKeyShrinks(m, j);
      assert l in mj && j in ml;
      assert mj - {l} == ml - {j};
      TotalCardsSplit(mj, l);
      TotalCardsSplit(ml, j);
      assert mj[l] == m[l] && ml[j] == m[j];
    }
  }

  /** Pushing one card onto a bucket adds one to the total. */
  lemma TotalCardsAdded(m: Buckets, l: string, card: Card)
    ensures TotalCards(Added(m, l, card)) == TotalCards(m) + 1
  {
    var m' := Added(m, l, card);
    TotalCardsSplit(m', l);
    if l in m {
      TotalCardsSplit(m, l);
      assert m' - {l} == m - {l};
    } else {
      assert m' - {l} == m;
    }
  }

  /** No card is lost or duplicated: the buckets hold as many cards as the response. */
  lemma {:induction false} GroupedTotal(response: seq<Card>)
    ensures TotalCards(Grouped(response)) == |response|
    decreases |response|
  {
    if response == [] {
      TotalCardsSplit(InitialCards, Root);
      assert InitialCards - {Root} == map[];
    } else {
      var prefix, card := response[..|response| - 1], response[|response| - 1];
      GroupedTotal(prefix);
      TotalCardsAdded(Grouped(prefix), ParentLocator(card), card);
    }
  }

  /** The `forEach` loop of `loadCards`. */
  method GroupByParent(response: seq<Card>) returns (cardData: Buckets)
    ensures cardData == Grouped(response)
    ensures Root in cardData
    ensures forall l :: Bucket(cardData, l) == CardsUnder(response, l)
    ensures TotalCards(cardData) == |response|
  {
    cardData := map[Root := []];
    var i := 0;
    while i < |response|
      invariant 0 <= i <= |response|
      invariant cardData == Grouped(response[..i])
    {
      var card := response[i];
      var cardParentId := ParentLocator(card);
      if cardParentId !in cardData {
        cardData := cardData[cardParentId := []];
      }
      cardData := cardData[cardParentId := cardData[cardParentId] + [card]];
      assert response[..i + 1][..i] == response[..i];
      i := i + 1;
    }
    assert response[..|response|] == response;
    GroupedBuckets(response);
    GroupedTotal(response);
  }

  /**
   * `loadCards`: the whole card map is replaced by the regrouped response, or by `{ root: [] }` when
   * the fetch failed; loading is off afterwards. Returns the `parentId` the fetch was issued with.
   */
  method LoadCards(store: CardStore, fetched: Option<seq<Card>>) returns (requested: Option<string>)
    modifies store`cards, store`loading
    ensures requested == RemoteParent(store.currentPath)
    ensures fetched.Some? ==> store.cards == Grouped(fetched.value)
    ensures fetched.None? ==> store.cards == InitialCards
    ensures !store.loading
  {
    store.SetLoading(true);
    requested := RemoteParent(store.currentPath);
    if fetched.Some? {
      var cardData := GroupByParent(fetched.value);
      store.SetCards(cardData);
    } else {
      store.SetCards(map[Root := []]);
    }
    store.SetLoading(false);
  }

  // ----- Commit after remote success -----

  /** The request `handleCreateCard` sends: the title, the content, the position, no tags, the parent. */
  function CreateRequest(path: seq<Card>, title: string, content: string, position: Position): (r: CreateCardParams)
    ensures r.title == title && r.content == Some(content) && r.position == position && r.tags == Some([])
    ensures r.parentId.None? <==> CurrentCardId(path) == Root
    ensures r.parentId.Some? ==> r.parentId.value == CurrentCardId(path)
  {
    CreateCardParams(title, Some(content), position, Some([]), RemoteParent(path))
  }

  /**
   * `handleCreateCard`: `created` is the card the remote returned, or `None` when the call threw.
   * The card is appended to the current container's bucket only on success.
   */
  method HandleCreateCard(store: CardStore, title: string, content: string, position: Position, created: Option<Card>)
    returns (request: CreateCardParams)
    modifies store`cards
    ensures request == CreateRequest(store.currentPath, title, content, position)
    ensures created.Some? ==> store.cards == Added(old(store.cards), CurrentCardId(store.currentPath), created.value)
    ensures created.None? ==> store.cards == old(store.cards)
  {
    var parentId := CurrentCardId(store.currentPath);
    request := CreateCardParams(title, Some(content), position, Some([]), if parentId == Root then None else Some(parentId));
    if created.Some? {
      store.AddCard(parentId, created.value);
    }
  }

  /**
   * `handleUpdateCard`: the local patch is applied to the current container only after the remote
   * update succeeded; a missing bucket makes the local dispatch fail, which the handler swallows.
   */
  method HandleUpdateCard(store: CardStore, id: string, updates: CardPatch, remoteOk: bool, now: string)
    modifies store`cards
    ensures var loc := CurrentCardId(store.currentPath);
      if remoteOk && loc in old(store.cards) then store.cards == Patched(old(store.cards), loc, id, updates, now)
      else store.cards == old(store.cards)
  {
    if remoteOk {
      var parentId := CurrentCardId(store.currentPath);
      var _ := store.UpdateCard(parentId, id, updates, now);
    }
  }

  /** `handleDeleteCard`: the card leaves the current container's bucket only after the remote delete succeeded. */
  method HandleDeleteCard(store: CardStore, id: string, remoteOk: bool)
    modifies store`cards
    ensures var loc := CurrentCardId(store.currentPath);
      if remoteOk && loc in old(store.cards) then store.cards == Removed(old(store.cards), loc, id)
      else store.cards == old(store.cards)
  {
    if remoteOk {
      var parentId := CurrentCardId(store.currentPath);
      var _ := store.DeleteCard(parentId, id);
    }
  }
}
