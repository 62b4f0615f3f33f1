/**
 * The card store of src/store/redux/slices/cardSlice.ts: a map from a locator (`"root"` or a card id)
 * to the ordered bucket of that container's children, plus the breadcrumb path, the search query and a
 * loading flag. The reducers mutate the state in place, so the store is a class; the map-level
 * functions below specify what each reducer makes of the card map.
 */
module CardSlice {
  import opened CardTypes
  import Seqs

  type Buckets = map<string, seq<Card>>

  /** The locator of the top-level container. */
  const Root := "root"

  /** `{ root: [] }`: one empty bucket, the top level. */
  const InitialCards: Buckets := map[Root := []]

  /** `cards[locator] || []`: the bucket at `locator`, or no cards when there is none. */
  function Bucket(cards: Buckets, locator: string): (r: seq<Card>)
    ensures locator in cards ==> r == cards[locator]
    ensures locator !in cards ==> r == []
  {
    if locator in cards then cards[locator] else []
  }

  /** `bucket.findIndex(card => card.id === cardId)`: the first position holding `cardId`, or -1. */
  function FindIndex(bucket: seq<Card>, cardId: string): (i: int)
    ensures -1 <= i < |bucket|
    ensures i == -1 <==> forall k | 0 <= k < |bucket| :: bucket[k].id != cardId
    ensures 0 <= i ==> bucket[i].id == cardId && forall k | 0 <= k < i :: bucket[k].id != cardId
    decreases |bucket|
  {
    if bucket == [] then -1
    else if bucket[0].id == cardId then 0
    else
      var j := FindIndex(bucket[1..], cardId);
      if j == -1 then -1 else j + 1
  }

  /** The bucket after `updateCard`: only the first card with `cardId` is merged with `updates`. */
  function PatchedBucket(bucket: seq<Card>, cardId: string, updates: CardPatch, now: string): (r: seq<Card>)
    ensures |r| == |bucket|
    ensures forall k | 0 <= k < |bucket| && k != FindIndex(bucket, cardId) :: r[k] == bucket[k]
    ensures 0 <= FindIndex(bucket, cardId) ==>
      r[FindIndex(bucket, cardId)] == Merge(bucket[FindIndex(bucket, cardId)], updates, now)
    ensures (forall k | 0 <= k < |bucket| :: bucket[k].id != cardId) ==> r == bucket
  {
    var i := FindIndex(bucket, cardId);
    if i == -1 then bucket else bucket[i := Merge(bucket[i], updates, now)]
  }

  /** The bucket after `deleteCard`: `bucket.filter(card => card.id !== cardId)`. */
  function Without(bucket: seq<Card>, cardId: string): (r: seq<Card>)
    ensures forall c :: c in r <==> c in bucket && c.id != cardId
    ensures forall c :: multiset(r)[c] == if c.id != cardId then multiset(bucket)[c] else 0
    ensures Seqs.IsSubsequence(r, bucket)
    ensures (forall k | 0 <= k < |bucket| :: bucket[k].id != cardId) ==> r == bucket
  {
    Seqs.FilterMultiset(bucket, (c: Card) => c.id != cardId);
    Seqs.Filter(bucket, (c: Card) => c.id != cardId)
  }

  /** Deleting the same id twice leaves the bucket as deleting it once. */
  lemma WithoutIdempotent(bucket: seq<Card>, cardId: string)
    ensures Without(Without(bucket, cardId), cardId) == Without(bucket, cardId)
  {
    var once := Without(bucket, cardId);
    assert forall k | 0 <= k < |once| :: once[k] in once;
  }

  /** The card map after `addCard`: the card goes last in its bucket, which is created if absent. */
  function Added(cards: Buckets, parentId: string, card: Card): (r: Buckets)
    ensures r.Keys == cards.Keys + {parentId}
    ensures r[parentId] == Bucket(cards, parentId) + [card]
    ensures forall l :: l != parentId ==> Bucket(r, l) == Bucket(cards, l)
  {
    cards[parentId := Bucket(cards, parentId) + [card]]
  }

  /** The card map after `updateCard` on an existing bucket. */
  function Patched(cards: Buckets, parentId: string, cardId: string, updates: CardPatch, now: string): (r: Buckets)
    requires parentId in cards
    ensures r.Keys == cards.Keys
    ensures r[parentId] == PatchedBucket(cards[parentId], cardId, updates, now)
    ensures |r[parentId]| == |cards[parentId]|
    ensures forall l :: l != parentId ==> Bucket(r, l) == Bucket(cards, l)
    ensures (forall k | 0 <= k < |cards[parentId]| :: cards[parentId][k].id != cardId) ==> r == cards
  {
    var bucket := PatchedBucket(cards[parentId], cardId, updates, now);
    if bucket == cards[parentId] then cards else cards[parentId := bucket]
  }

  /** The card map after `deleteCard` on an existing bucket. */
  function Removed(cards: Buckets, parentId: string, cardId: string): (r: Buckets)
    requires parentId in cards
    ensures r.Keys == cards.Keys
    ensures r[parentId] == Without(cards[parentId], cardId)
    ensures forall c :: c in r[parentId] <==> c in cards[parentId] && c.id != cardId
    ensures forall l :: l != parentId ==> Bucket(r, l) == Bucket(cards, l)
    ensures (forall k | 0 <= k < |cards[parentId]| :: cards[parentId][k].id != cardId) ==> r == cards
  {
    var bucket := Without(cards[parentId], cardId);
    if bucket == cards[parentId] then cards else cards[parentId := bucket]
  }

  /** Deleting twice is deleting once, on the whole card map. */
  lemma RemovedIdempotent(cards: Buckets, parentId: string, cardId: string)
    requires parentId in cards
    ensures Removed(Removed(cards, parentId, cardId), parentId, cardId) == Removed(cards, parentId, cardId)
  {
    WithoutIdempotent(cards[parentId], cardId);
  }

  /** The slice state `CardState`; each reducer is a method that changes only the fields it names. */
  class CardStore {
    var cards: Buckets
    var currentPath: seq<Card>
    var searchQuery: string
    var loading: bool

    /** `initialState`. */
    constructor ()
      ensures cards == InitialCards && currentPath == [] && searchQuery == "" && !loading
    {
      cards := InitialCards;
      currentPath := [];
      searchQuery := "";
      loading := false;
    }

    method SetCards(payload: Buckets)
      modifies this`cards
      ensures cards == payload
    {
      cards := payload;
    }

    method SetCurrentPath(payload: seq<Card>)
      modifies this`currentPath
      ensures currentPath == payload
    {
      currentPath := payload;
    }

    method SetSearchQuery(payload: string)
      modifies this`searchQuery
      ensures searchQuery == payload
    {
      searchQuery := payload;
    }

    method SetLoading(payload: bool)
      modifies this`loading
      ensures loading == payload
    {
      loading := payload;
    }

    method AddCard(parentId: string, card: Card)
      modifies this`cards
      ensures cards == Added(old(cards), parentId, card)
    {
      if parentId !in cards {
        cards := cards[parentId := []];
      }
      cards := cards[parentId := cards[parentId] + [card]];
    }

    /**
     * `ok` is false when the bucket is absent: the reducer then fails on `undefined.findIndex`
     * and the state stays as it was.
     */
    method UpdateCard(parentId: string, cardId: string, updates: CardPatch, now: string) returns (ok: bool)
      modifies this`cards
      ensures ok == (parentId in old(cards))
      ensures ok ==> cards == Patched(old(cards), parentId, cardId, updates, now)
      ensures !ok ==> cards == old(cards)
    {
      if parentId !in cards {
        return false;
      }
      ok := true;
      var bucket := cards[parentId];
      var cardIndex := FindIndex(bucket, cardId);
      if cardIndex != -1 {
        cards := cards[parentId := bucket[cardIndex := Merge(bucket[cardIndex], updates, now)]];
      }
    }

    /** `ok` is false when the bucket is absent (`undefined.filter` fails); the state is then unchanged. */
    method DeleteCard(parentId: string, cardId: string) returns (ok: bool)
      modifies this`cards
      ensures ok == (parentId in old(cards))
      ensures ok ==> cards == Removed(old(cards), parentId, cardId)
      ensures !ok ==> cards == old(cards)
    {
      if parentId !in cards {
        return false;
      }
      ok := true;
      cards := cards[parentId := Without(cards[parentId], cardId)];
    }

    /** Back to the initial cards, path and query; `loading` is left as it was. */
    method ClearCards()
      modifies this`cards, this`currentPath, this`searchQuery
      ensures cards == InitialCards && currentPath == [] && searchQuery == ""
    {
      cards := InitialCards;
      currentPath := [];
      searchQuery := "";
    }
  }
}
