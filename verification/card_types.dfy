/** The records of src/types/card.ts. Pixel coordinates are integers; timestamps are opaque ISO strings. */
module CardTypes {
  import opened Wrappers

  datatype Position = Position(x: int, y: int)

  /** A card. `parentId` is `None` for both `null` and `undefined` (a top-level card). */
  datatype Card = Card(
    id: string,
    title: string,
    content: Option<string>,
    position: Option<Position>,
    parentId: Option<string>,
    tags: Option<seq<string>>,
    createdAt: string,
    updatedAt: string)

  /** `Partial<Card>`: a present field overrides the card's field when spread over it. */
  datatype CardPatch = CardPatch(
    id: Option<string>,
    title: Option<string>,
    content: Option<string>,
    position: Option<Position>,
    parentId: Option<string>,
    tags: Option<seq<string>>,
    createdAt: Option<string>,
    updatedAt: Option<string>)

  /** The fields a caller may send when creating a card, plus the optional parent of the new card. */
  datatype CreateCardParams = CreateCardParams(
    title: string,
    content: Option<string>,
    position: Position,
    tags: Option<seq<string>>,
    parentId: Option<string>)

  /** The fields a caller may change on an existing card. */
  datatype UpdateCardParams = UpdateCardParams(
    title: Option<string>,
    content: Option<string>,
    position: Option<Position>,
    tags: Option<seq<string>>)

  const EmptyPatch := CardPatch(None, None, None, None, None, None, None, None)

  /** `{ position }`: the patch the drag engine sends on every pointer move. */
  function PositionPatch(p: Position): (u: CardPatch)
    ensures u.position == Some(p)
    ensures u.(position := None) == EmptyPatch
  {
    EmptyPatch.(position := Some(p))
  }

  /** An `UpdateCardParams` seen as a `Partial<Card>`: it never names an identity or placement field. */
  function AsPatch(u: UpdateCardParams): (p: CardPatch)
    ensures p.id.None? && p.parentId.None? && p.createdAt.None? && p.updatedAt.None?
    ensures p.title == u.title && p.content == u.content && p.position == u.position && p.tags == u.tags
  {
    CardPatch(None, u.title, u.content, u.position, None, u.tags, None, None)
  }

  /** The field a patch leaves alone keeps its old value. */
  function Override<T>(old_: T, patch: Option<T>): (r: T)
    ensures patch.None? ==> r == old_
    ensures patch.Some? ==> r == patch.value
  {
    patch.GetOr(old_)
  }

  /** The same for a field that is itself optional on the card: a present value makes it present. */
  function OverrideOptional<T>(old_: Option<T>, patch: Option<T>): (r: Option<T>)
    ensures patch.None? ==> r == old_
    ensures patch.Some? ==> r == patch
  {
    if patch.Some? then patch else old_
  }

  /**
   * `{ ...card, ...updates, updatedAt: now }`: the fields present in `updates` override those of `card`,
   * every other field is kept, and `updatedAt` is always the fresh timestamp.
   */
  function Merge(card: Card, updates: CardPatch, now: string): (r: Card)
    ensures r.updatedAt == now
    ensures r.(updatedAt := card.updatedAt) == Card(
      Override(card.id, updates.id),
      Override(card.title, updates.title),
      OverrideOptional(card.content, updates.content),
      OverrideOptional(card.position, updates.position),
      OverrideOptional(card.parentId, updates.parentId),
      OverrideOptional(card.tags, updates.tags),
      Override(card.createdAt, updates.createdAt),
      card.updatedAt)
  {
    Card(
      updates.id.GetOr(card.id),
      updates.title.GetOr(card.title),
      if updates.content.Some? then updates.content else card.content,
      if updates.position.Some? then updates.position else card.position,
      if updates.parentId.Some? then updates.parentId else card.parentId,
      if updates.tags.Some? then updates.tags else card.tags,
      updates.createdAt.GetOr(card.createdAt),
      now)
  }

  /** An empty patch only refreshes the timestamp. */
  lemma MergeEmptyPatch(card: Card, now: string)
    ensures Merge(card, EmptyPatch, now) == card.(updatedAt := now)
  {
  }

  /** Applying the same patch at the same time twice is applying it once. */
  lemma MergeIdempotent(card: Card, updates: CardPatch, now: string)
    ensures Merge(Merge(card, updates, now), updates, now) == Merge(card, updates, now)
  {
  }

  /** A patch built from `UpdateCardParams` keeps the card's id, parent and creation time. */
  lemma MergeParamsKeepsIdentity(card: Card, u: UpdateCardParams, now: string)
    ensures var r := Merge(card, AsPatch(u), now);
      r.id == card.id && r.parentId == card.parentId && r.createdAt == card.createdAt
  {
  }
}
