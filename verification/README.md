# mind-card workspace core in Dafny

A model of the hierarchical card workspace of mind-card and of the small state containers around it.

- **Card store.** Cards live in buckets keyed by a locator: `"root"` for the top level, or the id of the card that contains them. The store also holds the breadcrumb path, the search query and a loading flag. Its reducers are the methods of the class `CardSlice.CardStore`. Each method is specified by a function on the card map (`Added`, `Patched`, `Removed`), and the lemmas are stated about those functions.
- **Workspace page.** The current locator comes from the path. Navigation appends to the path or truncates it. Loading regroups the fetched cards into buckets by parent, in a loop. Create, update and delete change the store only after the remote call has succeeded.
- **Canvas.** It filters the current bucket by a case-insensitive search. Its drag session records which card is held and the offset at which it was grabbed. Pointer moves propose positions clamped to the canvas. A double-click on the empty canvas creates a card.
- **Redux slices.** The global settings, route/breadcrumb and user-session slices are classes whose methods change only the fields they name.
- **Admin table.** It holds the status and priority colours, the tag column (split on `,` and trim), and the choice between the search, by-status and paged listing endpoints. Its handlers keep the keyword and status filters mutually exclusive and guard saving and batch deletion.

The remote service is never called. Each remote call is a parameter of the handler that makes it: the card returned by a create (`None` when the call threw), a success flag for updates and deletes, or the fetched list. Timestamps are parameters too. Pixel coordinates are integers.

Behaviour of the code that the model keeps:
- Loading replaces the whole card map with the regrouped response. It does not replace just one bucket.
- `navigateBack(i)` uses `Array.prototype.slice`. An index past the end keeps the whole path, and an index below -1 counts from the end. An invalid index does not fail.
- `updateCard` and `deleteCard` index the bucket without a guard. On an absent bucket the reducer throws and the state is unchanged. The page handlers catch that throw, so a remote success followed by a missing local bucket leaves the store as it was.
- Pointer moves send one remote update per move. Nothing coalesces them.
- The admin table's save and batch-delete handlers check only whether the remote call threw. They never read its `success` field. A call that answers with `success` false still shows the success message, closes the modal or clears the selection, and reloads. `remoteOk` in the model of those two handlers means "did not throw".

## Model

| member | source | states |
|---|---|---|
| CardSlice.CardStore.constructor | src/store/redux/slices/cardSlice.ts:4-11 | the initial store has exactly the empty root bucket, an empty path, an empty query and is not loading |
| CardSlice.CardStore.SetCards | src/store/redux/slices/cardSlice.ts:17-19 | the card map becomes the payload; the path, query and loading flag are outside the frame and stay |
| CardSlice.CardStore.SetCurrentPath | src/store/redux/slices/cardSlice.ts:20-22 | only the path changes, to the payload |
| CardSlice.CardStore.SetSearchQuery | src/store/redux/slices/cardSlice.ts:23-25 | only the query changes, to the payload |
| CardSlice.CardStore.SetLoading | src/store/redux/slices/cardSlice.ts:26-28 | only the loading flag changes, to the payload |
| CardSlice.CardStore.AddCard | src/store/redux/slices/cardSlice.ts:29-38 | the card map becomes `Added(old, parentId, card)` |
| CardSlice.Added | src/store/redux/slices/cardSlice.ts:33-37 | the card is appended to the old bucket, or to an empty bucket created for it; every other bucket is unchanged (bucket isolation) |
| CardSlice.CardStore.UpdateCard | src/store/redux/slices/cardSlice.ts:39-58 | with the bucket present, the map becomes `Patched(...)`; with it absent, the method reports failure and nothing changes |
| CardSlice.FindIndex | src/store/redux/slices/cardSlice.ts:48-50 | the result is -1 exactly when no card has the id; otherwise it is the first position holding the id |
| CardSlice.PatchedBucket | src/store/redux/slices/cardSlice.ts:51-57 | same length; only the first card with the id is replaced, by its merge with the patch; with no such card the bucket is unchanged |
| CardSlice.Patched | src/store/redux/slices/cardSlice.ts:47-57 | the addressed bucket becomes `PatchedBucket` of the old one; the keys are the same; other buckets are unchanged; an absent id leaves the whole map unchanged |
| CardTypes.Merge | src/store/redux/slices/cardSlice.ts:52-56 | every field present in the patch overrides; every absent field is kept; `updatedAt` is the fresh timestamp |
| CardTypes.MergeEmptyPatch | src/store/redux/slices/cardSlice.ts:52-56 | an empty patch changes nothing but `updatedAt` |
| CardTypes.MergeIdempotent | src/store/redux/slices/cardSlice.ts:52-56 | merging the same patch at the same time twice equals merging once |
| CardTypes.AsPatch | src/types/card.ts:24-29 | an `UpdateCardParams` as a partial card names no id, parent or timestamp field and carries the same title, content, position and tags |
| CardTypes.MergeParamsKeepsIdentity | src/types/card.ts:24-29 | merging an `UpdateCardParams` keeps the card's id, parent and creation time |
| CardSlice.CardStore.DeleteCard | src/store/redux/slices/cardSlice.ts:59-67 | with the bucket present, the map becomes `Removed(...)`; with it absent, the method reports failure and nothing changes |
| CardSlice.Without | src/store/redux/slices/cardSlice.ts:64-66 | the result keeps every occurrence of each card whose id differs and no card with the id, as an order-preserving subsequence; an absent id changes nothing |
| CardSlice.WithoutIdempotent | src/store/redux/slices/cardSlice.ts:64-66 | deleting the same id twice gives the same bucket as deleting it once |
| CardSlice.Removed | src/store/redux/slices/cardSlice.ts:63-66 | the addressed bucket becomes `Without` of the old one, so it loses exactly the cards with the id and keeps the order and count of the rest; the keys are the same; other buckets are unchanged; an absent id changes nothing |
| CardSlice.RemovedIdempotent | src/store/redux/slices/cardSlice.ts:63-66 | deleting twice equals deleting once on the whole card map |
| CardSlice.CardStore.ClearCards | src/store/redux/slices/cardSlice.ts:68-72 | cards reset to the root-only map, the path to empty and the query to empty; loading is outside the frame |
| CardSlice.Bucket | src/pages/MindCard/index.tsx:42 | a present locator gives its bucket; an absent one gives no cards |
| MindCardPage.CurrentCardId | src/pages/MindCard/index.tsx:34-38 | an empty path gives the root locator; otherwise the last path card's id |
| MindCardPage.CurrentCards | src/pages/MindCard/index.tsx:40-43 | the current locator's bucket, or no cards when it has none |
| MindCardPage.RemoteParent | src/pages/MindCard/index.tsx:48-49 | the parent sent to the remote is absent exactly at the root; otherwise it is the current locator |
| MindCardPage.SliceEnd | src/pages/MindCard/index.tsx:93 | the stop index of `slice(0, end)`: clamped to the length, and counted from the end when negative |
| MindCardPage.PathAfterBack | src/pages/MindCard/index.tsx:88-97 | the result is always a prefix of the path; -1 gives `[]`; a valid index `i` gives `path[..i+1]`; an index at or past the end keeps the path; an index `i` below -1 keeps the first max(0, n + i + 1) of its n cards, as `slice` counts a negative end from the back |
| MindCardPage.NavigationRoundTrip | src/pages/MindCard/index.tsx:81-97 | backing out to `i` and re-entering the cut-off cards in order restores the original path |
| MindCardPage.NavigationLocator | src/pages/MindCard/index.tsx:81-97 | entering a card makes it current; backing to -1 makes the root current; backing to `i` makes `path[i]` current |
| MindCardPage.NavigateToCard | src/pages/MindCard/index.tsx:81-86 | the path gains the card at its end; nothing else changes |
| MindCardPage.NavigateBack | src/pages/MindCard/index.tsx:88-97 | the path becomes `PathAfterBack(old path, index)` |
| MindCardPage.ParentLocator | src/pages/MindCard/index.tsx:60 | a missing or empty parent id goes to the root bucket; any other parent id is the bucket key |
| MindCardPage.Grouped | src/pages/MindCard/index.tsx:53-65 | the regrouped map always has a root bucket |
| MindCardPage.GroupedBuckets | src/pages/MindCard/index.tsx:59-65 | every bucket holds exactly the response's cards with that parent, in response order |
| MindCardPage.GroupedKeys | src/pages/MindCard/index.tsx:53-65 | the buckets are the root plus exactly the parents that occur in the response |
| MindCardPage.GroupedTotal | src/pages/MindCard/index.tsx:59-65 | the buckets together hold as many cards as the response |
| MindCardPage.GroupByParent | src/pages/MindCard/index.tsx:53-66 | the loop builds `Grouped(response)`: a root bucket, each card in its parent's bucket in order, no card lost |
| MindCardPage.LoadCards | src/pages/MindCard/index.tsx:45-75 | the fetch names the current parent; the card map becomes the regrouped response, or the root-only map on failure; loading ends false |
| MindCardPage.CreateRequest | src/pages/MindCard/index.tsx:106-116 | the create request carries the title, content, position and no tags; its parent is absent exactly at the root and is the current locator everywhere else |
| MindCardPage.HandleCreateCard | src/pages/MindCard/index.tsx:99-129 | on success the returned card is appended to the current bucket; on failure the store is unchanged |
| MindCardPage.HandleUpdateCard | src/pages/MindCard/index.tsx:131-149 | the local patch is applied to the current bucket only after remote success and when that bucket exists; otherwise the store is unchanged |
| MindCardPage.HandleDeleteCard | src/pages/MindCard/index.tsx:151-168 | the card leaves the current bucket only after remote success and when that bucket exists; otherwise the store is unchanged |
| CardSpace.ToLower | src/components/MindCard/CardSpace.tsx:28-30 | `toLowerCase` keeps the length and lowers each character on its own, the ASCII capitals becoming small letters |
| CardSpace.Matches | src/components/MindCard/CardSpace.tsx:28-30 | the filter test: the lowered title contains the lowered query, or the content is present, non-empty and, lowered, contains it |
| CardSpace.Includes | src/components/MindCard/CardSpace.tsx:29-31 | `includes` holds exactly when the needle is a prefix of some suffix of the text |
| Seqs.Filter | src/components/MindCard/CardSpace.tsx:26-31 | `Array.prototype.filter`: the result holds exactly the elements that pass, as an order-preserving subsequence, and is the whole input when every element passes |
| Seqs.FilterMultiset | src/store/redux/slices/cardSlice.ts:64-66 | `filter` keeps every occurrence of a passing element and no occurrence of a failing one |
| Seqs.FilterSnoc | src/pages/MindCard/index.tsx:59-65 | filtering a sequence with one element appended filters the prefix, then keeps or drops that element |
| CardSpace.FilteredCards | src/components/MindCard/CardSpace.tsx:26-31 | a card is kept exactly when it matches, with every occurrence kept; the result is an order-preserving subsequence |
| CardSpace.FilterEmptyQuery | src/components/MindCard/CardSpace.tsx:27-32 | the empty query returns the bucket unchanged, in order |
| CardSpace.FilterIgnoresQueryCase | src/components/MindCard/CardSpace.tsx:27-32 | a query and its lower-cased form select the same cards |
| CardSpace.FilterExample | src/components/MindCard/CardSpace.tsx:27-32 | searching "plan" over "Plan A" and "Notes" keeps only "Plan A" |
| CardSpace.DragSession.constructor | src/components/MindCard/CardSpace.tsx:24-25 | the canvas starts idle with a zero offset |
| CardSpace.IsEmbeddedControl | src/components/MindCard/CardSpace.tsx:34-41 | a press on a button, anything inside a button, an input or a text area is left to the control |
| CardSpace.DragSession.HandleMouseDown | src/components/MindCard/CardSpace.tsx:34-55 | a press on a button, inside a button, or on an input or textarea leaves the session unchanged, and so does a missing container box; otherwise the card is held with offset = pointer minus the card's top-left |
| CardSpace.DragSession.HandleMouseMove | src/components/MindCard/CardSpace.tsx:57-70 | when idle, no update; when dragging, a position-only update of the held card at `DragTarget` |
| CardSpace.Clamp | src/components/MindCard/CardSpace.tsx:66-67 | the result lies in `[0, max(0, extent - footprint)]`; an in-range value is unchanged; a negative one becomes 0; one past the limit becomes the limit |
| CardSpace.DragTarget | src/components/MindCard/CardSpace.tsx:58-69 | each axis lies in `[0, max(0, W-280)]` resp. `[0, max(0, H-160)]`; an in-range proposal is kept exactly; one below 0 becomes 0, and one past the limit becomes the limit |
| CardTypes.PositionPatch | src/components/MindCard/CardSpace.tsx:64-69 | the drag patch names the new position and no other field |
| CardSpace.DragUpdateOnlyMoves | src/components/MindCard/CardSpace.tsx:64-69 | a drag update changes only the card's position and timestamp |
| CardSpace.DragSession.HandleMouseUp | src/components/MindCard/CardSpace.tsx:72-75 | mouse-up and mouse-leave return to idle with a zero offset |
| CardSpace.DoubleClickPosition | src/components/MindCard/CardSpace.tsx:79-82 | the pointer minus (140, 80), each coordinate clamped to be non-negative |
| CardSpace.HandleDoubleClick | src/components/MindCard/CardSpace.tsx:77-84 | a card titled 新卡片 with empty content is requested exactly when the canvas itself was double-clicked |
| GlobalSlice.GlobalState.constructor | src/store/redux/slices/globalSlice.ts:18-23 | light theme, zh-CN, not collapsed, not loading |
| GlobalSlice.GlobalState.SetTheme | src/store/redux/slices/globalSlice.ts:31-33 | only the theme changes, to the payload |
| GlobalSlice.GlobalState.SetLanguage | src/store/redux/slices/globalSlice.ts:36-38 | only the language changes, to the payload |
| GlobalSlice.GlobalState.SetCollapsed | src/store/redux/slices/globalSlice.ts:41-43 | only the collapsed flag changes, to the payload |
| GlobalSlice.GlobalState.SetLoading | src/store/redux/slices/globalSlice.ts:46-48 | only the loading flag changes, to the payload |
| GlobalSlice.Toggled | src/store/redux/slices/globalSlice.ts:51-53 | the toggled theme always differs from the old one |
| GlobalSlice.ToggledTwice | src/store/redux/slices/globalSlice.ts:51-53 | toggling the theme twice is the identity |
| GlobalSlice.GlobalState.ToggleTheme | src/store/redux/slices/globalSlice.ts:51-53 | only the theme changes: light becomes dark and dark becomes light |
| GlobalSlice.GlobalState.ToggleCollapsed | src/store/redux/slices/globalSlice.ts:56-58 | only the collapsed flag changes, to its negation |
| GlobalSlice.ToggleThemeTwice | src/store/redux/slices/globalSlice.ts:51-53 | two theme toggles leave the state as it was |
| GlobalSlice.ToggleCollapsedTwice | src/store/redux/slices/globalSlice.ts:56-58 | two sidebar toggles leave the state as it was |
| AppSlice.AppState.constructor | src/store/redux/slices/appSlice.ts:16-19 | route `/` and no breadcrumbs |
| AppSlice.AppState.SetCurrentRoute | src/store/redux/slices/appSlice.ts:27-29 | only the route changes, to the payload |
| AppSlice.AppState.SetBreadcrumbs | src/store/redux/slices/appSlice.ts:32-34 | only the breadcrumbs change, replaced wholesale |
| AppSlice.AppState.AddBreadcrumb | src/store/redux/slices/appSlice.ts:37-39 | the item is appended: one longer, the old trail is a prefix, and the route stays |
| AppSlice.AppState.ClearBreadcrumbs | src/store/redux/slices/appSlice.ts:42-44 | the breadcrumbs become empty; the route stays |
| UserSlice.UserState.constructor | src/store/redux/slices/userSlice.ts:27-31 | no user, no token, not logged in |
| UserSlice.UserState.SetUserInfo | src/store/redux/slices/userSlice.ts:39-41 | only the user info changes |
| UserSlice.UserState.SetToken | src/store/redux/slices/userSlice.ts:44-46 | only the token changes; the logged-in flag is outside the frame |
| UserSlice.UserState.Login | src/store/redux/slices/userSlice.ts:49-56 | user and token come from the payload, and the user is logged in |
| UserSlice.UserState.Logout | src/store/redux/slices/userSlice.ts:59-65 | user and token are cleared, and the user is logged out |
| UserSlice.MergeInfo | src/store/redux/slices/userSlice.ts:70 | the fields present in the patch override; every other field is kept |
| UserSlice.MergeInfoIdempotent | src/store/redux/slices/userSlice.ts:70 | merging the same patch again changes nothing more |
| UserSlice.UserState.UpdateUserInfo | src/store/redux/slices/userSlice.ts:68-72 | with a user present, the user becomes the merge; with none, nothing changes |
| CardsAdmin.StatusColor | src/pages/Cards/index.tsx:293-304 | `success` exactly for PUBLISHED, `warning` exactly for ARCHIVED, `default` for everything else, DRAFT included |
| CardsAdmin.PriorityColor | src/pages/Cards/index.tsx:307-312 | `red` iff priority ≥ 4, `orange` iff 3, `blue` iff 2, `default` iff below 2 |
| CardsAdmin.Split | src/pages/Cards/index.tsx:347-348 | at least one piece, and no piece contains the separator |
| CardsAdmin.JoinSplit | src/pages/Cards/index.tsx:347-348 | joining the pieces back with the separator gives the original text |
| CardsAdmin.SplitJoin | src/pages/Cards/index.tsx:347-348 | splitting joined separator-free pieces gives those pieces back |
| CardsAdmin.SplitCount | src/pages/Cards/index.tsx:347-348 | there is one more piece than there are separators |
| CardsAdmin.IsWhitespace | src/pages/Cards/index.tsx:349 | the characters `trim` removes: the ECMAScript white space and line terminators |
| CardsAdmin.TrimStart | src/pages/Cards/index.tsx:349 | the result is a suffix of the input; everything removed is white space; it does not start with white space |
| CardsAdmin.TrimEnd | src/pages/Cards/index.tsx:349 | the result is a prefix of the input; everything removed is white space; it does not end with white space |
| CardsAdmin.Trim | src/pages/Cards/index.tsx:349 | the result is a contiguous slice of the input with only white space around it, and it neither starts nor ends with white space |
| CardsAdmin.TrimIdempotent | src/pages/Cards/index.tsx:349 | trimming twice equals trimming once |
| CardsAdmin.RenderTags | src/pages/Cards/index.tsx:345-350 | an absent or empty tags value renders `-`; otherwise one trimmed tag per comma-separated piece, in order |
| CardsAdmin.SelectQuery | src/pages/Cards/index.tsx:74-97 | a non-empty keyword selects search whatever the status; else a non-empty status selects by-status; else paged by creation date descending; the remote page is `page - 1` |
| CardsAdmin.CardManagement.constructor | src/pages/Cards/index.tsx:53-69 | the initial table state: no rows, not loading, page 1 of size 10, no filters, no selection, modal closed |
| CardsAdmin.CardManagement.LoadCards | src/pages/Cards/index.tsx:74-112 | issues `SelectQuery(...)`; a successful response replaces the rows and pagination, and a failure keeps them; loading ends false |
| CardsAdmin.CardManagement.HandleSearch | src/pages/Cards/index.tsx:132-136 | sets the keyword and clears the status, so at most one filter is set; reloads page 1 at the old page size, after which the rows and pagination are the response's, or unchanged on failure |
| CardsAdmin.CardManagement.HandleStatusFilter | src/pages/Cards/index.tsx:139-143 | sets the status and clears the keyword, so at most one filter is set; reloads page 1 at the old page size, after which the rows and pagination are the response's, or unchanged on failure |
| CardsAdmin.HasUsableId | src/pages/Cards/index.tsx:184 | `if (editingCard.id)`: an id is usable when present and not 0, since 0 is falsy |
| CardsAdmin.SaveCall | src/pages/Cards/index.tsx:183-194 | create when nothing is being edited; update by id when the edited card has a usable (present, non-zero) id; no call otherwise |
| CardsAdmin.CardManagement.HandleSave | src/pages/Cards/index.tsx:176-206 | a missing id only reports an error, with no call, close or reload; a save whose call did not throw closes the modal and reloads the current page; one that threw keeps the modal and reports an error |
| CardsAdmin.CardManagement.HandleBatchDelete | src/pages/Cards/index.tsx:226-245 | an empty selection only warns and calls nothing; otherwise the selection is deleted, and unless that call threw, the selection is cleared and the page reloaded |

## Left out

- Remote services (`src/services/card.ts`, `src/services/mindCard.ts`) and the request plumbing in `src/utils/request.ts` are not part of this model. A remote call's outcome is an input of the handler that makes it.
- `loadStatistics` and the statistics cards of the admin table are not modelled, because they are display only.
- `handleDelete`, `handleToggleFavorite`, `handleTogglePublic`, `handleStatusChange` and `handleTableChange` of the admin table are not modelled. Each only calls the remote and then reloads with the current filters, which `LoadCards` covers.
- Message texts are modelled only where a guard clause decides them. Form resets and modal rendering are left out.
- `CardSpace.ToLower`: lower-cases only the ASCII letters. JavaScript's `toLowerCase` also maps other Unicode letters. Queries over non-ASCII letters that differ only in case are therefore not identified.
- `CardsAdmin.PriorityColor`: takes an integer priority. A fractional priority (a JavaScript number such as 3.5) is not represented.
- `CardTypes.Merge` and `UserSlice.MergeInfo`: a present field always carries a value. A patch that explicitly sets a field to `undefined` (which the spread would copy) is not represented.
- Pixel geometry is integer. Fractional coordinates from `getBoundingClientRect` and the random default position of `handleCreateCard` are not modelled, so the position is an input.
- Generated ids, the `Date.now()`/`Math.random()` id of the create service and `new Date().toISOString()` timestamps are inputs.
- Completion order of overlapping remote calls is not modelled. The handlers are modelled as running to completion one at a time, as in a single event loop with no interleaving. The per-move remote update of a drag is modelled one move at a time.
- Buckets are keyed by locators in a plain JavaScript object. A locator that names an `Object.prototype` member (`constructor`, `toString`, `__proto__`) reads as a truthy non-array, so `push` throws. `addCard` then leaves the store unchanged, and the regrouping in `loadCards` falls into its catch and sets the root-only map. The model's map creates a fresh bucket for every locator, so it does not reproduce these throws.
- The admin table's `loading` flag is modelled only as its final value, false. The period during which a request is in flight is not observable in the model.
- The `localStorage.removeItem` side effect of `logout` is not modelled, because it is I/O.
- View markup (Header, Breadcrumb, Card, Home), the store wiring and the persistence configuration are not modelled.
