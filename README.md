# Kanban reordering engine, in Dafny

This project models the task board of a relationship dashboard, and the
server routes beside it:

- The client-side engine of the board (`src/app/KanbanBoard.tsx`):
  - the four status columns, each sorted by `position` and then `updatedAt`;
  - the collision filter that decides what a dragged card is over;
  - the drop indicator computed while the drag is in flight;
  - the drop handler, which moves the card, renumbers every column to a dense `1..N` and diffs the result against the previous list to get the `moves`;
  - the optimistic contributor toggle and delete, and drag cancel.
- The route that writes those moves to the `asks` table (`src/app/api/asks/reorder/route.ts`).
- The whitelisted company update route (`src/app/api/companies/update/route.ts`).
- The active-link logic of the sidebar (`src/app/SidebarNav.tsx`).

Modules:

| file | module | what it holds |
|---|---|---|
| `wrappers.dfy` | `Wrappers` | `Option` |
| `json_value.dfy` | `JsonValue` | JSON values, JavaScript truthiness, `v?.key` |
| `cards.dfy` | `Cards` | status keys, the card record, `find` / `findIndex` |
| `rank_model.dfy` | `RankModel` | the comparator, the sort, the columns (`cardsByStatus`), renumbering |
| `splice.dfy` | `Splice` | `splice` removal and insertion, array move |
| `collision.dfy` | `Collision` | `collisionDetectionStrategy` |
| `drag_over.dfy` | `DragOver` | `handleDragOver` and the drop indicator |
| `reconciler.dfy` | `Reconciler` | the `moves` diff |
| `drag_end.dfy` | `DragEnd` | `handleDragEndDnd`: fast path, general path, drop index |
| `drop_laws.dfy` | `DropLaws` | what every drop guarantees |
| `persistence.dfy` | `Persistence` | a concrete same-column drop on the fast path |
| `optimistic_edits.dfy` | `OptimisticEdits` | contributor toggle and delete |
| `kanban_board.dfy` | `KanbanBoard` | the component's state as a class, and its handlers |
| `asks_reorder.dfy` | `AsksReorder` | `POST /api/asks/reorder` |
| `reorder_sync.dfy` | `ReorderSync` | the board's moves applied by the route |
| `companies_update.dfy` | `CompaniesUpdate` | `POST /api/companies/update` |
| `sidebar_nav.dfy` | `SidebarNav` | `isActive`, the default path, `activeIndex` |

The model makes these modelling choices:

- Inputs that come from outside the engine are parameters:
  - `Date.now()` is `now`;
  - the drop indicator the drop handler closes over is `indicator`;
  - dnd-kit's hit lists are sequences of ids, and `closestCenter` is a function;
  - the dragged card's centre and the hovered target's middle are optional integers;
  - the midpoints of the rendered cards are a map that has no entry for a card whose element is missing.
- `Array.prototype.sort` is a stable insertion sort by the same comparator.
- The store of the reorder route is a map from id to `(status, position)`.
- The `fetch` to the reorder route is an ordered log of the posted `moves` batches (`Board.sent`).

Three behaviours of the code a reader might not expect:

- `handleDragStartDnd` only records the dragged id. It does not clear the drop indicator.
- Dropping a card on itself runs the general path. With no indicator for its column, the card then moves to the end of its column: the list it searches no longer holds it. This is not a no-op.
- A non-empty string `update` in the company route fails `typeof update !== "object"` and gets 400. An array passes that check and then gets "No valid fields".

## Model

| member | source | states |
|---|---|---|
| `Cards.StatusOf` | src/app/KanbanBoard.tsx:64-69 | an id names a column exactly when it is one of the four keys of `orderedStatuses`, and then it is that column's key |
| `Cards.Place` | src/app/KanbanBoard.tsx:64-69 | every status occurs in `orderedStatuses`, at its own index |
| `Cards.IsStatusKey` | src/app/KanbanBoard.tsx:592 | `orderedStatuses.includes(overId)`: the id is one of the four column keys |
| `Cards.FindIndex` | src/app/KanbanBoard.tsx:600-601 | `findIndex` returns the first index holding the id, and -1 exactly when no card holds it |
| `Cards.FindCard` | src/app/KanbanBoard.tsx:588 | `find` returns nothing exactly when no card has the id, else the card at the first index holding it |
| `Cards.FindCardUnique` | src/app/KanbanBoard.tsx:697 | with unique ids, `find` returns the one card with that id |
| `RankModel.Compare` | src/app/KanbanBoard.tsx:464 | the comparator: the difference of the positions, or the difference of the `updatedAt` values when the positions are equal |
| `RankModel.Precedes` | src/app/KanbanBoard.tsx:464 | `a` may stand before `b`: a smaller position, or the same position and an `updatedAt` no later |
| `RankModel.Sort` | src/app/KanbanBoard.tsx:464 | the sorted column is ordered by `position`, then `updatedAt`, and is a permutation of the column |
| `RankModel.SortSortedIsIdentity` | src/app/KanbanBoard.tsx:464 | sorting an already ordered column leaves it as it is |
| `RankModel.SortStable` | src/app/KanbanBoard.tsx:464 | the sort is stable: the cards the comparator ties (same `position`, same `updatedAt`) keep their input order |
| `RankModel.Partition` | src/app/KanbanBoard.tsx:453-467 | every column is sorted and holds only cards of its own status |
| `RankModel.PartitionPlacesEveryCard` | src/app/KanbanBoard.tsx:460-462 | a card is in column `s` exactly when it is in the list with status `s` |
| `RankModel.PartitionIsPermutation` | src/app/KanbanBoard.tsx:453-467 | the four columns, concatenated, are a permutation of the card list |
| `RankModel.CardsByStatus` | src/app/KanbanBoard.tsx:577-586 | the `push` loop and the per-column sort build exactly `Partition` |
| `RankModel.SortEach` | src/app/KanbanBoard.tsx:584-586 | every column is replaced by its sorted version, and nothing else changes |
| `RankModel.Column` | src/app/KanbanBoard.tsx:505-506 | `filter` by status keeps the cards of that status in input order, and only those |
| `RankModel.Renumbered` | src/app/KanbanBoard.tsx:683-691 | `next` is the columns, each renumbered, concatenated in `orderedStatuses` order |
| `RankModel.Renumber` | src/app/KanbanBoard.tsx:686-690 | a renumbered column keeps its length and its cards in order, and carries positions `1..N` and the column's status; no other field changes |
| `RankModel.RenumberAll` | src/app/KanbanBoard.tsx:683-691 | the loop builds the columns renumbered and concatenated in `orderedStatuses` order |
| `RankModel.PushRenumbered` | src/app/KanbanBoard.tsx:686-690 | the inner loop appends the renumbered column to `next` |
| `RankModel.ColumnOfRenumbered` | src/app/KanbanBoard.tsx:683-691 | the cards of status `s` in `next` are the renumbered column `s`, in order |
| `RankModel.RenumberedPartition` | src/app/KanbanBoard.tsx:683-691 | the board shows `next` in the order it was built, and renumbering what it shows gives `next` back |
| `RankModel.RenumberedIsDense` | src/app/KanbanBoard.tsx:683-691 | every column of `next` is numbered `1..N` in list order, and no two cards share a (status, position) pair |
| `RankModel.RenumberedRankOrder` | src/app/KanbanBoard.tsx:683-691 | of two cards of one column, the one earlier in `next` has the smaller position |
| `RankModel.RenumberedIds` | src/app/KanbanBoard.tsx:683-691 | `next` holds the ids of the columns, in column order |
| `RankModel.RenumberTwice` | src/app/KanbanBoard.tsx:689 | renumbering a renumbered column changes nothing |
| `RankModel.DenseIsSorted` | src/app/KanbanBoard.tsx:464 | a column numbered `1..N` is already in sorted order |
| `RankModel.InRenumbered` | src/app/KanbanBoard.tsx:689 | every card of `next` is a card of some column, with that column's status and a new position |
| `Splice.RemoveAt` | src/app/KanbanBoard.tsx:623 | `splice(i, 1)` drops the element at `i` and shifts the rest left |
| `Splice.InsertAt` | src/app/KanbanBoard.tsx:668-677 | `splice(i, 0, x)` puts `x` at `i` and shifts the rest right |
| `Splice.InsertRemoved` | src/app/KanbanBoard.tsx:603-604 | inserting the removed element at its old index gives the list back |
| `Splice.ArrayMove` | src/app/KanbanBoard.tsx:603-604 | after the two splices the moved card stands at `toIndex`, and the other cards keep their relative order |
| `Collision.CardHits` | src/app/KanbanBoard.tsx:434 | the card filter; its own ensures give only the length bound, while `CardHitsMembers` and `CardHitsConcat` state what it keeps and in which order |
| `Collision.CardHitsMembers` | src/app/KanbanBoard.tsx:434 | the filter keeps exactly the hits that are not column keys |
| `Collision.CardHitsConcat` | src/app/KanbanBoard.tsx:434 | the card filter keeps its hits in their order: filtering a concatenation concatenates the filtered parts |
| `Collision.Without` | src/app/KanbanBoard.tsx:438 | the active-id filter; its own ensures give only the length bound, while `WithoutMembers` and `WithoutConcat` state what it keeps and in which order |
| `Collision.WithoutMembers` | src/app/KanbanBoard.tsx:438 | the filter keeps exactly the ids other than the active id |
| `Collision.WithoutConcat` | src/app/KanbanBoard.tsx:438 | the active-id filter keeps its hits in their order |
| `Collision.Primary` | src/app/KanbanBoard.tsx:427-428 | the pointer hits when there are any, else the rectangle hits |
| `Collision.HasCardHit` | src/app/KanbanBoard.tsx:431 | some primary hit is not a column key |
| `Collision.Survives` | src/app/KanbanBoard.tsx:431-438 | a hit both filters keep: not the active card, and not a column key when a card was hit |
| `Collision.Kept` | src/app/KanbanBoard.tsx:432-438 | the column filter, applied only when a card was hit, then the active-id filter |
| `Collision.FirstKept` | src/app/KanbanBoard.tsx:432-438 | the first hit kept by the filters is the first hit of the list that survives both |
| `Collision.Filtered` | src/app/KanbanBoard.tsx:427-438 | the filters applied to the primary hits |
| `Collision.FilteredMembers` | src/app/KanbanBoard.tsx:427-438 | the filtered list holds exactly the primary hits that survive both filters |
| `Collision.Collide` | src/app/KanbanBoard.tsx:424-450 | the filtered hits when there are any, else `closestCenter` over the containers other than the active one |
| `Collision.FirstCollision` | src/app/KanbanBoard.tsx:427-440 | when the filtered hits are returned, the first of them (dnd-kit's `over`) is the first primary hit that is not the active card and, when some card was hit, not a column |
| `Collision.FilteredHits` | src/app/KanbanBoard.tsx:427-440 | when something survives the filters, the result is the primary hits other than the active card, without the column hits whenever a card was hit |
| `Collision.CardHitDropsColumns` | src/app/KanbanBoard.tsx:430-435 | if a card other than the active one is hit, no column key is returned |
| `Collision.FallbackToClosest` | src/app/KanbanBoard.tsx:440-448 | nothing survives exactly when every hit is the active card or a column passed over for a card; then the result is `closestCenter` over the containers other than the active one |
| `Collision.NeverTheActiveCard` | src/app/KanbanBoard.tsx:437-448 | the active id is never returned, as long as `closestCenter` picks among the containers it is given |
| `DragOver.OverStatus` | src/app/KanbanBoard.tsx:499-503 | the target column is the container's key, else the hovered card's column, else the dragged card's; it is undefined exactly when the key is not a column and neither id is a card |
| `DragOver.FirstBelow` | src/app/KanbanBoard.tsx:542-553 | the first card whose element exists and whose midpoint is below the centre; the cards before it have no element or a midpoint at or above the centre |
| `DragOver.Clamp` | src/app/KanbanBoard.tsx:558-559 | the index is clamped into `[0, n]` and unchanged inside it |
| `DragOver.Indicator` | src/app/KanbanBoard.tsx:486-561 | over nothing the indicator is cleared; otherwise it names the target column and an index within `[0, items.length]` |
| `DragOver.Items` | src/app/KanbanBoard.tsx:505-507 | the target column's cards, sorted as the board shows them; none when the target is undefined |
| `DragOver.InsertionIndex` | src/app/KanbanBoard.tsx:509-559 | over a card, its index, plus one when the dragged card's centre is below its middle (the end for a card not in the column); over a column, the first card below the centre; clamped to `[0, items.length]` |
| `DragOver.PlaceAfter` | src/app/KanbanBoard.tsx:531-534 | `shouldPlaceAfter`: both centres are known and the dragged card's centre is below the hovered card's middle |
| `DragOver.OverCardIndex` | src/app/KanbanBoard.tsx:528-536 | over the card at index `k`, the index is `k`, or `k + 1` when the dragged card's centre is below its middle |
| `DragOver.OverUnknownCard` | src/app/KanbanBoard.tsx:510 | over a card id that is not in the target column, the index is the end of the column |
| `DragOver.OverColumnIndex` | src/app/KanbanBoard.tsx:537-555 | over a column, the index is the first card with an element whose midpoint is below the centre, or the end of the column; with no centre it is the end |
| `DragOver.ComputeIndicator` | src/app/KanbanBoard.tsx:488-561 | the handler's body computes exactly `Indicator` |
| `DragOver.ComputeIndex` | src/app/KanbanBoard.tsx:509-559 | the index computation, with its scan over the rendered cards, computes exactly `InsertionIndex` |
| `Reconciler.Diff` | src/app/KanbanBoard.tsx:694-701 | one move per card of `next` that is new or whose status or position changed, in `next` order; never more moves than cards |
| `Reconciler.Changed` | src/app/KanbanBoard.tsx:697-698 | a card is new to `prev`, or its status or position differs from the card with its id there |
| `Reconciler.DiffSound` | src/app/KanbanBoard.tsx:694-701 | every move sent is that of a card of `next` that is new or whose status or position changed |
| `Reconciler.DiffComplete` | src/app/KanbanBoard.tsx:694-701 | every card of `next` that is new or whose status or position changed has its move sent |
| `Reconciler.DiffMembers` | src/app/KanbanBoard.tsx:694-701 | a move is sent exactly when it is that of a changed card |
| `Reconciler.DiffConcat` | src/app/KanbanBoard.tsx:695-700 | moves are listed in `next` order: the diff of a concatenation is the concatenation of the diffs |
| `Reconciler.DiffEmpty` | src/app/KanbanBoard.tsx:694-702 | nothing is sent exactly when every card keeps the status and position of its earlier self |
| `Reconciler.DiffOfSelf` | src/app/KanbanBoard.tsx:697-698 | a list with unique ids diffed against itself sends nothing |
| `Reconciler.ComputeMoves` | src/app/KanbanBoard.tsx:694-701 | the loop builds exactly `Diff(prev, next)` |
| `DragEnd.TargetStatus` | src/app/KanbanBoard.tsx:592-595 | the target is the container's key, else the hovered card's column, else the dragged card's own |
| `DragEnd.FastPath` | src/app/KanbanBoard.tsx:598 | the fast path's guard: over a card, not a column, of the dragged card's own column, and not the dragged card itself |
| `DragEnd.UsesIndicator` | src/app/KanbanBoard.tsx:645 | the indicator is set and names the target column |
| `DragEnd.DropIndex` | src/app/KanbanBoard.tsx:642-664 | the index is within the target list; it is the indicator's index for a cross-column drop whose indicator names the target; without that indicator it is the end of the column for a column drop, or the hovered card's index (the end when absent) |
| `DragEnd.ComputeDropIndex` | src/app/KanbanBoard.tsx:642-664 | the statements compute exactly `DropIndex`, including the one-less shift for a same-column drop past the card's old place |
| `DragEnd.FastPathStep` | src/app/KanbanBoard.tsx:598-606 | the fast path returns `prev` when either id is missing from the column, else splices the card from `fromIndex` to `toIndex` with a new timestamp |
| `DragEnd.GeneralPathStep` | src/app/KanbanBoard.tsx:620-681 | the card leaves its source list and enters the target list at `DropIndex` with the target status and a new timestamp; the branch at 632-641 is unreachable under the fast path's guard |
| `DragEnd.RearrangeStep` | src/app/KanbanBoard.tsx:588-681 | the dragged card is looked up, the target found, and one of the two paths taken, computing exactly `RearrangeColumns` |
| `DragEnd.RearrangeColumns` | src/app/KanbanBoard.tsx:588-681 | the columns after a drop: unchanged when the dragged card or an id is missing, else the fast path's array move or the general path's removal and insertion |
| `DragEnd.Rearrange` | src/app/KanbanBoard.tsx:577-681 | the rearrangement of the sorted columns built from `prev` |
| `DragEnd.NextCards` | src/app/KanbanBoard.tsx:576-709 | what the updater hands to `setCards`: `prev` when the drop changes nothing, else the renumbered columns |
| `DragEnd.MovesSent` | src/app/KanbanBoard.tsx:693-708 | the corrected handler: the diff of every rearrangement, nothing for an unchanged list |
| `DragEnd.MovesSentAsWritten` | src/app/KanbanBoard.tsx:598-708 | the handler as written: the diff of a general-path rearrangement, nothing on the fast path, which returns at 617 before the diff |
| `DragEnd.HandleDrop` | src/app/KanbanBoard.tsx:576-709 | the corrected handler: the updater returns `prev` when nothing changes, else the renumbered columns, with the moves of their diff on both paths |
| `DropLaws.UnchangedColumns` | src/app/KanbanBoard.tsx:588-602 | a drop leaves the list alone exactly when the dragged card is not in it, or when the drop is over an id that is neither a column nor a card |
| `DropLaws.DropPermutesIds` | src/app/KanbanBoard.tsx:576-709 | the new list's ids are a permutation of the old list's |
| `DropLaws.DropIsDense` | src/app/KanbanBoard.tsx:683-691 | after a drop that changes the list, every column is numbered `1..N` and no two cards share a rank |
| `DropLaws.OnlyMovedCardChanges` | src/app/KanbanBoard.tsx:598-691 | every card of the new list is a card of the old list with a new position, or the dragged card with a new status, position and timestamp |
| `DropLaws.FastPathShown` | src/app/KanbanBoard.tsx:598-617 | a fast-path drop shows the dragged card's column as the array move from the card's index to the hovered card's index; the other columns keep their cards in order |
| `DropLaws.GeneralPathShown` | src/app/KanbanBoard.tsx:620-691 | a general-path drop shows the target list with the card inserted at `DropIndex`, the source column without it, and the other columns as they were |
| `DropLaws.IndicatorGap` | src/app/KanbanBoard.tsx:655-664 | within one column, a drop at gap `i` puts the card right after the cards that sat before the gap, and the gaps either side of the card leave it where it was |
| `Persistence.FastPathNotPersisted` | src/app/KanbanBoard.tsx:598-617 | dragging the first of three cards onto the third shows `b, c, a` at 1, 2, 3, yet the handler as written sends no moves, while the diff holds all three |
| `OptimisticEdits.Without` | src/app/KanbanBoard.tsx:239 | `filter((n) => n !== who)`; its own ensures give only the length bound, while `WithoutMembers` states what it keeps |
| `OptimisticEdits.WithoutMembers` | src/app/KanbanBoard.tsx:239 | the filter keeps exactly the contributors other than `who` |
| `OptimisticEdits.WithoutAbsent` | src/app/KanbanBoard.tsx:239 | filtering out an absent contributor changes nothing |
| `OptimisticEdits.Toggle` | src/app/KanbanBoard.tsx:237-240 | a present `who` is filtered out, every occurrence of it, with the others kept in order; an absent one is appended at the end |
| `OptimisticEdits.ToggleTwiceAbsent` | src/app/KanbanBoard.tsx:237-240 | adding then removing a contributor gives the list back |
| `OptimisticEdits.ToggleTwicePresent` | src/app/KanbanBoard.tsx:237-240 | removing then re-adding a contributor moves it to the end |
| `OptimisticEdits.ToggleContributor` | src/app/KanbanBoard.tsx:235-242 | only the cards with the id change, and only in their contributors, which are toggled |
| `OptimisticEdits.ToggleFlips` | src/app/KanbanBoard.tsx:235-242 | the card with the id flips whether `who` contributes, and keeps its other contributors and fields |
| `OptimisticEdits.ToggleKeepsRanks` | src/app/KanbanBoard.tsx:235-242 | a toggle keeps every id, status and position |
| `OptimisticEdits.StoredContributors` | src/app/KanbanBoard.tsx:246-250 | with no card for the id, the store is sent `[who]` |
| `OptimisticEdits.StoredMatchesOptimistic` | src/app/KanbanBoard.tsx:235-250 | the list written to the store is the one the board now shows for that card |
| `OptimisticEdits.DeleteCard` | src/app/KanbanBoard.tsx:269 | the filter keeps exactly the cards with another id |
| `OptimisticEdits.DeleteAbsent` | src/app/KanbanBoard.tsx:269 | deleting an id no card has changes nothing |
| `OptimisticEdits.DeleteIdempotent` | src/app/KanbanBoard.tsx:269 | deleting twice is deleting once |
| `OptimisticEdits.DeleteConcat` | src/app/KanbanBoard.tsx:269 | the filter keeps the order of the surviving cards |
| `KanbanBoard.Posted` | src/app/KanbanBoard.tsx:702-708 | a batch is posted exactly when it holds a move |
| `KanbanBoard.Board.constructor` | src/app/KanbanBoard.tsx:202-226 | the board starts with the loaded cards, nothing dragged, no indicator and nothing posted |
| `KanbanBoard.Board.Columns` | src/app/KanbanBoard.tsx:453-467 | a card is shown in column `s` exactly when it is on the board with status `s` |
| `KanbanBoard.Board.DragStart` | src/app/KanbanBoard.tsx:478-484 | drag start records the dragged id and changes nothing else |
| `KanbanBoard.Board.DragOver` | src/app/KanbanBoard.tsx:486-564 | the indicator is recomputed from the current cards, and cleared exactly when the drag is over nothing |
| `KanbanBoard.Board.DragEnd` | src/app/KanbanBoard.tsx:566-716 | over nothing or over the empty id, the cards and posts are kept; else the cards become the renumbered rearrangement and, with the corrected handler, its moves are posted when there are any; the ids are permuted, and the drag state is cleared either way |
| `KanbanBoard.Board.Drop` | src/app/KanbanBoard.tsx:576-710 | the cards are replaced by the updater's result, and the corrected handler's moves are posted |
| `KanbanBoard.Board.Post` | src/app/KanbanBoard.tsx:702-708 | the moves are posted when there are any, and nothing else changes |
| `KanbanBoard.Board.DragCancel` | src/app/KanbanBoard.tsx:741-744 | cancel clears the dragged id and the indicator and keeps the cards |
| `KanbanBoard.Board.ToggleContributor` | src/app/KanbanBoard.tsx:233-265 | the cards are toggled optimistically, and the store is sent the toggle of the closed-over card's list |
| `KanbanBoard.Board.DeleteCard` | src/app/KanbanBoard.tsx:267-269 | the card leaves the board at once and nothing else changes |
| `JsonValue.Truthy` | src/app/api/asks/reorder/route.ts:13 | JavaScript truthiness: `null`, `false`, `0` and `""` are falsy, everything else truthy |
| `JsonValue.TruthyOpt` | src/app/api/companies/update/route.ts:18 | an optional value is truthy when present and truthy; `undefined` is falsy |
| `AsksReorder.MovesOf` | src/app/api/asks/reorder/route.ts:8-9 | the moves are the body's `moves` when that is an array, and none otherwise (an unparsable body included) |
| `AsksReorder.ValidMove` | src/app/api/asks/reorder/route.ts:13 | a move is skipped unless its id and status are truthy and its position is a number |
| `AsksReorder.Selects` | src/app/api/asks/reorder/route.ts:17 | `.eq('id', m.id)` selects the row whose id is the move's string id |
| `AsksReorder.Written` | src/app/api/asks/reorder/route.ts:13-17 | the move at index `i` passes the check and its update is not rejected |
| `AsksReorder.LastFor` | src/app/api/asks/reorder/route.ts:12-18 | the last written move that selects the id: no later written move selects it, and none at all when it is absent |
| `AsksReorder.Applied` | src/app/api/asks/reorder/route.ts:12-18 | the table after the loop: every valid, unrejected move applied in order; no row is added or removed |
| `AsksReorder.ApplyMove` | src/app/api/asks/reorder/route.ts:14-17 | a valid move sets the status and position of the row with its id, and no other row changes; no row is added |
| `AsksReorder.AppliedAt` | src/app/api/asks/reorder/route.ts:12-18 | each row ends with the status and position of the last written move naming it (later moves win), and keeps its own when no move names it |
| `AsksReorder.Post` | src/app/api/asks/reorder/route.ts:6-21 | the loop skips invalid moves and applies the others in order, computing exactly `Applied`; the reply is always `{ ok: true }` |
| `ReorderSync.MoveJson` | src/app/KanbanBoard.tsx:699 | a move as the JSON object `{ id, status, position }` |
| `ReorderSync.Encode` | src/app/KanbanBoard.tsx:699-706 | the `moves` array, one JSON object per move, in order |
| `ReorderSync.RequestBody` | src/app/KanbanBoard.tsx:706 | the posted body `{ moves }` |
| `ReorderSync.EncodedMoves` | src/app/KanbanBoard.tsx:703-707 | the route reads back the moves the board posts, every one of them passes the route's checks, and each selects the row of its own id |
| `ReorderSync.DiffPersists` | src/app/KanbanBoard.tsx:693-708 | writing the diff to a table that mirrors `prev` leaves it mirroring `next`, with the rows of other ids untouched |
| `ReorderSync.DropPersisted` | src/app/KanbanBoard.tsx:576-709 | every drop, with the corrected handler, leaves the table mirroring the list the board shows, with other rows untouched |
| `ReorderSync.FastPathLost` | src/app/KanbanBoard.tsx:598-617 | with the handler as written, a fast-path drop leaves the table out of step with the board |
| `CompaniesUpdate.Accepted` | src/app/api/companies/update/route.ts:18 | the body passes the 400 check: a truthy `id` and a truthy `update` that is an object |
| `CompaniesUpdate.IsObject` | src/app/api/companies/update/route.ts:18 | `typeof update === "object"` for a non-null value: an object or an array |
| `CompaniesUpdate.SafeUpdate` | src/app/api/companies/update/route.ts:28-40 | a key is in the patch exactly when it is whitelisted and defined in `update`, with its value as given (`null` included) |
| `CompaniesUpdate.Whitelist` | src/app/api/companies/update/route.ts:35-40 | the five guarded copies build exactly `SafeUpdate` |
| `CompaniesUpdate.SafeUpdateWhitelisted` | src/app/api/companies/update/route.ts:28-43 | the patch's keys are whitelisted; an array or other non-object gives an empty patch; an object with only whitelisted keys is copied whole |
| `CompaniesUpdate.Post` | src/app/api/companies/update/route.ts:15-58 | a body that is not JSON, or is `null`, gets 500; no truthy id or no object `update` gets 400 "Invalid request"; a missing URL gets 500 before the key is checked; an empty patch gets 400 "No valid fields" and no write; otherwise the patch is written and the store's error maps to 500 with its message and code, else `{ ok: true }` |
| `SidebarNav.StartsWith` | src/app/SidebarNav.tsx:18 | `p.startsWith(prefix)` |
| `SidebarNav.HomeActive` | src/app/SidebarNav.tsx:14 | Home is active on `/` only |
| `SidebarNav.ActivityActive` | src/app/SidebarNav.tsx:18 | Activity is active on `/activity`, below `/activity/`, and on paths starting `/activity-detail` |
| `SidebarNav.CompaniesActive` | src/app/SidebarNav.tsx:23 | Companies is active on `/companies`, below `/companies/`, and on paths starting `/company` |
| `SidebarNav.IsActive` | src/app/SidebarNav.tsx:13-25 | the predicate of the item at index `i` of `navItems` |
| `SidebarNav.ResolvePath` | src/app/SidebarNav.tsx:30 | a missing or empty path is `/` |
| `SidebarNav.ActiveIndex` | src/app/SidebarNav.tsx:35-38 | the first item whose predicate holds, and -1 exactly when none does |
| `SidebarNav.AtMostOneActive` | src/app/SidebarNav.tsx:13-25 | no path makes two of the predicates hold |
| `SidebarNav.HighlightedIffActive` | src/app/SidebarNav.tsx:89-91 | a link is highlighted exactly when its own predicate holds |
| `SidebarNav.ActiveIndexExamples` | src/app/SidebarNav.tsx:13-25 | `/company/x` and `/companies` are Companies, `/activity-detail` and `/activity/42` are Activity, a missing or empty path is Home, and `/activityx` and `/foo` are nothing |

## Findings

| source | as written | input that shows it | evidently intended | confidence | as-written member | corrected member |
|---|---|---|---|---|---|---|
| src/app/KanbanBoard.tsx:598-617 | the same-column fast path returns the renumbered list before `moves` is computed, so no request is sent | a column holding `a, b, c` at positions 1, 2, 3; drag `a` onto `c` | post the diff `b → 1, c → 2, a → 3`, as the general path does | not executed | `ReorderSync.FastPathLost` | `ReorderSync.DropPersisted` |

The whole model uses the corrected handler. `DragEnd.MovesSent` sends the
diff of every rearrangement, `DragEnd.HandleDrop` returns it, and
`KanbanBoard.Board.DragEnd` posts it.
`DragEnd.MovesSentAsWritten` is the handler as written: it sends nothing
on the fast path. `Persistence.FastPathNotPersisted` shows the concrete
drop.

## Left out

- Supabase: the client, loading the cards (`loadCardsFromSupabase`), the realtime subscription that reloads them, and the stores behind both routes. They are I/O. The board starts from a loaded list, and a reload would only replace `cards`.
- The `fetch` call and its ignored failure. A posted batch is an entry of `Board.sent`. Network failure and reordering of requests are not modelled.
- Concurrency: a change notification or a second drop arriving while a request is in flight.
- The store writes of the contributor toggle and the delete, the reload after a failed write, and removing the linked activity rows. Only the optimistic update and the list sent are modelled.
- `addCard` and the other handlers in the component: CRUD round trips outside the reordering engine.
- DOM geometry: `getVerticalCenter`'s probing of rectangle shapes, `document.querySelector` and `getBoundingClientRect`. They become optional integer centres and a map of midpoints. Midpoints are integers, so `height / 2` is not modelled in floating point.
- dnd-kit's `pointerWithin`, `rectIntersection` and `closestCenter`. They are library calls, so they become inputs.
- JavaScript numbers: JSON numbers and positions are integers. `Number.isFinite` (src/app/KanbanBoard.tsx:662) always holds for them, so a NaN or infinite indicator index is not modelled.
- JSON is modelled as parsed values. Parsing, `JSON.stringify` and the text of the error thrown for a malformed body (the parameter `thrown`) are not modelled.
- `AsksReorder.ApplyMove`: does not model the other columns of an `asks` row. It writes only `status` and `position`, so those columns are untouched by construction.
- `AsksReorder.Selects`: only a string id selects a row. A non-string truthy id that Postgres would cast is not modelled, because every id the board sends is a string.
- The store rejecting an update, for example a status outside the enum, is the parameter `failed` of `AsksReorder.Applied`. Its answer is otherwise ignored, as in the route.
- `ReorderSync.DropPersisted`: assumes no update is rejected, unique non-empty card ids, and a table that mirrors the board before the drop.
- `CompaniesUpdate.Post`: does not model the `createClient` call or an exception raised by the store. The store's answer is a parameter, and the row the update targets is not modelled.
- `DragEnd.HandleDrop`: returns the diff of a fast-path drop as its moves, as the corrected handler does; the handler as written returns at src/app/KanbanBoard.tsx:617 before computing it (see ## Findings and `DragEnd.MovesSentAsWritten`).
- `KanbanBoard.Board.Drop`: posts the corrected handler's moves, so a fast-path drop posts its diff; the component as written posts nothing for it (see ## Findings).
- `KanbanBoard.Board.DragEnd`: posts through `Drop`, so it too posts the diff of a fast-path drop, which the component as written never sends.
- `KanbanBoard.Board.ToggleContributor`: applies the functional updater to the same `cards` the closure reads, so the updater's `prev` is taken to be the render's `cards`; React may hand the updater a newer list than the closure saw, and that interleaving is not modelled.
- `DragOver.InsertionIndex`: its own contract states only the clamping bound. The index itself is stated by `DragOver.OverCardIndex`, `DragOver.OverUnknownCard` and `DragOver.OverColumnIndex`.
- Rendering: the JSX, styling, the drag overlay and the sidebar's highlight rectangle and its resize handling.
