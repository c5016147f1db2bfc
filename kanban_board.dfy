/**
 * The board component's state and its event handlers: the card list, the
 * id of the dragged card, the live drop indicator, and the batches of
 * moves posted to the reorder route (the `fetch` calls, kept in order).
 */
module KanbanBoard {
  import opened Wrappers
  import opened Cards
  import opened RankModel
  import opened DragOver
  import opened Reconciler
  import opened DragEnd
  import opened DropLaws
  import opened OptimisticEdits

  /** The batches posted after one more drop: a batch is posted only when it holds a move. */
  function Posted(sent: seq<seq<Move>>, moves: seq<Move>): (r: seq<seq<Move>>)
    ensures |moves| > 0 ==> r == sent + [moves]
    ensures |moves| == 0 ==> r == sent
  {
    if |moves| > 0 then sent + [moves] else sent
  }

  class Board {
    var cards: seq<Card>
    var activeId: Option<CardId>
    var dropIndicator: Option<DropIndicator>
    /** Every `moves` batch posted to the reorder route, oldest first. */
    var sent: seq<seq<Move>>

    /** The board once the cards are loaded; nothing is being dragged. */
    constructor (loaded: seq<Card>)
      ensures cards == loaded && activeId == None && dropIndicator == None && sent == []
    {
      cards := loaded;
      activeId := None;
      dropIndicator := None;
      sent := [];
    }

    /** `cardsByStatus`: the columns the board renders. */
    function Columns(): (r: RankModel.Columns)
      reads this
      ensures forall s, c :: c in r.Col(s) <==> c in cards && c.status == s
    {
      PartitionColumns(cards);
      Partition(cards)
    }

    /** `handleDragStartDnd`: only the dragged card's id is recorded. */
    method DragStart(id: CardId)
      modifies this
      ensures activeId == Some(id)
      ensures cards == old(cards) && dropIndicator == old(dropIndicator) && sent == old(sent)
    {
      activeId := Some(id);
    }

    /** `handleDragOver`: the indicator is recomputed from the current cards, or cleared when over nothing. */
    method DragOver(overId: Option<string>, activeIdLocal: CardId,
                    activeCenter: Option<int>, overMiddle: Option<int>, mids: map<CardId, int>)
      modifies this
      ensures dropIndicator == Indicator(cards, overId, activeIdLocal, activeCenter, overMiddle, mids)
      ensures dropIndicator.None? <==> overId.None?
      ensures cards == old(cards) && activeId == old(activeId) && sent == old(sent)
    {
      dropIndicator := ComputeIndicator(cards, overId, activeIdLocal, activeCenter, overMiddle, mids);
    }

    /**
     * `handleDragEndDnd`: over nothing (no target, or the falsy empty id),
     * only the drag state is cleared; otherwise the cards become the
     * renumbered rearrangement, the moves are posted when there are any, and
     * the drag state is cleared.
     */
    method DragEnd(activeIdLocal: CardId, overId: Option<string>, now: int)
      modifies this
      ensures (overId.None? || overId == Some("")) ==> cards == old(cards) && sent == old(sent)
      ensures overId.Some? && overId.value != "" ==>
        var o := Rearrange(old(cards), activeIdLocal, overId.value, old(dropIndicator), now);
        && cards == NextCards(old(cards), o)
        && sent == Posted(old(sent), MovesSent(old(cards), o))
      ensures multiset(Ids(cards)) == multiset(Ids(old(cards)))
      ensures activeId == None && dropIndicator == None
    {
      if overId.Some? && overId.value != "" {
        Drop(activeIdLocal, overId.value, now);
      }
      DragCancel();
    }

    /** The drop over `overId`: the cards are replaced and the moves posted. */
    method Drop(activeIdLocal: CardId, overId: string, now: int)
      modifies this
      ensures var o := Rearrange(old(cards), activeIdLocal, overId, old(dropIndicator), now);
        && cards == NextCards(old(cards), o)
        && sent == Posted(old(sent), MovesSent(old(cards), o))
      ensures multiset(Ids(cards)) == multiset(Ids(old(cards)))
      ensures activeId == old(activeId) && dropIndicator == old(dropIndicator)
    {
      var prev, indicator := cards, dropIndicator;
      DropPermutesIds(prev, activeIdLocal, overId, indicator, now);
      var next, moves := HandleDrop(prev, activeIdLocal, overId, indicator, now);
      Post(moves);
      cards := next;
    }

    /** `if (moves.length > 0) fetch('/api/asks/reorder', ...)`. */
    method Post(moves: seq<Move>)
      modifies this
      ensures sent == Posted(old(sent), moves)
      ensures cards == old(cards) && activeId == old(activeId) && dropIndicator == old(dropIndicator)
    {
      if |moves| > 0 {
        sent := sent + [moves];
      }
    }

    /** `onDragCancel`: the drag state is cleared, the cards are kept. */
    method DragCancel()
      modifies this
      ensures activeId == None && dropIndicator == None
      ensures cards == old(cards) && sent == old(sent)
    {
      activeId := None;
      dropIndicator := None;
    }

    /**
     * `handleToggleContributor`: the optimistic update of the cards, and the
     * contributor list written to the store, computed from the cards the
     * handler was created with.
     */
    method ToggleContributor(id: CardId, who: Contributor) returns (stored: seq<Contributor>)
      modifies this
      ensures cards == OptimisticEdits.ToggleContributor(old(cards), id, who)
      ensures stored == StoredContributors(old(cards), id, who)
      ensures Ids(cards) == Ids(old(cards))
      ensures activeId == old(activeId) && dropIndicator == old(dropIndicator) && sent == old(sent)
    {
      var current := cards;
      ToggleKeepsRanks(current, id, who);
      cards := OptimisticEdits.ToggleContributor(current, id, who);
      var found := FindCard(current, id);
      var currentList := if found.Some? then found.value.contributors else [];
      stored := if who in currentList then Without(currentList, who) else currentList + [who];
    }

    /** `handleDeleteCard`: the card leaves the board before the store is asked to delete it. */
    method DeleteCard(id: CardId)
      modifies this
      ensures cards == OptimisticEdits.DeleteCard(old(cards), id)
      ensures forall c :: c in cards <==> c in old(cards) && c.id != id
      ensures activeId == old(activeId) && dropIndicator == old(dropIndicator) && sent == old(sent)
    {
      cards := OptimisticEdits.DeleteCard(cards, id);
    }
  }
}
