/**
 * `handleDragEndDnd`: the rearrangement of the columns when a card is
 * dropped, the renumbering of every column and the moves sent to the
 * reorder route. `Date.now()` is the parameter `now`, and the drop
 * indicator the handler reads from its closure is the parameter `indicator`.
 */
module DragEnd {
  import opened Wrappers
  import opened Cards
  import opened RankModel
  import opened Splice
  import opened DragOver
  import opened Reconciler

  /**
   * What the drop does to the columns: nothing (the handler returns `prev`),
   * or new columns holding `moved`, the dropped card with its new status
   * and timestamp; `fastPath` tells the same-column fast path apart.
   */
  datatype Outcome = Unchanged | Rearranged(cols: Columns, moved: Card, fastPath: bool)

  /** The target column: the container's key, else the hovered card's column, else the dragged card's own. */
  function TargetStatus(prev: seq<Card>, overId: string, moving: Card): (r: StatusKey)
    ensures IsStatusKey(overId) ==> r == StatusOf(overId).value
    ensures !IsStatusKey(overId) && FindCard(prev, overId).Some? ==> r == FindCard(prev, overId).value.status
    ensures !IsStatusKey(overId) && FindCard(prev, overId).None? ==> r == moving.status
  {
    match StatusOf(overId)
    case Some(s) => s
    case None =>
      match FindCard(prev, overId)
      case Some(c) => c.status
      case None => moving.status
  }

  /** The fast path: a drop over another card of the dragged card's own column. */
  predicate FastPath(overId: string, activeId: CardId, target: StatusKey, moving: Card)
  {
    !IsStatusKey(overId) && target == moving.status && overId != activeId
  }

  /** Whether the general path takes its index from the drop indicator. */
  predicate UsesIndicator(indicator: Option<DropIndicator>, target: StatusKey)
  {
    indicator.Some? && indicator.value.status == Some(target)
  }

  /**
   * `targetIndex` of the general path: the indicator's index when its
   * column is the target, else the end of the column for a column drop, else
   * the hovered card's index (the end when it is not in the list); one less
   * for a same-column drop past the removed card's old place, since the
   * indicator counted the dragged card; then clamped to the list.
   */
  function DropIndex(indicator: Option<DropIndicator>, target: StatusKey, overId: string,
                     targetList: seq<Card>, sameColumn: bool, sourceIndex: int): (r: int)
    ensures 0 <= r <= |targetList|
    ensures !sameColumn && UsesIndicator(indicator, target) && 0 <= indicator.value.index <= |targetList| ==>
      r == indicator.value.index
    ensures !UsesIndicator(indicator, target) && IsStatusKey(overId) ==> r == |targetList|
    ensures !UsesIndicator(indicator, target) && !IsStatusKey(overId) ==>
      r == if FindIndex(targetList, overId) >= 0 then FindIndex(targetList, overId) else |targetList|
  {
    var used := UsesIndicator(indicator, target);
    var raw :=
      if used then indicator.value.index
      else if IsStatusKey(overId) then |targetList|
      else
        var k := FindIndex(targetList, overId);
        if k >= 0 then k else |targetList|;
    var shifted := if sameColumn && used && raw > sourceIndex then raw - 1 else raw;
    Clamp(shifted, |targetList|)
  }

  /** The rearrangement, on the columns `byStatus` built from `prev`. */
  function RearrangeColumns(byStatus: Columns, prev: seq<Card>, activeId: CardId, overId: string,
                            indicator: Option<DropIndicator>, now: int): Outcome
  {
    match FindCard(prev, activeId)
    case None => Unchanged
    case Some(moving) =>
      var target := TargetStatus(prev, overId, moving);
      if FastPath(overId, activeId, target, moving) then
        var full := byStatus.Col(moving.status);
        var from := FindIndex(full, moving.id);
        var to := FindIndex(full, overId);
        if from == -1 || to == -1 then Unchanged
        else
          var moved := full[from].(updatedAt := now);
          Rearranged(byStatus.With(moving.status, ArrayMove(full, from, to, moved)), moved, true)
      else
        var source := byStatus.Col(moving.status);
        var sourceIndex := FindIndex(source, moving.id);
        if sourceIndex == -1 then Unchanged
        else
          var removed := byStatus.With(moving.status, RemoveAt(source, sourceIndex));
          var targetList := removed.Col(target);
          var index := DropIndex(indicator, target, overId, targetList, moving.status == target, sourceIndex);
          var moved := moving.(status := target, updatedAt := now);
          Rearranged(removed.With(target, InsertAt(targetList, index, moved)), moved, false)
  }

  /** The rearrangement the drop handler computes from `prev`. */
  function Rearrange(prev: seq<Card>, activeId: CardId, overId: string,
                     indicator: Option<DropIndicator>, now: int): Outcome
  {
    RearrangeColumns(Partition(prev), prev, activeId, overId, indicator, now)
  }

  /** The card list the handler returns to `setCards`. */
  function NextCards(prev: seq<Card>, o: Outcome): seq<Card>
  {
    match o
    case Unchanged => prev
    case Rearranged(cols, _, _) => Renumbered(cols)
  }

  /** The moves sent for a drop: the diff of every rearrangement, nothing for an unchanged list. */
  function MovesSent(prev: seq<Card>, o: Outcome): seq<Move>
  {
    if o.Rearranged? then Diff(prev, Renumbered(o.cols)) else []
  }

  /** The moves the handler as written sends: the fast path returns before the diff is taken. */
  function MovesSentAsWritten(prev: seq<Card>, o: Outcome): seq<Move>
  {
    if o.Rearranged? && !o.fastPath then Diff(prev, Renumbered(o.cols)) else []
  }

  /** `targetIndex` of the general path, with its adjustments and clamping. */
  method ComputeDropIndex(indicator: Option<DropIndicator>, target: StatusKey, overId: string,
                          targetList: seq<Card>, sameColumn: bool, sourceIndex: int) returns (targetIndex: int)
    ensures targetIndex == DropIndex(indicator, target, overId, targetList, sameColumn, sourceIndex)
  {
    var usedIndicator := false;
    if indicator.Some? && indicator.value.status == Some(target) {
      targetIndex := indicator.value.index;
      usedIndicator := true;
    } else if IsStatusKey(overId) {
      targetIndex := |targetList|;
    } else {
      var overIndex := FindIndex(targetList, overId);
      targetIndex := if overIndex >= 0 then overIndex else |targetList|;
    }
    if sameColumn && usedIndicator {
      if targetIndex > sourceIndex {
        targetIndex := targetIndex - 1;
      }
    }
    if targetIndex < 0 {
      targetIndex := 0;
    }
    if targetIndex > |targetList| {
      targetIndex := |targetList|;
    }
  }

  /** The fast path of `handleDragEndDnd`: `splice` out of the column and back in at the hovered card's index. */
  method FastPathStep(byStatus: Columns, moving: Card, overId: string, now: int) returns (o: Outcome)
    ensures var full := byStatus.Col(moving.status);
      var from := FindIndex(full, moving.id);
      var to := FindIndex(full, overId);
      o == if from == -1 || to == -1 then Unchanged
           else Rearranged(byStatus.With(moving.status, ArrayMove(full, from, to, full[from].(updatedAt := now))),
                           full[from].(updatedAt := now), true)
  {
    var fullList := byStatus.Col(moving.status);
    var fromIndex := FindIndex(fullList, moving.id);
    var toIndex := FindIndex(fullList, overId);
    if fromIndex == -1 || toIndex == -1 {
      return Unchanged;
    }
    var removed := fullList[fromIndex];
    fullList := RemoveAt(fullList, fromIndex);
    fullList := InsertAt(fullList, toIndex, removed.(updatedAt := now));
    o := Rearranged(byStatus.With(moving.status, fullList), removed.(updatedAt := now), true);
  }

  /** The general path of `handleDragEndDnd`: out of the source list, into the target list. */
  method GeneralPathStep(byStatus: Columns, moving: Card, targetStatus: StatusKey, overId: string, activeId: CardId,
                         indicator: Option<DropIndicator>, now: int) returns (o: Outcome)
    requires !(!IsStatusKey(overId) && targetStatus == moving.status && overId != activeId)
    ensures var source := byStatus.Col(moving.status);
      var sourceIndex := FindIndex(source, moving.id);
      o == if sourceIndex == -1 then Unchanged
           else
             var removed := byStatus.With(moving.status, RemoveAt(source, sourceIndex));
             var targetList := removed.Col(targetStatus);
             var index := DropIndex(indicator, targetStatus, overId, targetList, moving.status == targetStatus, sourceIndex);
             var moved := moving.(status := targetStatus, updatedAt := now);
             Rearranged(removed.With(targetStatus, InsertAt(targetList, index, moved)), moved, false)
  {
    var sourceList := byStatus.Col(moving.status);
    var sourceIndex := FindIndex(sourceList, moving.id);
    if sourceIndex == -1 {
      return Unchanged;
    }
    sourceList := RemoveAt(sourceList, sourceIndex);
    var columns := byStatus.With(moving.status, sourceList);
    var targetList := if moving.status == targetStatus then sourceList else columns.Col(targetStatus);
    var moved := moving.(status := targetStatus, updatedAt := now);
    if moving.status == targetStatus && !IsStatusKey(overId) && overId != activeId {
      // The fast path's own condition: that drop has returned already.
      assert false;
    } else {
      var targetIndex := ComputeDropIndex(indicator, targetStatus, overId, targetList, moving.status == targetStatus, sourceIndex);
      targetList := InsertAt(targetList, targetIndex, moved);
    }
    o := Rearranged(columns.With(targetStatus, targetList), moved, false);
  }

  /**
   * The rearrangement step of `handleDragEndDnd` on the sorted columns
   * `byStatus`: the dragged card, the target column, then one of the paths.
   */
  method RearrangeStep(byStatus: Columns, prev: seq<Card>, activeId: CardId, overId: string,
                       indicator: Option<DropIndicator>, now: int) returns (o: Outcome)
    ensures o == RearrangeColumns(byStatus, prev, activeId, overId, indicator, now)
  {
    var found := FindCard(prev, activeId);
    if found.None? {
      return Unchanged;
    }
    var moving := found.value;
    var targetStatus := TargetStatus(prev, overId, moving);
    if !IsStatusKey(overId) && targetStatus == moving.status && overId != activeId {
      o := FastPathStep(byStatus, moving, overId, now);
    } else {
      o := GeneralPathStep(byStatus, moving, targetStatus, overId, activeId, indicator, now);
    }
  }

  /**
   * `handleDragEndDnd` once the drop is over something: the sorted columns,
   * the rearrangement, the renumbered list and the moves for it.
   */
  method HandleDrop(prev: seq<Card>, activeId: CardId, overId: string,
                    indicator: Option<DropIndicator>, now: int) returns (next: seq<Card>, moves: seq<Move>)
    ensures next == NextCards(prev, Rearrange(prev, activeId, overId, indicator, now))
    ensures moves == MovesSent(prev, Rearrange(prev, activeId, overId, indicator, now))
  {
    var byStatus := CardsByStatus(prev);
    var o := RearrangeStep(byStatus, prev, activeId, overId, indicator, now);
    if o.Unchanged? {
      return prev, [];
    }
    next := RenumberAll(o.cols);
    moves := ComputeMoves(prev, next);
  }
}
