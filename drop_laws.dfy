/**
 * What a drop guarantees: when it leaves the list alone, that the card set
 * is kept, that only the dropped card changes besides the positions, that
 * every column is dense afterwards, and where the dropped card lands.
 */
module DropLaws {
  import opened Wrappers
  import opened Cards
  import opened RankModel
  import opened Splice
  import opened DragOver
  import opened DragEnd

  /** Every card of a column is a card of `prev` with that column's status. */
  predicate ColumnsFrom(byStatus: Columns, prev: seq<Card>)
  {
    forall s, d :: d in byStatus.Col(s) ==> d in prev && d.status == s
  }

  /** Every card of `prev` is in the column of its status. */
  predicate ColumnsHold(byStatus: Columns, prev: seq<Card>)
  {
    forall c :: c in prev ==> c in byStatus.Col(c.status)
  }

  lemma PartitionColumns(prev: seq<Card>)
    ensures ColumnsFrom(Partition(prev), prev)
    ensures ColumnsHold(Partition(prev), prev)
  {
    forall s, d | d in Partition(prev).Col(s)
      ensures d in prev && d.status == s
    {
      PartitionPlacesEveryCard(prev, d, s);
    }
    forall c | c in prev
      ensures c in Partition(prev).Col(c.status)
    {
      PartitionPlacesEveryCard(prev, c, c.status);
    }
  }

  /** The dragged card is found in the list of its own column. */
  lemma MovingInItsColumn(byStatus: Columns, prev: seq<Card>, activeId: CardId)
    requires ColumnsHold(byStatus, prev) && FindCard(prev, activeId).Some?
    ensures FindIndex(byStatus.Col(FindCard(prev, activeId).value.status), activeId) >= 0
  {
    var moving := FindCard(prev, activeId).value;
    assert moving in byStatus.Col(moving.status);
  }

  /** On the fast path the hovered id is found in the column exactly when it is a card's id. */
  lemma FastPathFindsOver(byStatus: Columns, prev: seq<Card>, activeId: CardId, overId: string, moving: Card)
    requires ColumnsFrom(byStatus, prev) && ColumnsHold(byStatus, prev)
    requires FastPath(overId, activeId, TargetStatus(prev, overId, moving), moving)
    ensures FindIndex(byStatus.Col(moving.status), overId) == -1 <==> FindCard(prev, overId).None?
  {
    var full := byStatus.Col(moving.status);
    if FindCard(prev, overId).Some? {
      var over := FindCard(prev, overId).value;
      assert over in full;
    } else {
      forall c | c in full
        ensures c.id != overId
      {
        assert c in prev;
      }
    }
  }

  /**
   * The drop leaves the list alone exactly when the dragged card is not in
   * it, or when the drop is over an id that is neither a column nor a card.
   */
  lemma UnchangedColumns(byStatus: Columns, prev: seq<Card>, activeId: CardId, overId: string,
                         indicator: Option<DropIndicator>, now: int)
    requires ColumnsFrom(byStatus, prev) && ColumnsHold(byStatus, prev)
    ensures RearrangeColumns(byStatus, prev, activeId, overId, indicator, now).Unchanged? <==>
      FindCard(prev, activeId).None? || (!IsStatusKey(overId) && overId != activeId && FindCard(prev, overId).None?)
  {
    if FindCard(prev, activeId).Some? {
      var moving := FindCard(prev, activeId).value;
      MovingInItsColumn(byStatus, prev, activeId);
      var target := TargetStatus(prev, overId, moving);
      if FastPath(overId, activeId, target, moving) {
        FastPathFindsOver(byStatus, prev, activeId, overId, moving);
      }
    }
  }

  /** Every card of the new columns carries that column's status and is a card of `prev` or the moved card. */
  predicate SourcedFrom(cols: Columns, prev: seq<Card>, moved: Card)
  {
    forall s, d :: d in cols.Col(s) ==> d.status == s && (d in prev || d == moved)
  }

  /** The moved card is a card of `prev` holding the dragged id, with a new status and timestamp and nothing else changed. */
  predicate MovedFrom(moved: Card, prev: seq<Card>, activeId: CardId, now: int)
  {
    moved.id == activeId && moved.updatedAt == now &&
    exists c :: c in prev && c.id == activeId && moved == c.(status := moved.status, updatedAt := now)
  }

  /** Replacing one column keeps the others sourced from `prev`; the new one must be sourced itself. */
  lemma WithSourced(cols: Columns, prev: seq<Card>, moved: Card, s: StatusKey, list: seq<Card>)
    requires forall t, d :: t != s && d in cols.Col(t) ==> d.status == t && d in prev
    requires forall d :: d in list ==> d.status == s && (d in prev || d == moved)
    ensures SourcedFrom(cols.With(s, list), prev, moved)
  {
  }

  /** The cards of a column after an array move are those before it, the moved card in place of the old one. */
  lemma ArrayMoveMembers(full: seq<Card>, from: int, to: int, moved: Card, d: Card)
    requires 0 <= from < |full| && 0 <= to < |full|
    requires d in ArrayMove(full, from, to, moved)
    ensures d in full || d == moved
  {
    var list := ArrayMove(full, from, to, moved);
    InsertRemoved(list, to);
    InInsertAt(RemoveAt(list, to), to, moved, d);
    if d != moved {
      InRemoveAt(full, from, d);
    }
  }

  /** The fast path, on its own terms: the column of the dragged card with the card moved to the hovered card's place. */
  lemma FastPathSourced(byStatus: Columns, prev: seq<Card>, st: StatusKey, from: int, to: int, now: int)
    requires ColumnsFrom(byStatus, prev)
    requires 0 <= from < |byStatus.Col(st)| && 0 <= to < |byStatus.Col(st)|
    ensures var full := byStatus.Col(st);
      var moved := full[from].(updatedAt := now);
      && SourcedFrom(byStatus.With(st, ArrayMove(full, from, to, moved)), prev, moved)
      && full[from] in prev && moved == full[from].(status := moved.status, updatedAt := now)
      && moved in byStatus.With(st, ArrayMove(full, from, to, moved)).Col(moved.status)
  {
    var full := byStatus.Col(st);
    var moved := full[from].(updatedAt := now);
    var list := ArrayMove(full, from, to, moved);
    assert full[from] in full;
    forall d | d in list
      ensures d.status == st && (d in prev || d == moved)
    {
      ArrayMoveMembers(full, from, to, moved, d);
    }
    WithSourced(byStatus, prev, moved, st, list);
    assert list[to] == moved;
  }

  /** The general path, on its own terms: the card taken out of its column and inserted into the target list. */
  lemma GeneralPathSourced(byStatus: Columns, prev: seq<Card>, moving: Card, target: StatusKey,
                           sourceIndex: int, index: int, now: int)
    requires ColumnsFrom(byStatus, prev)
    requires 0 <= sourceIndex < |byStatus.Col(moving.status)|
    requires var removed := byStatus.With(moving.status, RemoveAt(byStatus.Col(moving.status), sourceIndex));
      0 <= index <= |removed.Col(target)|
    ensures var removed := byStatus.With(moving.status, RemoveAt(byStatus.Col(moving.status), sourceIndex));
      var moved := moving.(status := target, updatedAt := now);
      var cols := removed.With(target, InsertAt(removed.Col(target), index, moved));
      SourcedFrom(cols, prev, moved) && moved in cols.Col(target)
  {
    var source := byStatus.Col(moving.status);
    var removed := byStatus.With(moving.status, RemoveAt(source, sourceIndex));
    var moved := moving.(status := target, updatedAt := now);
    var targetList := removed.Col(target);
    var list := InsertAt(targetList, index, moved);
    forall t, d | d in removed.Col(t)
      ensures d.status == t && d in prev
    {
      if t == moving.status {
        InRemoveAt(source, sourceIndex, d);
      }
    }
    forall d | d in list
      ensures d.status == target && (d in prev || d == moved)
    {
      InInsertAt(targetList, index, moved, d);
    }
    WithSourced(removed, prev, moved, target, list);
    assert list[index] == moved;
  }

  /**
   * Every card of the new columns carries its column's status and is a card
   * of `prev` or the dropped card, and the dropped card is the dragged card
   * of `prev` with the new status and timestamp, found in its new column.
   */
  lemma RearrangedSourced(byStatus: Columns, prev: seq<Card>, activeId: CardId, overId: string,
                          indicator: Option<DropIndicator>, now: int)
    requires ColumnsFrom(byStatus, prev)
    requires RearrangeColumns(byStatus, prev, activeId, overId, indicator, now).Rearranged?
    ensures var o := RearrangeColumns(byStatus, prev, activeId, overId, indicator, now);
      SourcedFrom(o.cols, prev, o.moved) && MovedFrom(o.moved, prev, activeId, now) && o.moved in o.cols.Col(o.moved.status)
  {
    var moving := FindCard(prev, activeId).value;
    var target := TargetStatus(prev, overId, moving);
    if FastPath(overId, activeId, target, moving) {
      var full := byStatus.Col(moving.status);
      var from := FindIndex(full, moving.id);
      var to := FindIndex(full, overId);
      FastPathSourced(byStatus, prev, moving.status, from, to, now);
    } else {
      var source := byStatus.Col(moving.status);
      var sourceIndex := FindIndex(source, moving.id);
      var removed := byStatus.With(moving.status, RemoveAt(source, sourceIndex));
      var index := DropIndex(indicator, target, overId, removed.Col(target), moving.status == target, sourceIndex);
      GeneralPathSourced(byStatus, prev, moving, target, sourceIndex, index, now);
      assert moving in prev;
    }
  }

  /** The ids held by the four columns, as a multiset. */
  function IdBag(cols: Columns): multiset<CardId>
  {
    multiset(Ids(cols.Col(Unassigned))) + multiset(Ids(cols.Col(InProgress)))
      + multiset(Ids(cols.Col(Done))) + multiset(Ids(cols.Col(Blocked)))
  }

  lemma FlattenIdBag(cols: Columns)
    ensures multiset(Ids(cols.Flatten())) == IdBag(cols)
  {
    var u, ip, d, b := cols.Col(Unassigned), cols.Col(InProgress), cols.Col(Done), cols.Col(Blocked);
    IdsConcat(u, ip);
    IdsConcat(u + ip, d);
    IdsConcat(u + ip + d, b);
  }

  /** Replacing a column trades its ids for those of the new list. */
  lemma WithIdBag(cols: Columns, s: StatusKey, list: seq<Card>)
    ensures IdBag(cols.With(s, list)) + multiset(Ids(cols.Col(s))) == IdBag(cols) + multiset(Ids(list))
  {
  }

  /** Taking a card out of a list takes its id out of the list's ids. */
  lemma RemoveAtIds(list: seq<Card>, i: int)
    requires 0 <= i < |list|
    ensures multiset(Ids(RemoveAt(list, i))) + multiset{list[i].id} == multiset(Ids(list))
  {
    IdsRemoveAt(list, i);
    RemoveAtMultiset(Ids(list), i);
  }

  /** Putting a card into a list puts its id into the list's ids. */
  lemma InsertAtIds(list: seq<Card>, i: int, x: Card)
    requires 0 <= i <= |list|
    ensures multiset(Ids(InsertAt(list, i, x))) == multiset(Ids(list)) + multiset{x.id}
  {
    IdsInsertAt(list, i, x);
    InsertAtMultiset(Ids(list), i, x.id);
  }

  /** An array move that puts back a card with the same id keeps the list's ids. */
  lemma ArrayMoveIds(full: seq<Card>, from: int, to: int, moved: Card)
    requires 0 <= from < |full| && 0 <= to < |full| && moved.id == full[from].id
    ensures multiset(Ids(ArrayMove(full, from, to, moved))) == multiset(Ids(full))
  {
    var list := ArrayMove(full, from, to, moved);
    RemoveAtIds(list, to);
    RemoveAtIds(full, from);
  }

  /** The fast path keeps the ids of the columns. */
  lemma FastPathIds(byStatus: Columns, st: StatusKey, from: int, to: int, now: int)
    requires 0 <= from < |byStatus.Col(st)| && 0 <= to < |byStatus.Col(st)|
    ensures var full := byStatus.Col(st);
      IdBag(byStatus.With(st, ArrayMove(full, from, to, full[from].(updatedAt := now)))) == IdBag(byStatus)
  {
    var full := byStatus.Col(st);
    var moved := full[from].(updatedAt := now);
    ArrayMoveIds(full, from, to, moved);
    WithIdBag(byStatus, st, ArrayMove(full, from, to, moved));
  }

  /** The general path keeps the ids of the columns. */
  lemma GeneralPathIds(byStatus: Columns, moving: Card, target: StatusKey, sourceIndex: int, index: int, now: int)
    requires 0 <= sourceIndex < |byStatus.Col(moving.status)|
    requires byStatus.Col(moving.status)[sourceIndex].id == moving.id
    requires var removed := byStatus.With(moving.status, RemoveAt(byStatus.Col(moving.status), sourceIndex));
      0 <= index <= |removed.Col(target)|
    ensures var removed := byStatus.With(moving.status, RemoveAt(byStatus.Col(moving.status), sourceIndex));
      var moved := moving.(status := target, updatedAt := now);
      IdBag(removed.With(target, InsertAt(removed.Col(target), index, moved))) == IdBag(byStatus)
  {
    var source := byStatus.Col(moving.status);
    var removed := byStatus.With(moving.status, RemoveAt(source, sourceIndex));
    var targetList := removed.Col(target);
    var moved := moving.(status := target, updatedAt := now);
    RemoveAtIds(source, sourceIndex);
    WithIdBag(byStatus, moving.status, RemoveAt(source, sourceIndex));
    InsertAtIds(targetList, index, moved);
    WithIdBag(removed, target, InsertAt(targetList, index, moved));
  }

  /** A rearrangement keeps the ids of the columns it started from. */
  lemma RearrangedIdBag(byStatus: Columns, prev: seq<Card>, activeId: CardId, overId: string,
                        indicator: Option<DropIndicator>, now: int)
    requires RearrangeColumns(byStatus, prev, activeId, overId, indicator, now).Rearranged?
    ensures IdBag(RearrangeColumns(byStatus, prev, activeId, overId, indicator, now).cols) == IdBag(byStatus)
  {
    var moving := FindCard(prev, activeId).value;
    var target := TargetStatus(prev, overId, moving);
    if FastPath(overId, activeId, target, moving) {
      var full := byStatus.Col(moving.status);
      FastPathIds(byStatus, moving.status, FindIndex(full, moving.id), FindIndex(full, overId), now);
    } else {
      var source := byStatus.Col(moving.status);
      var sourceIndex := FindIndex(source, moving.id);
      var removed := byStatus.With(moving.status, RemoveAt(source, sourceIndex));
      var index := DropIndex(indicator, target, overId, removed.Col(target), moving.status == target, sourceIndex);
      GeneralPathIds(byStatus, moving, target, sourceIndex, index, now);
    }
  }

  /** A drop keeps the set of cards: the new list's ids are a permutation of the old list's. */
  lemma DropPermutesIds(prev: seq<Card>, activeId: CardId, overId: string,
                        indicator: Option<DropIndicator>, now: int)
    ensures multiset(Ids(NextCards(prev, Rearrange(prev, activeId, overId, indicator, now)))) == multiset(Ids(prev))
  {
    var o := Rearrange(prev, activeId, overId, indicator, now);
    if o.Rearranged? {
      RearrangedIdBag(Partition(prev), prev, activeId, overId, indicator, now);
      RenumberedIds(o.cols);
      FlattenIdBag(o.cols);
      FlattenIdBag(Partition(prev));
      PartitionIsPermutation(prev);
      PermutedIds(Partition(prev).Flatten(), prev);
    }
  }

  /** After a drop that changes the list, every column is numbered `1..n` and no two cards share a rank. */
  lemma DropIsDense(prev: seq<Card>, activeId: CardId, overId: string,
                    indicator: Option<DropIndicator>, now: int)
    requires Rearrange(prev, activeId, overId, indicator, now).Rearranged?
    ensures var next := NextCards(prev, Rearrange(prev, activeId, overId, indicator, now));
      (forall s :: DenseColumn(s, Column(next, s))) && UniqueRanks(next)
  {
    RenumberedIsDense(Rearrange(prev, activeId, overId, indicator, now).cols);
  }

  /** `x` is `c` with a new position, or, for the dragged card, with a new status, position and timestamp. */
  predicate RankedOrMoved(c: Card, x: Card, activeId: CardId, now: int)
  {
    x == c.(position := x.position) ||
    (c.id == activeId && x == c.(status := x.status, position := x.position, updatedAt := now))
  }

  /**
   * Besides positions, a drop changes only the dropped card: every card of
   * the new list is a card of `prev` with a new position, or the dragged
   * card with a new status, position and timestamp.
   */
  lemma OnlyMovedCardChanges(prev: seq<Card>, activeId: CardId, overId: string,
                             indicator: Option<DropIndicator>, now: int, x: Card)
    requires x in NextCards(prev, Rearrange(prev, activeId, overId, indicator, now))
    ensures exists c :: c in prev && RankedOrMoved(c, x, activeId, now)
  {
    var o := Rearrange(prev, activeId, overId, indicator, now);
    if o.Unchanged? {
      assert x == x.(position := x.position);
    } else {
      PartitionColumns(prev);
      RearrangedSourced(Partition(prev), prev, activeId, overId, indicator, now);
      InRenumbered(o.cols, x);
      var s, d :| d in o.cols.Col(s) && x == d.(status := s, position := x.position);
      if d in prev {
        assert x == d.(position := x.position);
      } else {
        assert d == o.moved;
        var c :| c in prev && c.id == activeId && o.moved == c.(status := o.moved.status, updatedAt := now);
        assert x == c.(status := x.status, position := x.position, updatedAt := now);
      }
    }
  }

  /** The board shows each renumbered column with the ids of the column it was renumbered from. */
  lemma ShownIds(cols: Columns, s: StatusKey)
    ensures Ids(Partition(Renumbered(cols)).Col(s)) == Ids(cols.Col(s))
  {
    RenumberedColumn(cols, s);
    var r := Renumber(s, cols.Col(s));
    forall i | 0 <= i < |r|
      ensures r[i].id == cols.Col(s)[i].id
    {
      assert r[i].(status := cols.Col(s)[i].status, position := cols.Col(s)[i].position) == cols.Col(s)[i];
    }
  }

  /** An array move within one column, as the board then shows it. */
  lemma ArrayMoveShown(byStatus: Columns, st: StatusKey, from: int, to: int, moved: Card)
    requires 0 <= from < |byStatus.Col(st)| && 0 <= to < |byStatus.Col(st)|
    ensures var full := byStatus.Col(st);
      var cols := byStatus.With(st, ArrayMove(full, from, to, moved));
      && Ids(Partition(Renumbered(cols)).Col(st)) == InsertAt(RemoveAt(Ids(full), from), to, moved.id)
      && forall t :: t != st ==> Ids(Partition(Renumbered(cols)).Col(t)) == Ids(byStatus.Col(t))
  {
    var full := byStatus.Col(st);
    var cols := byStatus.With(st, ArrayMove(full, from, to, moved));
    ShownIds(cols, st);
    IdsRemoveAt(full, from);
    IdsInsertAt(RemoveAt(full, from), to, moved);
    forall t | t != st
      ensures Ids(Partition(Renumbered(cols)).Col(t)) == Ids(byStatus.Col(t))
    {
      ShownIds(cols, t);
    }
  }

  /**
   * A fast-path drop is `arrayMove` on the dragged card's column: the
   * dragged card leaves its index and takes the hovered card's index; the
   * other columns keep their cards in order.
   */
  lemma FastPathShown(prev: seq<Card>, activeId: CardId, overId: string,
                      indicator: Option<DropIndicator>, now: int)
    requires Rearrange(prev, activeId, overId, indicator, now).Rearranged?
    requires Rearrange(prev, activeId, overId, indicator, now).fastPath
    ensures var next := NextCards(prev, Rearrange(prev, activeId, overId, indicator, now));
      var st := FindCard(prev, activeId).value.status;
      var full := Partition(prev).Col(st);
      var from := FindIndex(full, activeId);
      var to := FindIndex(full, overId);
      && 0 <= from < |full| && 0 <= to < |full|
      && Ids(Partition(next).Col(st)) == InsertAt(RemoveAt(Ids(full), from), to, activeId)
      && forall t :: t != st ==> Ids(Partition(next).Col(t)) == Ids(Partition(prev).Col(t))
  {
    var byStatus := Partition(prev);
    var st := FindCard(prev, activeId).value.status;
    var full := byStatus.Col(st);
    var from := FindIndex(full, activeId);
    ArrayMoveShown(byStatus, st, from, FindIndex(full, overId), full[from].(updatedAt := now));
  }

  /** The board shows each column of a rearrangement with its cards in order, renumbered. */
  lemma DisplayedColumns(prev: seq<Card>, o: Outcome)
    requires o.Rearranged?
    ensures forall s :: Ids(Partition(NextCards(prev, o)).Col(s)) == Ids(o.cols.Col(s))
  {
    forall s
      ensures Ids(Partition(NextCards(prev, o)).Col(s)) == Ids(o.cols.Col(s))
    {
      ShownIds(o.cols, s);
    }
  }

  /** The general path on the columns: the card leaves its source list and enters the target list at `DropIndex`. */
  lemma GeneralPathColumns(byStatus: Columns, prev: seq<Card>, activeId: CardId, overId: string,
                           indicator: Option<DropIndicator>, now: int)
    requires RearrangeColumns(byStatus, prev, activeId, overId, indicator, now).Rearranged?
    requires !RearrangeColumns(byStatus, prev, activeId, overId, indicator, now).fastPath
    ensures var cols := RearrangeColumns(byStatus, prev, activeId, overId, indicator, now).cols;
      var moving := FindCard(prev, activeId).value;
      var target := TargetStatus(prev, overId, moving);
      var src := byStatus.Col(moving.status);
      var si := FindIndex(src, activeId);
      && 0 <= si < |src|
      && var tl := if target == moving.status then RemoveAt(src, si) else byStatus.Col(target);
      && Ids(cols.Col(target)) == InsertAt(Ids(tl), DropIndex(indicator, target, overId, tl, moving.status == target, si), activeId)
      && (target != moving.status ==> Ids(cols.Col(moving.status)) == RemoveAt(Ids(src), si))
      && forall t :: t != target && t != moving.status ==> cols.Col(t) == byStatus.Col(t)
  {
    var moving := FindCard(prev, activeId).value;
    var target := TargetStatus(prev, overId, moving);
    var src := byStatus.Col(moving.status);
    var si := FindIndex(src, activeId);
    var removed := byStatus.With(moving.status, RemoveAt(src, si));
    var tl := if target == moving.status then RemoveAt(src, si) else byStatus.Col(target);
    assert removed.Col(target) == tl;
    var index := DropIndex(indicator, target, overId, tl, moving.status == target, si);
    var moved := moving.(status := target, updatedAt := now);
    IdsInsertAt(tl, index, moved);
    IdsRemoveAt(src, si);
  }

  /**
   * A drop off the fast path takes the dragged card out of its column and
   * inserts it into the target list at `DropIndex`, the target list being
   * the source column without the card for a same-column drop; every other
   * column keeps its cards in order.
   */
  lemma GeneralPathShown(prev: seq<Card>, activeId: CardId, overId: string,
                         indicator: Option<DropIndicator>, now: int)
    requires Rearrange(prev, activeId, overId, indicator, now).Rearranged?
    requires !Rearrange(prev, activeId, overId, indicator, now).fastPath
    ensures var next := NextCards(prev, Rearrange(prev, activeId, overId, indicator, now));
      var moving := FindCard(prev, activeId).value;
      var target := TargetStatus(prev, overId, moving);
      var src := Partition(prev).Col(moving.status);
      var si := FindIndex(src, activeId);
      && 0 <= si < |src|
      && var tl := if target == moving.status then RemoveAt(src, si) else Partition(prev).Col(target);
      && Ids(Partition(next).Col(target)) == InsertAt(Ids(tl), DropIndex(indicator, target, overId, tl, moving.status == target, si), activeId)
      && (target != moving.status ==> Ids(Partition(next).Col(moving.status)) == RemoveAt(Ids(src), si))
      && forall t :: t != target && t != moving.status ==> Ids(Partition(next).Col(t)) == Ids(Partition(prev).Col(t))
  {
    GeneralPathColumns(Partition(prev), prev, activeId, overId, indicator, now);
    DisplayedColumns(prev, Rearrange(prev, activeId, overId, indicator, now));
  }

  /**
   * Within one column, the drop indicator counts the dragged card, so a drop
   * at gap `i` puts the card right after the cards that sat before the gap,
   * less the dragged card itself; the gaps on either side of the card give
   * back its own index.
   */
  lemma IndicatorGap(indicator: Option<DropIndicator>, target: StatusKey, overId: string, src: seq<Card>, si: int)
    requires 0 <= si < |src|
    requires UsesIndicator(indicator, target) && 0 <= indicator.value.index <= |src|
    ensures var i := indicator.value.index;
      var k := DropIndex(indicator, target, overId, RemoveAt(src, si), true, si);
      var before := if si < i then RemoveAt(src[..i], si) else src[..i];
      && k == |before| && RemoveAt(src, si)[..k] == before
      && (i == si || i == si + 1 ==> k == si)
  {
    var i := indicator.value.index;
    var tl := RemoveAt(src, si);
    var k := DropIndex(indicator, target, overId, tl, true, si);
    if si < i {
      assert k == i - 1;
      assert tl[..k] == RemoveAt(src[..i], si);
    } else {
      assert k == i;
      assert tl[..k] == src[..i];
    }
  }
}
