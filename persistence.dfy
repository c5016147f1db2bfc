/**
 * What the store learns from a drop. The moves the drop handler sends are
 * the only way a new order reaches the store; the same-column fast path, as
 * written, sends none.
 */
module Persistence {
  import opened Wrappers
  import opened Cards
  import opened RankModel
  import opened Splice
  import opened Reconciler
  import opened DragEnd

  /** Three cards of one column, ranked 1, 2, 3, with distinct card ids. */
  predicate ThreeInOrder(a: Card, b: Card, c: Card)
  {
    && a.status == b.status == c.status
    && a.position == 1 && b.position == 2 && c.position == 3
    && a.id != b.id && b.id != c.id && a.id != c.id
    && !IsStatusKey(c.id)
  }

  lemma ThreePartition(a: Card, b: Card, c: Card, s: StatusKey)
    requires ThreeInOrder(a, b, c)
    ensures Partition([a, b, c]).Col(s) == if s == a.status then [a, b, c] else []
  {
    var prev := [a, b, c];
    PartitionCol(prev, s);
    ThreeOfOneStatus(a, b, c);
    ColumnOfUniform(prev, s, a.status);
    if s == a.status {
      ThreeSorted(a, b, c);
      SortSortedIsIdentity(prev);
    }
  }

  lemma ThreeOfOneStatus(a: Card, b: Card, c: Card)
    requires ThreeInOrder(a, b, c)
    ensures forall i :: 0 <= i < |[a, b, c]| ==> [a, b, c][i].status == a.status
  {
    var prev := [a, b, c];
    forall i | 0 <= i < |prev|
      ensures prev[i].status == a.status
    {
      if i == 0 { assert prev[i] == a; } else if i == 1 { assert prev[i] == b; } else { assert prev[i] == c; }
    }
  }

  lemma ThreeSorted(a: Card, b: Card, c: Card)
    requires ThreeInOrder(a, b, c)
    ensures Sorted([a, b, c])
  {
  }

  /** Where the three ids are found. */
  lemma ThreeIndices(a: Card, b: Card, c: Card)
    requires ThreeInOrder(a, b, c)
    ensures var prev := [a, b, c];
      FindIndex(prev, a.id) == 0 && FindIndex(prev, b.id) == 1 && FindIndex(prev, c.id) == 2
  {
    var prev := [a, b, c];
    assert prev[0].id == a.id && prev[1].id == b.id && prev[2].id == c.id;
  }

  /** The same, on columns given as the partition of the three cards. */
  lemma ThreeRearrangedCols(byStatus: Columns, a: Card, b: Card, c: Card, now: int)
    requires ThreeInOrder(a, b, c)
    requires forall s :: byStatus.Col(s) == if s == a.status then [a, b, c] else []
    ensures var o := RearrangeColumns(byStatus, [a, b, c], a.id, c.id, None, now);
      && o.Rearranged? && o.fastPath
      && forall s :: o.cols.Col(s) == if s == a.status then [b, c, a.(updatedAt := now)] else []
  {
    var prev := [a, b, c];
    ThreeIndices(a, b, c);
    assert FindCard(prev, a.id) == Some(a);
    assert FindCard(prev, c.id) == Some(c);
    assert byStatus.Col(a.status) == prev;
    assert ArrayMove(prev, 0, 2, a.(updatedAt := now)) == [b, c, a.(updatedAt := now)];
  }

  /** Dragging the first card onto the third takes the fast path and moves it to the end of the column. */
  lemma ThreeRearranged(a: Card, b: Card, c: Card, now: int)
    requires ThreeInOrder(a, b, c)
    ensures var o := Rearrange([a, b, c], a.id, c.id, None, now);
      && o.Rearranged? && o.fastPath
      && forall s :: o.cols.Col(s) == if s == a.status then [b, c, a.(updatedAt := now)] else []
  {
    var prev := [a, b, c];
    forall s
      ensures Partition(prev).Col(s) == if s == a.status then prev else []
    {
      ThreePartition(a, b, c, s);
    }
    ThreeRearrangedCols(Partition(prev), a, b, c, now);
  }

  /** Columns with a single non-empty column renumber to that column alone. */
  lemma RenumberedSingle(cols: Columns, st: StatusKey)
    requires forall s :: s != st ==> cols.Col(s) == []
    ensures Renumbered(cols) == Renumber(st, cols.Col(st))
  {
    match st
    case Unassigned =>
      assert cols.Col(InProgress) == [] && cols.Col(Done) == [] && cols.Col(Blocked) == [];
    case InProgress =>
      assert cols.Col(Unassigned) == [] && cols.Col(Done) == [] && cols.Col(Blocked) == [];
    case Done =>
      assert cols.Col(Unassigned) == [] && cols.Col(InProgress) == [] && cols.Col(Blocked) == [];
    case Blocked =>
      assert cols.Col(Unassigned) == [] && cols.Col(InProgress) == [] && cols.Col(Done) == [];
  }

  /** Every card of the rotated column changed its position, so every card has a move. */
  lemma ThreeDiff(a: Card, b: Card, c: Card, now: int)
    requires ThreeInOrder(a, b, c)
    ensures Diff([a, b, c], [b.(position := 1), c.(position := 2), a.(position := 3, updatedAt := now)]) ==
      [MoveOf(b.(position := 1)), MoveOf(c.(position := 2)), MoveOf(a.(position := 3))]
  {
    var prev := [a, b, c];
    var next := [b.(position := 1), c.(position := 2), a.(position := 3, updatedAt := now)];
    ThreeIndices(a, b, c);
    assert Changed(prev, next[0]) && Changed(prev, next[1]) && Changed(prev, next[2]);
    assert next[..1][..0] == [];
    assert Diff(prev, next[..1]) == [MoveOf(next[0])];
    assert next[..2][..1] == next[..1];
    assert Diff(prev, next[..2]) == [MoveOf(next[0]), MoveOf(next[1])];
    assert next[..3][..2] == next[..2];
    assert next[..3] == next;
  }

  /** The rotated column, renumbered. */
  lemma RenumberThree(a: Card, b: Card, c: Card, now: int)
    requires ThreeInOrder(a, b, c)
    ensures Renumber(a.status, [b, c, a.(updatedAt := now)]) ==
      [b.(position := 1), c.(position := 2), a.(position := 3, updatedAt := now)]
  {
    var r := Renumber(a.status, [b, c, a.(updatedAt := now)]);
    assert r[0] == b.(position := 1);
    assert r[1] == c.(position := 2);
    assert r[2] == a.(position := 3, updatedAt := now);
  }

  /**
   * Dragging the first card onto the third takes the fast path: the board
   * shows the column as `b, c, a` renumbered 1, 2, 3, but the handler as
   * written sends no moves, while the diff of that rearrangement holds the
   * new positions of all three cards.
   */
  lemma FastPathNotPersisted(a: Card, b: Card, c: Card, now: int)
    requires ThreeInOrder(a, b, c)
    ensures var o := Rearrange([a, b, c], a.id, c.id, None, now);
      && o.Rearranged? && o.fastPath
      && NextCards([a, b, c], o) == [b.(position := 1), c.(position := 2), a.(position := 3, updatedAt := now)]
      && MovesSentAsWritten([a, b, c], o) == []
      && MovesSent([a, b, c], o) == [MoveOf(b.(position := 1)), MoveOf(c.(position := 2)), MoveOf(a.(position := 3))]
  {
    var o := Rearrange([a, b, c], a.id, c.id, None, now);
    ThreeRearranged(a, b, c, now);
    RenumberedSingle(o.cols, a.status);
    RenumberThree(a, b, c, now);
    ThreeDiff(a, b, c, now);
  }
}
