/**
 * The rank model of the board: the comparator the board sorts columns with,
 * the partition of a flat card list into the four columns (`cardsByStatus`),
 * and the renumbering of every column to dense positions 1..N.
 */
module RankModel {
  import opened Cards

  /** The source's comparator `a.position - b.position || a.updatedAt - b.updatedAt`. */
  function Compare(a: Card, b: Card): int
  {
    if a.position - b.position != 0 then a.position - b.position else a.updatedAt - b.updatedAt
  }

  /** `a` may stand before `b`: by position ascending, then by `updatedAt` ascending. */
  predicate Precedes(a: Card, b: Card)
  {
    a.position < b.position || (a.position == b.position && a.updatedAt <= b.updatedAt)
  }

  predicate Sorted(list: seq<Card>)
  {
    forall i, j :: 0 <= i < j < |list| ==> Precedes(list[i], list[j])
  }

  /**
   * Inserts `x` after every element that does not compare greater than it,
   * which keeps equal elements in their input order.
   */
  function Insert(x: Card, list: seq<Card>): (r: seq<Card>)
    ensures multiset(r) == multiset(list) + multiset{x}
  {
    if list == [] then [x]
    else if Compare(x, list[0]) < 0 then [x] + list
    else
      assert list == [list[0]] + list[1..];
      [list[0]] + Insert(x, list[1..])
  }

  /** Insertion keeps a sorted column sorted. */
  lemma {:induction false} InsertSorted(x: Card, list: seq<Card>)
    requires Sorted(list)
    ensures Sorted(Insert(x, list))
  {
    if list != [] && Compare(x, list[0]) >= 0 {
      var rest := Insert(x, list[1..]);
      InsertSorted(x, list[1..]);
      forall j | 0 <= j < |rest|
        ensures Precedes(list[0], rest[j])
      {
        assert rest[j] in multiset(rest);
        assert rest[j] == x || rest[j] in list[1..];
      }
      assert Insert(x, list) == [list[0]] + rest;
    }
  }

  /**
   * `Array.prototype.sort` with the comparator above. The JavaScript sort is
   * stable, so the result is the stable insertion sort of the input.
   */
  function Sort(list: seq<Card>): (r: seq<Card>)
    ensures Sorted(r)
    ensures multiset(r) == multiset(list)
    decreases |list|
  {
    if list == [] then []
    else
      var n := |list| - 1;
      assert list == list[..n] + [list[n]];
      var sorted := Sort(list[..n]);
      InsertSorted(list[n], sorted);
      Insert(list[n], sorted)
  }

  lemma InsertAfterAll(x: Card, list: seq<Card>)
    requires forall i :: 0 <= i < |list| ==> Precedes(list[i], x)
    ensures Insert(x, list) == list + [x]
  {
    if list != [] {
      InsertAfterAll(x, list[1..]);
    }
  }

  /** Sorting an already sorted column changes nothing. */
  lemma {:induction false} SortSortedIsIdentity(list: seq<Card>)
    requires Sorted(list)
    ensures Sort(list) == list
    decreases |list|
  {
    if list != [] {
      var n := |list| - 1;
      SortSortedIsIdentity(list[..n]);
      InsertAfterAll(list[n], list[..n]);
      assert list[..n] + [list[n]] == list;
    }
  }

  /** The comparator cannot tell `c` from a card at position `p` updated at `u`. */
  predicate SameRank(c: Card, p: int, u: int)
  {
    c.position == p && c.updatedAt == u
  }

  /** The cards of `list` ranked at position `p`, updated at `u`, kept in list order. */
  function Tied(list: seq<Card>, p: int, u: int): seq<Card>
    decreases |list|
  {
    if list == [] then []
    else
      var n := |list| - 1;
      Tied(list[..n], p, u) + (if SameRank(list[n], p, u) then [list[n]] else [])
  }

  lemma {:induction false} TiedConcat(a: seq<Card>, b: seq<Card>, p: int, u: int)
    ensures Tied(a + b, p, u) == Tied(a, p, u) + Tied(b, p, u)
    decreases |b|
  {
    if b == [] {
      assert a + b == a;
    } else {
      var n := |b| - 1;
      assert (a + b)[..|a + b| - 1] == a + b[..n];
      assert (a + b)[|a + b| - 1] == b[n];
      TiedConcat(a, b[..n], p, u);
    }
  }

  lemma {:induction false} TiedNone(list: seq<Card>, p: int, u: int)
    requires forall i :: 0 <= i < |list| ==> !SameRank(list[i], p, u)
    ensures Tied(list, p, u) == []
    decreases |list|
  {
    if list != [] {
      var n := |list| - 1;
      assert forall i :: 0 <= i < n ==> list[..n][i] == list[i];
      TiedNone(list[..n], p, u);
    }
  }

  lemma TiedSingle(x: Card, p: int, u: int)
    ensures Tied([x], p, u) == if SameRank(x, p, u) then [x] else []
  {
    assert [x][..0] == [];
  }

  /** A card ranked before the whole of a sorted list is tied with none of it. */
  lemma TiedBefore(x: Card, list: seq<Card>, p: int, u: int)
    requires Sorted(list) && list != [] && Compare(x, list[0]) < 0
    ensures Tied([x] + list, p, u) == Tied(list, p, u) + Tied([x], p, u)
  {
    TiedConcat([x], list, p, u);
    TiedSingle(x, p, u);
    if SameRank(x, p, u) {
      forall i | 0 <= i < |list|
        ensures !SameRank(list[i], p, u)
      {
        if i > 0 {
          assert Precedes(list[0], list[i]);
        }
      }
      TiedNone(list, p, u);
    }
  }

  /** Putting the same card in front of two lists keeps the relation between their tied cards. */
  lemma TiedCons(h: Card, rest: seq<Card>, ins: seq<Card>, extra: seq<Card>, p: int, u: int)
    requires Tied(ins, p, u) == Tied(rest, p, u) + extra
    ensures Tied([h] + ins, p, u) == Tied([h] + rest, p, u) + extra
  {
    TiedConcat([h], ins, p, u);
    TiedConcat([h], rest, p, u);
  }

  /** Insertion puts `x` behind every card tied with it. */
  lemma {:induction false} InsertTied(x: Card, list: seq<Card>, p: int, u: int)
    requires Sorted(list)
    ensures Tied(Insert(x, list), p, u) == Tied(list, p, u) + Tied([x], p, u)
    decreases |list|
  {
    if list == [] {
      assert Insert(x, list) == [x];
      assert [] + Tied([x], p, u) == Tied([x], p, u);
    } else if Compare(x, list[0]) < 0 {
      assert Insert(x, list) == [x] + list;
      TiedBefore(x, list, p, u);
    } else {
      var rest := list[1..];
      SortedTail(list);
      InsertTied(x, rest, p, u);
      InsertBehindHead(x, list);
      TiedCons(list[0], rest, Insert(x, rest), Tied([x], p, u), p, u);
    }
  }

  lemma SortedTail(list: seq<Card>)
    requires Sorted(list) && list != []
    ensures Sorted(list[1..]) && [list[0]] + list[1..] == list
  {
    assert forall i :: 0 <= i < |list| - 1 ==> list[1..][i] == list[i + 1];
  }

  lemma InsertBehindHead(x: Card, list: seq<Card>)
    requires list != [] && Compare(x, list[0]) >= 0
    ensures Insert(x, list) == [list[0]] + Insert(x, list[1..])
  {
  }

  /** The sort is stable: cards the comparator ties keep their input order. */
  lemma {:induction false} SortStable(list: seq<Card>, p: int, u: int)
    ensures Tied(Sort(list), p, u) == Tied(list, p, u)
    decreases |list|
  {
    if list != [] {
      var n := |list| - 1;
      SortStable(list[..n], p, u);
      InsertTied(list[n], Sort(list[..n]), p, u);
      TiedSingle(list[n], p, u);
    }
  }

  /** `cards.filter(c => c.status === s)`, kept in input order. */
  function Column(cards: seq<Card>, s: StatusKey): (r: seq<Card>)
    ensures forall i :: 0 <= i < |r| ==> r[i].status == s
    decreases |cards|
  {
    if cards == [] then []
    else
      var n := |cards| - 1;
      assert cards == cards[..n] + [cards[n]];
      Column(cards[..n], s) + (if cards[n].status == s then [cards[n]] else [])
  }

  lemma ColumnConcat(a: seq<Card>, b: seq<Card>, s: StatusKey)
    ensures Column(a + b, s) == Column(a, s) + Column(b, s)
    decreases |b|
  {
    if b != [] {
      var n := |b| - 1;
      assert (a + b)[..|a| + n] == a + b[..n];
      ColumnConcat(a, b[..n], s);
    } else {
      assert a + b == a;
    }
  }

  /** A non-empty list is its front and its last element. */
  lemma LastSplit<T>(list: seq<T>)
    requires |list| > 0
    ensures list[..|list| - 1] + [list[|list| - 1]] == list
  {
  }

  /** Every card of `list` already has status `s`: filtering keeps all of it. */
  lemma {:induction false} ColumnOfUniform(list: seq<Card>, s: StatusKey, t: StatusKey)
    requires forall i :: 0 <= i < |list| ==> list[i].status == t
    ensures Column(list, s) == if s == t then list else []
    decreases |list|
  {
    if list != [] {
      var n := |list| - 1;
      var front := list[..n];
      assert forall i :: 0 <= i < |front| ==> front[i].status == t by {
        assert forall i :: 0 <= i < |front| ==> front[i] == list[i];
      }
      ColumnOfUniform(front, s, t);
      if s == t {
        assert Column(list, s) == front + [list[n]];
        LastSplit(list);
      } else {
        assert Column(list, s) == [];
      }
    }
  }

  predicate AllOfStatus(list: seq<Card>, s: StatusKey)
  {
    forall i :: 0 <= i < |list| ==> list[i].status == s
  }

  /** Sorting a column does not bring in a card of another status. */
  lemma SortedColumnStatus(cards: seq<Card>, s: StatusKey)
    ensures AllOfStatus(Sort(Column(cards, s)), s)
  {
    var col := Column(cards, s);
    var r := Sort(col);
    forall i | 0 <= i < |r|
      ensures r[i].status == s
    {
      assert r[i] in multiset(col);
    }
  }

  /** Filtering keeps every card of status `s` as often as the input holds it, and nothing else. */
  lemma {:induction false} ColumnCount(cards: seq<Card>, s: StatusKey, c: Card)
    ensures multiset(Column(cards, s))[c] == if c.status == s then multiset(cards)[c] else 0
    decreases |cards|
  {
    if cards != [] {
      var n := |cards| - 1;
      ColumnCount(cards[..n], s, c);
      assert cards == cards[..n] + [cards[n]];
    }
  }

  /** `byStatus: Record<StatusKey, Card[]>`: one list per column. */
  datatype Columns = Columns(unassigned: seq<Card>, inProgress: seq<Card>, done: seq<Card>, blocked: seq<Card>)
  {
    function Col(s: StatusKey): seq<Card>
    {
      match s
      case Unassigned => unassigned
      case InProgress => inProgress
      case Done => done
      case Blocked => blocked
    }

    /** `byStatus[s] = list`. */
    function With(s: StatusKey, list: seq<Card>): (r: Columns)
      ensures r.Col(s) == list
      ensures forall t :: t != s ==> r.Col(t) == Col(t)
    {
      match s
      case Unassigned => this.(unassigned := list)
      case InProgress => this.(inProgress := list)
      case Done => this.(done := list)
      case Blocked => this.(blocked := list)
    }

    /** All four lists, in the order of `orderedStatuses`. */
    function Flatten(): seq<Card>
    {
      unassigned + inProgress + done + blocked
    }
  }

  const NoColumns := Columns([], [], [], [])

  /**
   * `cardsByStatus`: every card in the column of its status, each column
   * sorted by position and then by `updatedAt`.
   */
  function Partition(cards: seq<Card>): (r: Columns)
    ensures forall s :: Sorted(r.Col(s)) && AllOfStatus(r.Col(s), s)
  {
    var r := Columns(
      Sort(Column(cards, Unassigned)),
      Sort(Column(cards, InProgress)),
      Sort(Column(cards, Done)),
      Sort(Column(cards, Blocked)));
    SortedColumnStatus(cards, Unassigned);
    SortedColumnStatus(cards, InProgress);
    SortedColumnStatus(cards, Done);
    SortedColumnStatus(cards, Blocked);
    EveryColumnWellFormed(r);
    r
  }

  /** Four sorted lists, each of its own status, make well-formed columns. */
  lemma EveryColumnWellFormed(r: Columns)
    requires Sorted(r.unassigned) && AllOfStatus(r.unassigned, Unassigned)
    requires Sorted(r.inProgress) && AllOfStatus(r.inProgress, InProgress)
    requires Sorted(r.done) && AllOfStatus(r.done, Done)
    requires Sorted(r.blocked) && AllOfStatus(r.blocked, Blocked)
    ensures forall s :: Sorted(r.Col(s)) && AllOfStatus(r.Col(s), s)
  {
    forall s
      ensures Sorted(r.Col(s)) && AllOfStatus(r.Col(s), s)
    {
      match s
      case Unassigned =>
      case InProgress =>
      case Done =>
      case Blocked =>
    }
  }

  /** A card lands in the column of its status, and in no other column. */
  lemma PartitionCount(cards: seq<Card>, s: StatusKey, c: Card)
    ensures multiset(Partition(cards).Col(s))[c] == if c.status == s then multiset(cards)[c] else 0
  {
    ColumnCount(cards, s, c);
  }

  /** A card lands in the column of its status, and in no other column. */
  lemma PartitionPlacesEveryCard(cards: seq<Card>, c: Card, s: StatusKey)
    ensures c in Partition(cards).Col(s) <==> c in cards && c.status == s
  {
    PartitionCount(cards, s, c);
  }

  /** The partition holds each card as often as the flat list does. */
  lemma PartitionCountAll(cards: seq<Card>, c: Card)
    ensures multiset(Partition(cards).Flatten())[c] == multiset(cards)[c]
  {
    var p := Partition(cards);
    assert p.Flatten() == p.Col(Unassigned) + p.Col(InProgress) + p.Col(Done) + p.Col(Blocked);
    PartitionCount(cards, Unassigned, c);
    PartitionCount(cards, InProgress, c);
    PartitionCount(cards, Done, c);
    PartitionCount(cards, Blocked, c);
  }

  /** The partition is a permutation of the flat list. */
  lemma PartitionIsPermutation(cards: seq<Card>)
    ensures multiset(Partition(cards).Flatten()) == multiset(cards)
  {
    forall c
      ensures multiset(Partition(cards).Flatten())[c] == multiset(cards)[c]
    {
      PartitionCountAll(cards, c);
    }
  }

  /**
   * The `cardsByStatus` memo: one loop pushes each card onto the list of its
   * status, a second sorts each list in place.
   */
  method CardsByStatus(cards: seq<Card>) returns (byStatus: Columns)
    ensures byStatus == Partition(cards)
  {
    byStatus := NoColumns;
    for i := 0 to |cards|
      invariant forall s :: byStatus.Col(s) == Column(cards[..i], s)
    {
      var c := cards[i];
      ColumnSnoc(cards, i);
      byStatus := byStatus.With(c.status, byStatus.Col(c.status) + [c]);
    }
    assert cards[..|cards|] == cards;
    var filtered := byStatus;
    byStatus := SortEach(filtered);
    forall s
      ensures byStatus.Col(s) == Partition(cards).Col(s)
    {
    }
    ColumnsEqual(byStatus, Partition(cards));
  }

  /** The lists of `orderedStatuses` before index `k` sorted, the others as filtered. */
  predicate SortedBefore(sorted: Columns, cols: Columns, k: nat)
  {
    forall s :: sorted.Col(s) == if Place(s) < k then Sort(cols.Col(s)) else cols.Col(s)
  }

  lemma SortStep(sorted: Columns, cols: Columns, k: nat)
    requires k < |OrderedStatuses| && SortedBefore(sorted, cols, k)
    ensures SortedBefore(sorted.With(OrderedStatuses[k], Sort(sorted.Col(OrderedStatuses[k]))), cols, k + 1)
  {
    var s := OrderedStatuses[k];
    assert Place(s) == k;
    var next := sorted.With(s, Sort(sorted.Col(s)));
    forall t
      ensures next.Col(t) == if Place(t) < k + 1 then Sort(cols.Col(t)) else cols.Col(t)
    {
      if t != s {
        assert Place(t) != k;
      }
    }
  }

  /** The second loop of `cardsByStatus`: each list of `orderedStatuses` sorted in place. */
  method SortEach(cols: Columns) returns (sorted: Columns)
    ensures forall s :: sorted.Col(s) == Sort(cols.Col(s))
  {
    sorted := cols;
    for k := 0 to |OrderedStatuses|
      invariant SortedBefore(sorted, cols, k)
    {
      SortStep(sorted, cols, k);
      sorted := sorted.With(OrderedStatuses[k], Sort(sorted.Col(OrderedStatuses[k])));
    }
  }
  /** Two column sets with the same four lists are the same. */
  lemma ColumnsEqual(a: Columns, b: Columns)
    requires forall s :: a.Col(s) == b.Col(s)
    ensures a == b
  {
    assert a.Col(Unassigned) == b.Col(Unassigned);
    assert a.Col(InProgress) == b.Col(InProgress);
    assert a.Col(Done) == b.Col(Done);
    assert a.Col(Blocked) == b.Col(Blocked);
  }

  /** One more card pushed: only the column of its status grows, by that card. */
  lemma ColumnSnoc(cards: seq<Card>, i: int)
    requires 0 <= i < |cards|
    ensures forall s :: Column(cards[..i + 1], s) == Column(cards[..i], s) + (if cards[i].status == s then [cards[i]] else [])
  {
    assert cards[..i + 1][..i] == cards[..i];
  }

  /** Positions exactly 1..N in list order, every card carrying the column's status. */
  predicate DenseColumn(s: StatusKey, list: seq<Card>)
  {
    forall i :: 0 <= i < |list| ==> list[i].status == s && list[i].position == i + 1
  }

  /** No two cards share a (status, position) pair. */
  predicate UniqueRanks(cards: seq<Card>)
  {
    forall i, j :: 0 <= i < j < |cards| ==> cards[i].status != cards[j].status || cards[i].position != cards[j].position
  }

  /** `list.map((c, i) => ({ ...c, status: s, position: i + 1 }))` on one column. */
  function Renumber(s: StatusKey, list: seq<Card>): (r: seq<Card>)
    ensures |r| == |list| && DenseColumn(s, r)
    ensures forall i :: 0 <= i < |r| ==> r[i].(status := list[i].status, position := list[i].position) == list[i]
  {
    seq(|list|, i requires 0 <= i < |list| => list[i].(status := s, position := i + 1))
  }

  /** The `next` list: every column renumbered, concatenated in `orderedStatuses` order. */
  function Renumbered(cols: Columns): seq<Card>
  {
    Renumber(Unassigned, cols.Col(Unassigned)) + Renumber(InProgress, cols.Col(InProgress))
      + Renumber(Done, cols.Col(Done)) + Renumber(Blocked, cols.Col(Blocked))
  }

  function RenumberedUpTo(cols: Columns, k: nat): seq<Card>
    requires k <= |OrderedStatuses|
  {
    if k == 0 then [] else RenumberedUpTo(cols, k - 1) + Renumber(OrderedStatuses[k - 1], cols.Col(OrderedStatuses[k - 1]))
  }

  /** The two nested loops that build `next` from `byStatus`. */
  method RenumberAll(byStatus: Columns) returns (next: seq<Card>)
    ensures next == Renumbered(byStatus)
  {
    next := [];
    for k := 0 to |OrderedStatuses|
      invariant next == RenumberedUpTo(byStatus, k)
    {
      var s := OrderedStatuses[k];
      next := PushRenumbered(next, s, byStatus.Col(s));
    }
    RenumberedUpToAll(byStatus);
  }

  /** The inner loop: push every card of one column with its new status and position. */
  method PushRenumbered(next: seq<Card>, s: StatusKey, list: seq<Card>) returns (out: seq<Card>)
    ensures out == next + Renumber(s, list)
  {
    out := next;
    for i := 0 to |list|
      invariant out == next + Renumber(s, list)[..i]
    {
      out := out + [list[i].(status := s, position := i + 1)];
      assert Renumber(s, list)[..i + 1] == Renumber(s, list)[..i] + [Renumber(s, list)[i]];
    }
    assert Renumber(s, list)[..|list|] == Renumber(s, list);
  }

  lemma RenumberedUpToAll(cols: Columns)
    ensures RenumberedUpTo(cols, |OrderedStatuses|) == Renumbered(cols)
  {
    assert RenumberedUpTo(cols, 1) == Renumber(Unassigned, cols.Col(Unassigned));
    assert RenumberedUpTo(cols, 2) == RenumberedUpTo(cols, 1) + Renumber(InProgress, cols.Col(InProgress));
    assert RenumberedUpTo(cols, 3) == RenumberedUpTo(cols, 2) + Renumber(Done, cols.Col(Done));
    assert RenumberedUpTo(cols, 4) == RenumberedUpTo(cols, 3) + Renumber(Blocked, cols.Col(Blocked));
  }

  /** Filtering the renumbered list by a status gives back that column, as renumbered. */
  lemma ColumnOfRenumbered(cols: Columns, s: StatusKey)
    ensures Column(Renumbered(cols), s) == Renumber(s, cols.Col(s))
  {
    var u := Renumber(Unassigned, cols.Col(Unassigned));
    var ip := Renumber(InProgress, cols.Col(InProgress));
    var d := Renumber(Done, cols.Col(Done));
    var b := Renumber(Blocked, cols.Col(Blocked));
    ColumnOfOrdered(u, ip, d, b, s);
    assert Columns(u, ip, d, b).Col(s) == Renumber(s, cols.Col(s)) by {
      match s
      case Unassigned =>
      case InProgress =>
      case Done =>
      case Blocked =>
    }
  }

  /** Filtering four lists of the four statuses, concatenated in order, gives back the list of that status. */
  lemma ColumnOfOrdered(u: seq<Card>, ip: seq<Card>, d: seq<Card>, b: seq<Card>, s: StatusKey)
    requires AllOfStatus(u, Unassigned) && AllOfStatus(ip, InProgress)
    requires AllOfStatus(d, Done) && AllOfStatus(b, Blocked)
    ensures Column(u + ip + d + b, s) == Columns(u, ip, d, b).Col(s)
  {
    var x := u + ip;
    var y := x + d;
    ColumnOfUniform(u, s, Unassigned);
    ColumnAppendUniform(u, ip, s, InProgress);
    ColumnAppendUniform(x, d, s, Done);
    ColumnAppendUniform(y, b, s, Blocked);
  }

  /** Appending cards of status `t` adds them to the column of `t` and to no other. */
  lemma ColumnAppendUniform(front: seq<Card>, tail: seq<Card>, s: StatusKey, t: StatusKey)
    requires AllOfStatus(tail, t)
    ensures Column(front + tail, s) == if s == t then Column(front, s) + tail else Column(front, s)
  {
    ColumnConcat(front, tail, s);
    ColumnOfUniform(tail, s, t);
    if s != t {
      assert Column(front, s) + [] == Column(front, s);
    }
  }

  /** Positions 1..N in list order are sorted by the comparator. */
  lemma DenseIsSorted(s: StatusKey, list: seq<Card>)
    requires DenseColumn(s, list)
    ensures Sorted(list)
  {
  }

  /** Renumbering a dense column again changes nothing. */
  lemma RenumberTwice(s: StatusKey, list: seq<Card>)
    ensures Renumber(s, Renumber(s, list)) == Renumber(s, list)
  {
  }

  lemma PartitionCol(cards: seq<Card>, s: StatusKey)
    ensures Partition(cards).Col(s) == Sort(Column(cards, s))
  {
  }

  /** One column of the renumbered list, read back through the partition. */
  lemma RenumberedColumn(cols: Columns, s: StatusKey)
    ensures Partition(Renumbered(cols)).Col(s) == Renumber(s, cols.Col(s))
  {
    var r := Renumber(s, cols.Col(s));
    ColumnOfRenumbered(cols, s);
    DenseIsSorted(s, r);
    SortSortedIsIdentity(r);
    PartitionCol(Renumbered(cols), s);
  }

  /**
   * Reading the renumbered list back through the partition gives every
   * column exactly as renumbered: the display order is the list order and
   * renumbering again changes nothing.
   */
  lemma RenumberedPartition(cols: Columns)
    ensures forall s :: Partition(Renumbered(cols)).Col(s) == Renumber(s, cols.Col(s))
    ensures Renumbered(Partition(Renumbered(cols))) == Renumbered(cols)
  {
    forall s
      ensures Partition(Renumbered(cols)).Col(s) == Renumber(s, cols.Col(s))
    {
      RenumberedColumn(cols, s);
    }
    var p := Partition(Renumbered(cols));
    forall s
      ensures Renumber(s, p.Col(s)) == Renumber(s, cols.Col(s))
    {
      RenumberTwice(s, cols.Col(s));
    }
  }

  /**
   * After renumbering, every column read from the list is dense and no two
   * cards share a (status, position) pair.
   */
  lemma RenumberedIsDense(cols: Columns)
    ensures forall s :: DenseColumn(s, Column(Renumbered(cols), s))
    ensures UniqueRanks(Renumbered(cols))
  {
    forall s
      ensures DenseColumn(s, Column(Renumbered(cols), s))
    {
      ColumnOfRenumbered(cols, s);
    }
    var next := Renumbered(cols);
    forall i, j | 0 <= i < j < |next| && next[i].status == next[j].status
      ensures next[i].position != next[j].position
    {
      RenumberedRankOrder(cols, i, j);
    }
  }

  /** Where the renumbered block of column `s` starts in the renumbered list. */
  function Offset(cols: Columns, s: StatusKey): nat
  {
    match s
    case Unassigned => 0
    case InProgress => |cols.Col(Unassigned)|
    case Done => |cols.Col(Unassigned)| + |cols.Col(InProgress)|
    case Blocked => |cols.Col(Unassigned)| + |cols.Col(InProgress)| + |cols.Col(Done)|
  }

  /** The position of a card of the renumbered list is its distance from the start of its block, plus one. */
  lemma RenumberedAt(cols: Columns, k: int)
    requires 0 <= k < |Renumbered(cols)|
    ensures Renumbered(cols)[k].position == k - Offset(cols, Renumbered(cols)[k].status) + 1
  {
    var u := Renumber(Unassigned, cols.Col(Unassigned));
    var ip := Renumber(InProgress, cols.Col(InProgress));
    var d := Renumber(Done, cols.Col(Done));
    var b := Renumber(Blocked, cols.Col(Blocked));
    var next := Renumbered(cols);
    assert next == u + ip + d + b;
    var n1, n2, n3 := |u|, |u| + |ip|, |u| + |ip| + |d|;
    if k < n1 {
      assert next[k] == u[k];
    } else if k < n2 {
      assert next[k] == ip[k - n1];
    } else if k < n3 {
      assert next[k] == d[k - n2];
    } else {
      assert next[k] == b[k - n3];
    }
  }

  /** Two cards of the same column in the renumbered list have increasing positions. */
  lemma RenumberedRankOrder(cols: Columns, i: int, j: int)
    requires 0 <= i < j < |Renumbered(cols)|
    requires Renumbered(cols)[i].status == Renumbered(cols)[j].status
    ensures Renumbered(cols)[i].position < Renumbered(cols)[j].position
  {
    RenumberedAt(cols, i);
    RenumberedAt(cols, j);
  }

  /** Renumbering keeps the ids of the columns' cards, in column order. */
  lemma RenumberedIds(cols: Columns)
    ensures Ids(Renumbered(cols)) == Ids(cols.Flatten())
  {
    var u := Renumber(Unassigned, cols.Col(Unassigned));
    var ip := Renumber(InProgress, cols.Col(InProgress));
    var d := Renumber(Done, cols.Col(Done));
    var b := Renumber(Blocked, cols.Col(Blocked));
    assert Ids(u) == Ids(cols.Col(Unassigned));
    assert Ids(ip) == Ids(cols.Col(InProgress));
    assert Ids(d) == Ids(cols.Col(Done));
    assert Ids(b) == Ids(cols.Col(Blocked));
    IdsConcat(u + ip + d, b);
    IdsConcat(u + ip, d);
    IdsConcat(u, ip);
    var f := cols.Flatten();
    IdsConcat(cols.unassigned + cols.inProgress + cols.done, cols.blocked);
    IdsConcat(cols.unassigned + cols.inProgress, cols.done);
    IdsConcat(cols.unassigned, cols.inProgress);
  }

  /** A renumbered card is a card of some column with that column's status and a new position. */
  lemma InRenumber(s: StatusKey, list: seq<Card>, x: Card)
    requires x in Renumber(s, list)
    ensures exists d :: d in list && x == d.(status := s, position := x.position)
  {
    var r := Renumber(s, list);
    var i :| 0 <= i < |r| && r[i] == x;
    assert list[i] in list;
  }

  /** Every card of the renumbered list comes from one of the columns. */
  lemma InRenumbered(cols: Columns, x: Card)
    requires x in Renumbered(cols)
    ensures exists s, d :: d in cols.Col(s) && x == d.(status := s, position := x.position)
  {
    var u := Renumber(Unassigned, cols.Col(Unassigned));
    var ip := Renumber(InProgress, cols.Col(InProgress));
    var d := Renumber(Done, cols.Col(Done));
    var b := Renumber(Blocked, cols.Col(Blocked));
    assert Renumbered(cols) == u + ip + d + b;
    if x in u {
      InRenumber(Unassigned, cols.Col(Unassigned), x);
    } else if x in ip {
      InRenumber(InProgress, cols.Col(InProgress), x);
    } else if x in d {
      InRenumber(Done, cols.Col(Done), x);
    } else {
      InRenumber(Blocked, cols.Col(Blocked), x);
    }
  }
}
