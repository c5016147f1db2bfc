/**
 * The data model of the kanban board: the four status columns, the card
 * record, and the `find` / `findIndex` lookups the board performs on lists
 * of cards.
 */
module Cards {
  import opened Wrappers

  type CardId = string

  /** The column keys (the `ask_status` enum of the store). */
  datatype StatusKey = Unassigned | InProgress | Done | Blocked

  /** `orderedStatuses`: the columns in display order. */
  const OrderedStatuses: seq<StatusKey> := [Unassigned, InProgress, Done, Blocked]

  /** The index of a status in `orderedStatuses`: every status occurs there exactly once. */
  function Place(s: StatusKey): (k: nat)
    ensures k < |OrderedStatuses| && OrderedStatuses[k] == s
  {
    match s
    case Unassigned => 0
    case InProgress => 1
    case Done => 2
    case Blocked => 3
  }

  /** The string key of a column, which is also the id of its droppable container. */
  function StatusName(s: StatusKey): string
  {
    match s
    case Unassigned => "unassigned"
    case InProgress => "in_progress"
    case Done => "done"
    case Blocked => "blocked"
  }

  /** The column whose key is `id`, when `id` is one of the four keys. */
  function StatusOf(id: string): (r: Option<StatusKey>)
    ensures r.Some? ==> StatusName(r.value) == id
    ensures r.None? ==> forall s: StatusKey :: StatusName(s) != id
  {
    if id == "unassigned" then Some(Unassigned)
    else if id == "in_progress" then Some(InProgress)
    else if id == "done" then Some(Done)
    else if id == "blocked" then Some(Blocked)
    else None
  }

  /** `orderedStatuses.includes(id)`: the id names a column container, not a card. */
  predicate IsStatusKey(id: string)
  {
    StatusOf(id).Some?
  }

  datatype Priority = Low | Medium | High

  datatype Contributor = Brandon | Adam

  /** A card; `position` ranks it inside its column, `updatedAt` breaks ties. */
  datatype Card = Card(
    id: CardId,
    title: string,
    priority: Priority,
    status: StatusKey,
    position: int,
    updatedAt: int,
    dueDate: Option<int>,
    contributors: seq<Contributor>)

  /** `list.findIndex(c => c.id === id)`: the first index holding `id`, or -1. */
  function FindIndex(list: seq<Card>, id: CardId): (r: int)
    ensures -1 <= r < |list|
    ensures r == -1 <==> forall i :: 0 <= i < |list| ==> list[i].id != id
    ensures 0 <= r ==> list[r].id == id && forall j :: 0 <= j < r ==> list[j].id != id
  {
    if list == [] then -1
    else if list[0].id == id then 0
    else
      var k := FindIndex(list[1..], id);
      if k == -1 then -1 else k + 1
  }

  /** `list.find(c => c.id === id)`: the first card holding `id`, if any. */
  function FindCard(list: seq<Card>, id: CardId): (r: Option<Card>)
    ensures r.None? <==> forall c :: c in list ==> c.id != id
    ensures r.Some? ==> r.value == list[FindIndex(list, id)] && r.value.id == id
  {
    var k := FindIndex(list, id);
    if k == -1 then None else Some(list[k])
  }

  /** The ids of a list of cards, in order. */
  function Ids(list: seq<Card>): (r: seq<CardId>)
    ensures |r| == |list| && forall i :: 0 <= i < |list| ==> r[i] == list[i].id
  {
    seq(|list|, i requires 0 <= i < |list| => list[i].id)
  }

  /** No two cards share an id (the store's primary key). */
  predicate UniqueIds(list: seq<Card>)
  {
    forall i, j :: 0 <= i < j < |list| ==> list[i].id != list[j].id
  }

  /** With unique ids, `find` returns the one card holding the id. */
  lemma FindCardUnique(list: seq<Card>, i: int)
    requires UniqueIds(list) && 0 <= i < |list|
    ensures FindCard(list, list[i].id) == Some(list[i])
  {
  }

  lemma IdsConcat(a: seq<Card>, b: seq<Card>)
    ensures Ids(a + b) == Ids(a) + Ids(b)
  {
  }

  /** Lists that are permutations of each other have permuted id lists. */
  lemma {:induction false} PermutedIds(a: seq<Card>, b: seq<Card>)
    requires multiset(a) == multiset(b)
    ensures multiset(Ids(a)) == multiset(Ids(b))
    decreases |a|
  {
    if a == [] {
      assert |multiset(b)| == 0;
      assert b == [];
    } else {
      var x := a[0];
      assert x in multiset(b);
      var k :| 0 <= k < |b| && b[k] == x;
      var rest := b[..k] + b[k + 1..];
      assert b == b[..k] + [x] + b[k + 1..];
      assert a == [x] + a[1..];
      assert multiset(b) == multiset(b[..k]) + multiset{x} + multiset(b[k + 1..]);
      assert multiset(rest) == multiset(b[..k]) + multiset(b[k + 1..]);
      assert multiset(a) == multiset{x} + multiset(a[1..]);
      assert multiset(a[1..]) == multiset(a) - multiset{x};
      assert multiset(rest) == multiset(b) - multiset{x};
      PermutedIds(a[1..], rest);
      IdsConcat([x], a[1..]);
      IdsConcat(b[..k] + [x], b[k + 1..]);
      IdsConcat(b[..k], [x]);
      IdsConcat(b[..k], b[k + 1..]);
    }
  }
}
