/**
 * The board and the reorder route together: the request body the drop
 * handler posts (`JSON.stringify({ moves })`), surviving the route's
 * checks, brings the `asks` table in line with the list the board shows.
 */
module ReorderSync {
  import opened Wrappers
  import opened JsonValue
  import opened Cards
  import opened RankModel
  import opened Reconciler
  import opened DragOver
  import opened DragEnd
  import opened DropLaws
  import opened Persistence
  import opened AsksReorder

  /** `{ id, status, position }` as JSON. */
  function MoveJson(m: Move): Json
  {
    JObj(map["id" := JStr(m.id), "status" := JStr(StatusName(m.status)), "position" := JNum(m.position)])
  }

  function Encode(moves: seq<Move>): (r: seq<Json>)
    ensures |r| == |moves| && forall i :: 0 <= i < |moves| ==> r[i] == MoveJson(moves[i])
  {
    seq(|moves|, i requires 0 <= i < |moves| => MoveJson(moves[i]))
  }

  /** The body of the `POST /api/asks/reorder` request. */
  function RequestBody(moves: seq<Move>): Json
  {
    JObj(map["moves" := JArr(Encode(moves))])
  }

  /** The row the table holds for a card. */
  function RowOf(c: Card): Row
  {
    Row(JStr(StatusName(c.status)), c.position)
  }

  /** The table holds every card's status and position under its id. */
  predicate Mirrors(store: Store, cards: seq<Card>)
  {
    forall c :: c in cards ==> c.id in store && store[c.id] == RowOf(c)
  }

  /** The route reads back the moves of the body, and every move of a card with an id passes its checks. */
  lemma EncodedMoves(moves: seq<Move>)
    requires forall m :: m in moves ==> m.id != ""
    ensures MovesOf(Some(RequestBody(moves))) == Encode(moves)
    ensures forall i :: 0 <= i < |moves| ==> ValidMove(Encode(moves)[i])
    ensures forall i, id :: 0 <= i < |moves| ==> (Selects(Encode(moves)[i], id) <==> moves[i].id == id)
  {
    forall i | 0 <= i < |moves|
      ensures ValidMove(Encode(moves)[i])
    {
      assert moves[i] in moves;
      match moves[i].status
      case Unassigned =>
      case InProgress =>
      case Done =>
      case Blocked =>
    }
  }

  /** No two ids in a list with unique ids: every id occurs at most once. */
  lemma {:induction false} UniqueIdsCount(list: seq<Card>, x: CardId)
    requires UniqueIds(list)
    ensures multiset(Ids(list))[x] <= 1
    decreases |list|
  {
    if list != [] {
      var n := |list| - 1;
      UniqueIdsCount(list[..n], x);
      assert Ids(list) == Ids(list[..n]) + [list[n].id];
      if list[n].id == x {
        assert x !in Ids(list[..n]);
      }
    }
  }

  /** An id at two indices occurs at least twice. */
  lemma RepeatedIdCount(list: seq<Card>, i: int, j: int)
    requires 0 <= i < j < |list| && list[i].id == list[j].id
    ensures multiset(Ids(list))[list[i].id] >= 2
  {
    var ids := Ids(list);
    assert ids == ids[..j] + [ids[j]] + ids[j + 1..];
    assert ids[..j][i] == list[i].id;
    assert list[i].id in multiset(ids[..j]);
  }

  /** A permutation of the ids of a list with unique ids has unique ids. */
  lemma UniqueIdsPermuted(a: seq<Card>, b: seq<Card>)
    requires multiset(Ids(a)) == multiset(Ids(b)) && UniqueIds(a)
    ensures UniqueIds(b)
  {
    forall i, j | 0 <= i < j < |b|
      ensures b[i].id != b[j].id
    {
      if b[i].id == b[j].id {
        RepeatedIdCount(b, i, j);
        UniqueIdsCount(a, b[i].id);
      }
    }
  }

  /** Every card of `b` has its id on a card of `a` when the id lists are permutations. */
  lemma PermutedIdsPresent(a: seq<Card>, b: seq<Card>, c: Card)
    requires multiset(Ids(a)) == multiset(Ids(b)) && c in b
    ensures exists d :: d in a && d.id == c.id
  {
    var j :| 0 <= j < |b| && b[j] == c;
    assert Ids(b)[j] == c.id;
    assert c.id in multiset(Ids(a));
    var k :| 0 <= k < |a| && Ids(a)[k] == c.id;
    assert a[k] in a;
  }

  /**
   * Writing the diff of `prev` and `next` to a table that mirrors `prev`
   * leaves it mirroring `next`, and rows of other ids untouched: a card
   * left out of the diff already has its row, and a card in it has its move
   * as the only one selecting its row.
   */
  lemma DiffPersists(store: Store, prev: seq<Card>, next: seq<Card>)
    requires Mirrors(store, prev) && UniqueIds(next)
    requires forall c :: c in next ==> c.id != "" && c.id in store
    ensures var rows := Applied(store, MovesOf(Some(RequestBody(Diff(prev, next)))), {});
      Mirrors(rows, next) && forall id :: id in store && id !in Ids(next) ==> rows[id] == store[id]
  {
    var diff := Diff(prev, next);
    forall m | m in diff
      ensures m.id != ""
    {
      DiffSound(prev, next, m);
    }
    EncodedMoves(diff);
    forall c | c in next
      ensures Applied(store, Encode(diff), {})[c.id] == RowOf(c)
    {
      var j :| 0 <= j < |next| && next[j] == c;
      CardRowWritten(store, prev, next, j);
    }
    forall id | id in store && id !in Ids(next)
      ensures Applied(store, Encode(diff), {})[id] == store[id]
    {
      OtherRowKept(store, prev, next, id);
    }
  }

  /** The row of a card of `next` ends with its status and position. */
  lemma CardRowWritten(store: Store, prev: seq<Card>, next: seq<Card>, j: int)
    requires Mirrors(store, prev) && UniqueIds(next) && 0 <= j < |next| && next[j].id in store
    requires forall m :: m in Diff(prev, next) ==> m.id != ""
    ensures Applied(store, Encode(Diff(prev, next)), {})[next[j].id] == RowOf(next[j])
  {
    var diff := Diff(prev, next);
    var moves := Encode(diff);
    var c := next[j];
    EncodedMoves(diff);
    AppliedAt(store, moves, {}, c.id);
    match LastFor(moves, {}, c.id)
    case Some(i) =>
      DiffSound(prev, next, diff[i]);
      var k :| 0 <= k < |next| && Changed(prev, next[k]) && diff[i] == MoveOf(next[k]);
      assert k == j;
    case None =>
      if Changed(prev, c) {
        DiffComplete(prev, next, j);
      }
      var original := FindCard(prev, c.id).value;
      assert original in prev;
  }

  /** A row whose id is on no card of `next` is selected by no move. */
  lemma OtherRowKept(store: Store, prev: seq<Card>, next: seq<Card>, id: string)
    requires id in store && id !in Ids(next)
    requires forall m :: m in Diff(prev, next) ==> m.id != ""
    ensures Applied(store, Encode(Diff(prev, next)), {})[id] == store[id]
  {
    var diff := Diff(prev, next);
    var moves := Encode(diff);
    EncodedMoves(diff);
    AppliedAt(store, moves, {}, id);
    if LastFor(moves, {}, id).Some? {
      DiffSound(prev, next, diff[LastFor(moves, {}, id).value]);
    }
  }

  /** `DiffPersists` for a list whose ids are a permutation of the ids of `prev`. */
  lemma PermutationPersists(store: Store, prev: seq<Card>, next: seq<Card>)
    requires Mirrors(store, prev) && UniqueIds(prev) && forall c :: c in prev ==> c.id != ""
    requires multiset(Ids(next)) == multiset(Ids(prev))
    ensures var rows := Applied(store, MovesOf(Some(RequestBody(Diff(prev, next)))), {});
      Mirrors(rows, next) && forall id :: id in store && id !in Ids(prev) ==> rows[id] == store[id]
  {
    UniqueIdsPermuted(prev, next);
    forall c | c in next
      ensures c.id != "" && c.id in store
    {
      PermutedIdsPresent(prev, next, c);
    }
    DiffPersists(store, prev, next);
    forall id | id !in Ids(prev)
      ensures id !in Ids(next)
    {
      assert id in Ids(next) <==> id in multiset(Ids(next));
    }
  }

  /**
   * Every drop is persisted: with the table mirroring the board's list,
   * the moves the drop posts leave it mirroring the list the board shows
   * afterwards, and rows of asks not on the board untouched.
   */
  lemma DropPersisted(store: Store, prev: seq<Card>, activeId: CardId, overId: string,
                      indicator: Option<DropIndicator>, now: int)
    requires Mirrors(store, prev) && UniqueIds(prev) && forall c :: c in prev ==> c.id != ""
    ensures var o := Rearrange(prev, activeId, overId, indicator, now);
      var rows := Applied(store, MovesOf(Some(RequestBody(MovesSent(prev, o)))), {});
      && Mirrors(rows, NextCards(prev, o))
      && forall id :: id in store && id !in Ids(prev) ==> rows[id] == store[id]
  {
    var o := Rearrange(prev, activeId, overId, indicator, now);
    if o.Unchanged? {
      EncodedMoves([]);
    } else {
      DropPermutesIds(prev, activeId, overId, indicator, now);
      PermutationPersists(store, prev, Renumbered(o.cols));
    }
  }

  /**
   * The handler as written loses the fast path's drop: after dragging the
   * first card of a column onto the third, the table still holds the first
   * card at position 1, while the board shows it at position 3.
   */
  lemma FastPathLost(store: Store, a: Card, b: Card, c: Card, now: int)
    requires ThreeInOrder(a, b, c) && Mirrors(store, [a, b, c])
    ensures var o := Rearrange([a, b, c], a.id, c.id, None, now);
      !Mirrors(Applied(store, MovesOf(Some(RequestBody(MovesSentAsWritten([a, b, c], o)))), {}), NextCards([a, b, c], o))
  {
    var o := Rearrange([a, b, c], a.id, c.id, None, now);
    FastPathNotPersisted(a, b, c, now);
    EncodedMoves([]);
    var moved := a.(position := 3, updatedAt := now);
    assert moved in NextCards([a, b, c], o);
    assert store[a.id] == RowOf(a);
  }
}
