/**
 * `POST /api/asks/reorder`: the route that writes the board's moves to the
 * `asks` table. The table is a map from an ask's id to its `status` and
 * `position`; the URL, the other columns and the Supabase client are not
 * part of this model. `req.json()` is the parsed body, `None` when it could
 * not be parsed; `failed` holds the indices of the moves whose update the
 * store answers with an error (a status outside the column enum, say),
 * which the route ignores.
 */
module AsksReorder {
  import opened Wrappers
  import opened JsonValue

  /** The columns of an `asks` row that the route writes. */
  datatype Row = Row(status: Json, position: int)

  type Store = map<string, Row>

  /** `Array.isArray(body?.moves) ? body.moves : []`, where an unparsable body is `{}`. */
  function MovesOf(body: Option<Json>): (r: seq<Json>)
    ensures (GetOpt(body, "moves").Some? && GetOpt(body, "moves").value.JArr?) ==> r == GetOpt(body, "moves").value.items
    ensures !(GetOpt(body, "moves").Some? && GetOpt(body, "moves").value.JArr?) ==> r == []
  {
    match GetOpt(body, "moves")
    case Some(JArr(items)) => items
    case _ => []
  }

  /** The move passes `!m?.id || !m?.status || typeof m?.position !== 'number'` unskipped. */
  predicate ValidMove(m: Json)
  {
    TruthyOpt(Get(m, "id")) && TruthyOpt(Get(m, "status")) && Get(m, "position").Some? && Get(m, "position").value.JNum?
  }

  /** `.eq('id', m.id)` selects the row with that id; ids are strings, so no other value selects a row. */
  predicate Selects(m: Json, id: string)
  {
    Get(m, "id") == Some(JStr(id))
  }

  /** `update({ status: m.status, position: m.position }).eq('id', m.id)` for a valid move. */
  function ApplyMove(store: Store, m: Json): (r: Store)
    requires ValidMove(m)
    ensures r.Keys == store.Keys
    ensures forall id :: id in store && !Selects(m, id) ==> r[id] == store[id]
    ensures forall id :: id in store && Selects(m, id) ==> r[id] == Row(Get(m, "status").value, Get(m, "position").value.n)
  {
    match Get(m, "id").value
    case JStr(id) =>
      if id in store then store[id := Row(Get(m, "status").value, Get(m, "position").value.n)] else store
    case _ => store
  }

  /** A move that is written: valid, and not rejected by the store. */
  predicate Written(moves: seq<Json>, failed: set<nat>, i: int)
    requires 0 <= i < |moves|
  {
    ValidMove(moves[i]) && i !in failed
  }

  /** The table after the route's loop over `moves`. */
  function Applied(store: Store, moves: seq<Json>, failed: set<nat>): (r: Store)
    ensures r.Keys == store.Keys
    decreases |moves|
  {
    if moves == [] then store
    else
      var n := |moves| - 1;
      var before := Applied(store, moves[..n], failed);
      if Written(moves, failed, n) then ApplyMove(before, moves[n]) else before
  }

  /** The last written move that selects `id`, if any. */
  function LastFor(moves: seq<Json>, failed: set<nat>, id: string): (r: Option<nat>)
    ensures r.Some? ==> r.value < |moves| && Written(moves, failed, r.value) && Selects(moves[r.value], id)
    ensures r.Some? ==> forall j :: r.value < j < |moves| ==> !(Written(moves, failed, j) && Selects(moves[j], id))
    ensures r.None? ==> forall j :: 0 <= j < |moves| ==> !(Written(moves, failed, j) && Selects(moves[j], id))
    decreases |moves|
  {
    if moves == [] then None
    else
      var n := |moves| - 1;
      if Written(moves, failed, n) && Selects(moves[n], id) then Some(n)
      else
        var r := LastFor(moves[..n], failed, id);
        assert forall j :: 0 <= j < n ==> Written(moves[..n], failed, j) == Written(moves, failed, j) && moves[..n][j] == moves[j];
        r
  }

  /**
   * Each row ends with the status and position of the last written move
   * that selects it, and keeps its own when there is none: later moves win,
   * and rows no move selects are untouched.
   */
  lemma {:induction false} AppliedAt(store: Store, moves: seq<Json>, failed: set<nat>, id: string)
    requires id in store
    ensures Applied(store, moves, failed)[id] ==
      match LastFor(moves, failed, id)
      case None => store[id]
      case Some(i) => Row(Get(moves[i], "status").value, Get(moves[i], "position").value.n)
    decreases |moves|
  {
    if moves != [] {
      var n := |moves| - 1;
      AppliedAt(store, moves[..n], failed, id);
      assert forall j :: 0 <= j < n ==> Written(moves[..n], failed, j) == Written(moves, failed, j) && moves[..n][j] == moves[j];
    }
  }

  /** The route's reply: always `{ ok: true }`. */
  const OkReply := JObj(map["ok" := JBool(true)])

  /** The handler: each move is checked, then written; invalid moves are skipped. */
  method Post(store: Store, body: Option<Json>, failed: set<nat>) returns (rows: Store, reply: Json)
    ensures rows == Applied(store, MovesOf(body), failed)
    ensures reply == OkReply
  {
    var moves := MovesOf(body);
    rows := store;
    for i := 0 to |moves|
      invariant rows == Applied(store, moves[..i], failed)
    {
      assert moves[..i + 1][..i] == moves[..i];
      var m := moves[i];
      if !TruthyOpt(Get(m, "id")) || !TruthyOpt(Get(m, "status")) || Get(m, "position").None? || !Get(m, "position").value.JNum? {
        continue;
      }
      if i !in failed {
        rows := ApplyMove(rows, m);
      }
    }
    assert moves[..|moves|] == moves;
    reply := OkReply;
  }
}
