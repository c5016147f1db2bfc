/**
 * The `moves` the drop handler sends to the reorder route: one entry for
 * every card of the new list whose `(status, position)` differs from the
 * card with the same id in the previous list, or that has no such card.
 */
module Reconciler {
  import opened Wrappers
  import opened Cards

  /** `{ id, status, position }`. */
  datatype Move = Move(id: CardId, status: StatusKey, position: int)

  function MoveOf(c: Card): Move
  {
    Move(c.id, c.status, c.position)
  }

  /** `!original || original.status !== updated.status || original.position !== updated.position`. */
  predicate Changed(prev: seq<Card>, c: Card)
  {
    match FindCard(prev, c.id)
    case None => true
    case Some(original) => original.status != c.status || original.position != c.position
  }

  /** The moves for `next`, in `next` order. */
  function Diff(prev: seq<Card>, next: seq<Card>): (r: seq<Move>)
    ensures |r| <= |next|
    decreases |next|
  {
    if next == [] then []
    else
      var n := |next| - 1;
      Diff(prev, next[..n]) + (if Changed(prev, next[n]) then [MoveOf(next[n])] else [])
  }

  /** Every move that is sent is that of a changed card of `next`. */
  lemma {:induction false} DiffSound(prev: seq<Card>, next: seq<Card>, m: Move)
    requires m in Diff(prev, next)
    ensures exists i :: 0 <= i < |next| && Changed(prev, next[i]) && m == MoveOf(next[i])
    decreases |next|
  {
    var n := |next| - 1;
    if m in Diff(prev, next[..n]) {
      DiffSound(prev, next[..n], m);
      var i :| 0 <= i < n && Changed(prev, next[..n][i]) && m == MoveOf(next[..n][i]);
      assert next[..n][i] == next[i];
    }
  }

  /** Every changed card of `next` has its move sent. */
  lemma {:induction false} DiffComplete(prev: seq<Card>, next: seq<Card>, i: int)
    requires 0 <= i < |next| && Changed(prev, next[i])
    ensures MoveOf(next[i]) in Diff(prev, next)
    decreases |next|
  {
    var n := |next| - 1;
    if i < n {
      assert next[..n][i] == next[i];
      DiffComplete(prev, next[..n], i);
    }
  }

  /** A move is sent for a card of `next` exactly when that card changed. */
  lemma DiffMembers(prev: seq<Card>, next: seq<Card>, m: Move)
    ensures m in Diff(prev, next) <==> exists i :: 0 <= i < |next| && Changed(prev, next[i]) && m == MoveOf(next[i])
  {
    if m in Diff(prev, next) {
      DiffSound(prev, next, m);
    } else if exists i :: 0 <= i < |next| && Changed(prev, next[i]) && m == MoveOf(next[i]) {
      var i :| 0 <= i < |next| && Changed(prev, next[i]) && m == MoveOf(next[i]);
      DiffComplete(prev, next, i);
    }
  }

  /** Nothing is sent exactly when every card keeps the status and position of its earlier self. */
  lemma DiffEmpty(prev: seq<Card>, next: seq<Card>)
    ensures Diff(prev, next) == [] <==> forall i :: 0 <= i < |next| ==> !Changed(prev, next[i])
  {
    if Diff(prev, next) != [] {
      DiffMembers(prev, next, Diff(prev, next)[0]);
    } else {
      forall i | 0 <= i < |next|
        ensures !Changed(prev, next[i])
      {
        DiffMembers(prev, next, MoveOf(next[i]));
      }
    }
  }

  /** The moves come in `next` order: the diff of a concatenation is the concatenation of the diffs. */
  lemma {:induction false} DiffConcat(prev: seq<Card>, a: seq<Card>, b: seq<Card>)
    ensures Diff(prev, a + b) == Diff(prev, a) + Diff(prev, b)
    decreases |b|
  {
    if b == [] {
      assert a + b == a;
    } else {
      var n := |b| - 1;
      assert (a + b)[..|a + b| - 1] == a + b[..n];
      assert (a + b)[|a + b| - 1] == b[n];
      DiffConcat(prev, a, b[..n]);
    }
  }

  /** A list compared with itself has nothing to send, when ids are unique. */
  lemma DiffOfSelf(cards: seq<Card>)
    requires UniqueIds(cards)
    ensures Diff(cards, cards) == []
  {
    forall i | 0 <= i < |cards|
      ensures !Changed(cards, cards[i])
    {
      FindCardUnique(cards, i);
    }
    DiffEmpty(cards, cards);
  }

  /** The `moves` loop of `handleDragEndDnd`. */
  method ComputeMoves(prev: seq<Card>, next: seq<Card>) returns (moves: seq<Move>)
    ensures moves == Diff(prev, next)
  {
    moves := [];
    for i := 0 to |next|
      invariant moves == Diff(prev, next[..i])
    {
      var updated := next[i];
      var original := FindCard(prev, updated.id);
      assert next[..i + 1][..i] == next[..i];
      if original.None? || original.value.status != updated.status || original.value.position != updated.position {
        moves := moves + [Move(updated.id, updated.status, updated.position)];
      }
    }
    assert next[..|next|] == next;
  }
}
