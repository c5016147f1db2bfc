/**
 * The optimistic edits of the board: toggling a contributor on a card and
 * deleting a card, applied to the card list before the store answers.
 */
module OptimisticEdits {
  import opened Wrappers
  import opened Cards

  /** `list.filter(n => n !== who)`. */
  function Without(list: seq<Contributor>, who: Contributor): (r: seq<Contributor>)
    ensures |r| <= |list|
  {
    if list == [] then []
    else (if list[0] == who then [] else [list[0]]) + Without(list[1..], who)
  }

  /** The filter keeps exactly the contributors other than `who`. */
  lemma {:induction false} WithoutMembers(list: seq<Contributor>, who: Contributor)
    ensures forall x :: x in Without(list, who) <==> x in list && x != who
  {
    if list != [] {
      WithoutMembers(list[1..], who);
      assert list == [list[0]] + list[1..];
    }
  }

  /** A list without `who` is unchanged by the filter. */
  lemma {:induction false} WithoutAbsent(list: seq<Contributor>, who: Contributor)
    requires who !in list
    ensures Without(list, who) == list
  {
    if list != [] {
      WithoutAbsent(list[1..], who);
      assert list == [list[0]] + list[1..];
    }
  }

  /** The filter distributes over concatenation. */
  lemma {:induction false} WithoutConcat(a: seq<Contributor>, b: seq<Contributor>, who: Contributor)
    ensures Without(a + b, who) == Without(a, who) + Without(b, who)
  {
    if a != [] {
      assert (a + b)[1..] == a[1..] + b;
      WithoutConcat(a[1..], b, who);
    } else {
      assert a + b == b;
    }
  }

  /** The toggle: remove every occurrence of `who` when present, else append it. */
  function Toggle(list: seq<Contributor>, who: Contributor): (r: seq<Contributor>)
    ensures who in r <==> who !in list
    ensures forall x :: x != who ==> (x in r <==> x in list)
    ensures who in list ==> r == Without(list, who)
    ensures who !in list ==> r == list + [who]
  {
    WithoutMembers(list, who);
    if who in list then Without(list, who) else list + [who]
  }

  /** Toggling twice gives back a list that did not hold `who`. */
  lemma ToggleTwiceAbsent(list: seq<Contributor>, who: Contributor)
    requires who !in list
    ensures Toggle(Toggle(list, who), who) == list
  {
    WithoutConcat(list, [who], who);
    WithoutAbsent(list, who);
  }

  /** Toggling twice removes a present `who` and appends it once: duplicates collapse, and it moves to the end. */
  lemma ToggleTwicePresent(list: seq<Contributor>, who: Contributor)
    requires who in list
    ensures Toggle(Toggle(list, who), who) == Without(list, who) + [who]
  {
  }

  /** `handleToggleContributor`'s optimistic update: the card with `id` gets the toggled contributors, nothing else changes. */
  function ToggleContributor(cards: seq<Card>, id: CardId, who: Contributor): (r: seq<Card>)
    ensures |r| == |cards|
    ensures forall i :: 0 <= i < |cards| && cards[i].id != id ==> r[i] == cards[i]
    ensures forall i :: 0 <= i < |cards| && cards[i].id == id ==>
      r[i] == cards[i].(contributors := Toggle(cards[i].contributors, who))
  {
    seq(|cards|, i requires 0 <= i < |cards| =>
      if cards[i].id != id then cards[i] else cards[i].(contributors := Toggle(cards[i].contributors, who)))
  }

  /** Every card with the id flips whether `who` contributes, and keeps its other contributors and fields. */
  lemma ToggleFlips(cards: seq<Card>, id: CardId, who: Contributor, i: int)
    requires 0 <= i < |cards| && cards[i].id == id
    ensures var r := ToggleContributor(cards, id, who)[i];
      && (who in r.contributors <==> who !in cards[i].contributors)
      && (forall x :: x != who ==> (x in r.contributors <==> x in cards[i].contributors))
      && r.(contributors := cards[i].contributors) == cards[i]
  {
  }

  /** Ids, statuses and positions are untouched by a toggle. */
  lemma ToggleKeepsRanks(cards: seq<Card>, id: CardId, who: Contributor)
    ensures Ids(ToggleContributor(cards, id, who)) == Ids(cards)
    ensures forall i :: 0 <= i < |cards| ==>
      ToggleContributor(cards, id, who)[i].status == cards[i].status &&
      ToggleContributor(cards, id, who)[i].position == cards[i].position
  {
  }

  /**
   * The list written to the store: the toggle of the contributors of the
   * card found in `cards` by id, or of the empty list when there is none.
   */
  function StoredContributors(cards: seq<Card>, id: CardId, who: Contributor): (r: seq<Contributor>)
    ensures FindCard(cards, id).None? ==> r == [who]
  {
    var current := match FindCard(cards, id) case Some(c) => c.contributors case None => [];
    Toggle(current, who)
  }

  /** When the board's list is the one the handler closed over, the store is sent what the board now shows. */
  lemma StoredMatchesOptimistic(cards: seq<Card>, id: CardId, who: Contributor)
    requires FindCard(cards, id).Some?
    ensures var k := FindIndex(cards, id);
      ToggleContributor(cards, id, who)[k].contributors == StoredContributors(cards, id, who)
  {
  }

  /** `prev.filter(c => c.id !== id)`: the list without the card with that id. */
  function DeleteCard(cards: seq<Card>, id: CardId): (r: seq<Card>)
    ensures forall c :: c in r <==> c in cards && c.id != id
    ensures |r| <= |cards|
  {
    if cards == [] then []
    else (if cards[0].id == id then [] else [cards[0]]) + DeleteCard(cards[1..], id)
  }

  /** Deleting an id that is not on the board changes nothing. */
  lemma {:induction false} DeleteAbsent(cards: seq<Card>, id: CardId)
    requires forall c :: c in cards ==> c.id != id
    ensures DeleteCard(cards, id) == cards
  {
    if cards != [] {
      assert cards[0] in cards;
      DeleteAbsent(cards[1..], id);
      assert cards == [cards[0]] + cards[1..];
    }
  }

  /** Deleting twice is deleting once. */
  lemma DeleteIdempotent(cards: seq<Card>, id: CardId)
    ensures DeleteCard(DeleteCard(cards, id), id) == DeleteCard(cards, id)
  {
    DeleteAbsent(DeleteCard(cards, id), id);
  }

  /**
   * The other cards keep their relative order: deleting from a split list
   * is deleting from each part, and a single card is kept exactly when its
   * id differs.
   */
  lemma {:induction false} DeleteConcat(a: seq<Card>, b: seq<Card>, id: CardId)
    ensures DeleteCard(a + b, id) == DeleteCard(a, id) + DeleteCard(b, id)
  {
    if a != [] {
      assert (a + b)[1..] == a[1..] + b;
      DeleteConcat(a[1..], b, id);
    } else {
      assert a + b == b;
    }
  }
}
