/**
 * `collisionDetectionStrategy`: which droppable targets the dragged card is
 * over. The hit lists of dnd-kit's `pointerWithin` and `rectIntersection`
 * are inputs, `closestCenter` is a function of the candidate containers.
 */
module Collision {
  import opened Wrappers
  import opened Cards

  /** `list.filter(id => !orderedStatuses.includes(id))`: the card hits, in order. */
  function CardHits(list: seq<string>): (r: seq<string>)
    ensures |r| <= |list|
  {
    if list == [] then []
    else (if IsStatusKey(list[0]) then [] else [list[0]]) + CardHits(list[1..])
  }

  /** The card filter keeps exactly the hits that are not column keys. */
  lemma {:induction false} CardHitsMembers(list: seq<string>)
    ensures forall x :: x in CardHits(list) <==> x in list && !IsStatusKey(x)
  {
    if list != [] {
      CardHitsMembers(list[1..]);
      assert list == [list[0]] + list[1..];
    }
  }

  /** `list.filter(id => id !== activeId)`; a null `activeId` keeps every id. */
  function Without(list: seq<string>, activeId: Option<CardId>): (r: seq<string>)
    ensures |r| <= |list|
  {
    if list == [] then []
    else (if Some(list[0]) == activeId then [] else [list[0]]) + Without(list[1..], activeId)
  }

  /** The active-id filter keeps exactly the ids other than the active one. */
  lemma {:induction false} WithoutMembers(list: seq<string>, activeId: Option<CardId>)
    ensures forall x :: x in Without(list, activeId) <==> x in list && Some(x) != activeId
  {
    if list != [] {
      WithoutMembers(list[1..], activeId);
      assert list == [list[0]] + list[1..];
    }
  }

  /** `primary.some(id => !orderedStatuses.includes(id))`. */
  predicate HasCardHit(list: seq<string>)
  {
    exists i :: 0 <= i < |list| && !IsStatusKey(list[i])
  }

  /** The direct pointer hits when there are any, the rectangle hits otherwise. */
  function Primary(pointer: seq<string>, rect: seq<string>): seq<string>
  {
    if |pointer| > 0 then pointer else rect
  }

  /** The card filter distributes over concatenation: it keeps the hits in their order. */
  lemma {:induction false} CardHitsConcat(a: seq<string>, b: seq<string>)
    ensures CardHits(a + b) == CardHits(a) + CardHits(b)
  {
    if a == [] {
      assert a + b == b;
    } else {
      assert (a + b)[1..] == a[1..] + b;
      CardHitsConcat(a[1..], b);
    }
  }

  /** The active-id filter distributes over concatenation: it keeps the hits in their order. */
  lemma {:induction false} WithoutConcat(a: seq<string>, b: seq<string>, activeId: Option<CardId>)
    ensures Without(a + b, activeId) == Without(a, activeId) + Without(b, activeId)
  {
    if a == [] {
      assert a + b == b;
    } else {
      assert (a + b)[1..] == a[1..] + b;
      WithoutConcat(a[1..], b, activeId);
    }
  }

  /** A hit that both filters keep: not the active card, and not a column when `cardsOnly`. */
  predicate Survives(x: string, cardsOnly: bool, activeId: Option<CardId>)
  {
    Some(x) != activeId && (cardsOnly ==> !IsStatusKey(x))
  }

  /** Both filters applied to `list`, the card filter only when `cardsOnly`. */
  function Kept(list: seq<string>, cardsOnly: bool, activeId: Option<CardId>): seq<string>
  {
    Without(if cardsOnly then CardHits(list) else list, activeId)
  }

  /** The filters look at the first hit on its own, then at the rest. */
  lemma KeptCons(list: seq<string>, cardsOnly: bool, activeId: Option<CardId>)
    requires list != []
    ensures Kept(list, cardsOnly, activeId) ==
      (if Survives(list[0], cardsOnly, activeId) then [list[0]] else []) + Kept(list[1..], cardsOnly, activeId)
  {
    if cardsOnly {
      CardHitsConcat([list[0]], list[1..]);
      assert [list[0]] + list[1..] == list;
      WithoutConcat(CardHits([list[0]]), CardHits(list[1..]), activeId);
    } else {
      WithoutConcat([list[0]], list[1..], activeId);
      assert [list[0]] + list[1..] == list;
    }
  }

  /** The first hit kept is the first hit of `list` that survives both filters. */
  lemma {:induction false} FirstKept(list: seq<string>, cardsOnly: bool, activeId: Option<CardId>)
    requires |Kept(list, cardsOnly, activeId)| > 0
    ensures exists i ::
              0 <= i < |list| && Kept(list, cardsOnly, activeId)[0] == list[i] &&
              Survives(list[i], cardsOnly, activeId) && (forall j :: 0 <= j < i ==> !Survives(list[j], cardsOnly, activeId))
    decreases |list|
  {
    if list != [] {
      KeptCons(list, cardsOnly, activeId);
      if !Survives(list[0], cardsOnly, activeId) {
        var rest := list[1..];
        FirstKept(rest, cardsOnly, activeId);
        var k :| 0 <= k < |rest| && Kept(rest, cardsOnly, activeId)[0] == rest[k]
          && Survives(rest[k], cardsOnly, activeId)
          && forall j :: 0 <= j < k ==> !Survives(rest[j], cardsOnly, activeId);
        assert forall j :: 1 <= j < k + 1 ==> list[j] == rest[j - 1];
        assert list[k + 1] == rest[k];
      }
    }
  }

  /** The filtered hit list, before the fallback. */
  function Filtered(pointer: seq<string>, rect: seq<string>, activeId: Option<CardId>): seq<string>
  {
    var primary := Primary(pointer, rect);
    Kept(primary, HasCardHit(primary), activeId)
  }

  /** The collision strategy: the filtered hits, or `closestCenter` over the containers other than the active one. */
  function Collide(pointer: seq<string>, rect: seq<string>, containers: seq<string>,
                   closestCenter: seq<string> -> seq<string>, activeId: Option<CardId>): seq<string>
  {
    var filtered := Filtered(pointer, rect, activeId);
    if |filtered| > 0 then filtered else closestCenter(Without(containers, activeId))
  }

  /**
   * When something survives the filters it is the answer, and it holds
   * exactly the primary hits other than the active card, less the column
   * hits whenever some card was hit.
   */
  lemma FilteredHits(pointer: seq<string>, rect: seq<string>, containers: seq<string>,
                     closestCenter: seq<string> -> seq<string>, activeId: Option<CardId>, x: string)
    requires |Filtered(pointer, rect, activeId)| > 0
    ensures x in Collide(pointer, rect, containers, closestCenter, activeId) <==>
      x in Primary(pointer, rect) && Some(x) != activeId && (HasCardHit(Primary(pointer, rect)) ==> !IsStatusKey(x))
  {
    FilteredMembers(pointer, rect, activeId);
  }

  /** The filtered list holds exactly the primary hits that survive both filters. */
  lemma FilteredMembers(pointer: seq<string>, rect: seq<string>, activeId: Option<CardId>)
    ensures var primary := Primary(pointer, rect);
      forall x :: x in Filtered(pointer, rect, activeId) <==> x in primary && Survives(x, HasCardHit(primary), activeId)
  {
    var primary := Primary(pointer, rect);
    CardHitsMembers(primary);
    WithoutMembers(if HasCardHit(primary) then CardHits(primary) else primary, activeId);
  }

  /**
   * dnd-kit takes the first collision as `over`: when something survives the
   * filters, that is the first primary hit that is not the active card and,
   * when some card was hit, not a column.
   */
  lemma FirstCollision(pointer: seq<string>, rect: seq<string>, containers: seq<string>,
                       closestCenter: seq<string> -> seq<string>, activeId: Option<CardId>)
    requires |Filtered(pointer, rect, activeId)| > 0
    ensures var primary := Primary(pointer, rect);
      var cardsOnly := HasCardHit(primary);
      exists i ::
        0 <= i < |primary| && Collide(pointer, rect, containers, closestCenter, activeId)[0] == primary[i] &&
        Survives(primary[i], cardsOnly, activeId) && (forall j :: 0 <= j < i ==> !Survives(primary[j], cardsOnly, activeId))
  {
    var primary := Primary(pointer, rect);
    FirstKept(primary, HasCardHit(primary), activeId);
  }

  /** A card hit (other than the active card) wins: no column container is returned. */
  lemma CardHitDropsColumns(pointer: seq<string>, rect: seq<string>, containers: seq<string>,
                            closestCenter: seq<string> -> seq<string>, activeId: Option<CardId>, i: int)
    requires 0 <= i < |Primary(pointer, rect)|
    requires !IsStatusKey(Primary(pointer, rect)[i]) && Some(Primary(pointer, rect)[i]) != activeId
    ensures forall x :: x in Collide(pointer, rect, containers, closestCenter, activeId) ==> !IsStatusKey(x)
  {
    var primary := Primary(pointer, rect);
    assert HasCardHit(primary);
    FilteredMembers(pointer, rect, activeId);
    assert primary[i] in Filtered(pointer, rect, activeId);
  }

  /**
   * Nothing survives the filters exactly when every primary hit is the
   * active card or a column passed over for a card hit; then the answer is
   * `closestCenter` over the other containers. So a pointer over the active
   * card and a column falls back to the nearest container.
   */
  lemma FallbackToClosest(pointer: seq<string>, rect: seq<string>, containers: seq<string>,
                          closestCenter: seq<string> -> seq<string>, activeId: Option<CardId>)
    ensures |Filtered(pointer, rect, activeId)| == 0 <==>
      forall x :: x in Primary(pointer, rect) ==> Some(x) == activeId || (HasCardHit(Primary(pointer, rect)) && IsStatusKey(x))
    ensures |Filtered(pointer, rect, activeId)| == 0 ==>
      Collide(pointer, rect, containers, closestCenter, activeId) == closestCenter(Without(containers, activeId))
  {
    var f := Filtered(pointer, rect, activeId);
    FilteredMembers(pointer, rect, activeId);
    if |f| > 0 {
      assert f[0] in f;
    }
  }

  /**
   * The active card's own target is never returned, as long as
   * `closestCenter` answers with some of the containers it was given.
   */
  lemma NeverTheActiveCard(pointer: seq<string>, rect: seq<string>, containers: seq<string>,
                           closestCenter: seq<string> -> seq<string>, activeId: CardId)
    requires forall cs: seq<string>, x :: x in closestCenter(cs) ==> x in cs
    ensures activeId !in Collide(pointer, rect, containers, closestCenter, Some(activeId))
  {
    var f := Filtered(pointer, rect, Some(activeId));
    FilteredMembers(pointer, rect, Some(activeId));
    if |f| == 0 {
      var rest := Without(containers, Some(activeId));
      WithoutMembers(containers, Some(activeId));
      assert activeId !in rest;
    }
  }
}
