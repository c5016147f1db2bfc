/**
 * `handleDragOver`: the live drop indicator, the column and the insertion
 * index where the dragged card would land. Geometry is abstract: the
 * vertical centre of the dragged card and the middle of the hovered target
 * are optional integers (`getVerticalCenter` may find no rectangle), and the
 * midpoints of the rendered cards form a map that holds no entry for a card
 * whose element is missing from the page.
 */
module DragOver {
  import opened Wrappers
  import opened Cards
  import opened RankModel

  /**
   * `{ status, index }`: the insertion index within the list of `status`.
   * The status is undefined when neither the hovered id nor the dragged id
   * is a known card.
   */
  datatype DropIndicator = DropIndicator(status: Option<StatusKey>, index: int)

  /**
   * The column the drag is over: the container's own key, else the hovered
   * card's column, else the dragged card's column.
   */
  function OverStatus(cards: seq<Card>, overId: string, activeId: CardId): (r: Option<StatusKey>)
    ensures IsStatusKey(overId) ==> r == StatusOf(overId)
    ensures !IsStatusKey(overId) && FindCard(cards, overId).Some? ==> r == Some(FindCard(cards, overId).value.status)
    ensures !IsStatusKey(overId) && FindCard(cards, overId).None? && FindCard(cards, activeId).Some? ==>
      r == Some(FindCard(cards, activeId).value.status)
    ensures r.None? <==> !IsStatusKey(overId) && FindCard(cards, overId).None? && FindCard(cards, activeId).None?
  {
    if IsStatusKey(overId) then StatusOf(overId)
    else
      match FindCard(cards, overId)
      case Some(c) => Some(c.status)
      case None =>
        match FindCard(cards, activeId)
        case Some(a) => Some(a.status)
        case None => None
  }

  /**
   * `items`: the cards of the target column, sorted as the board shows
   * them; empty when the target is undefined, since every card has a status.
   */
  function Items(cards: seq<Card>, target: Option<StatusKey>): seq<Card>
  {
    if target.Some? then Partition(cards).Col(target.value) else []
  }

  /** The card's element is on the page and its midpoint lies below the dragged card's centre. */
  predicate MidBelow(c: Card, mids: map<CardId, int>, center: int)
  {
    c.id in mids && center < mids[c.id]
  }

  /** The first card whose midpoint lies below `center`, skipping cards with no element; `|items|` when there is none. */
  function FirstBelow(items: seq<Card>, mids: map<CardId, int>, center: int): (r: int)
    ensures 0 <= r <= |items|
    ensures forall j :: 0 <= j < r ==> !MidBelow(items[j], mids, center)
    ensures r < |items| ==> MidBelow(items[r], mids, center)
  {
    if items == [] then 0
    else if MidBelow(items[0], mids, center) then 0
    else 1 + FirstBelow(items[1..], mids, center)
  }

  /** `if (index < 0) index = 0; if (index > n) index = n;` */
  function Clamp(index: int, n: int): (r: int)
    requires 0 <= n
    ensures 0 <= r <= n
    ensures 0 <= index <= n ==> r == index
    ensures index < 0 ==> r == 0
    ensures index > n ==> r == n
  {
    if index < 0 then 0 else if index > n then n else index
  }

  /** `shouldPlaceAfter`: both centres are known and the dragged card's centre is below the hovered card's middle. */
  predicate PlaceAfter(activeCenter: Option<int>, overMiddle: Option<int>)
  {
    activeCenter.Some? && overMiddle.Some? && activeCenter.value > overMiddle.value
  }

  /**
   * The insertion index within `items`: over a card, its index, plus one
   * when the dragged card's centre is below its middle (the end of the
   * column for a card not in it); over a column, the first card whose
   * midpoint lies below the centre; clamped to `[0, |items|]`.
   */
  function InsertionIndex(items: seq<Card>, overId: string, activeCenter: Option<int>,
                          overMiddle: Option<int>, mids: map<CardId, int>): (r: int)
    ensures 0 <= r <= |items|
  {
    var raw :=
      if !IsStatusKey(overId) then
        var k := FindIndex(items, overId);
        if k >= 0 then k + (if PlaceAfter(activeCenter, overMiddle) then 1 else 0) else |items|
      else if activeCenter.Some? then FirstBelow(items, mids, activeCenter.value)
      else |items|;
    Clamp(raw, |items|)
  }

  /** The indicator `handleDragOver` sets; `None` clears it when the drag is over nothing. */
  function Indicator(cards: seq<Card>, overId: Option<string>, activeId: CardId,
                     activeCenter: Option<int>, overMiddle: Option<int>, mids: map<CardId, int>): (r: Option<DropIndicator>)
    ensures r.Some? <==> overId.Some?
    ensures r.Some? ==> r.value.status == OverStatus(cards, overId.value, activeId)
    ensures r.Some? ==> 0 <= r.value.index <= |Items(cards, r.value.status)|
  {
    match overId
    case None => None
    case Some(o) =>
      var target := OverStatus(cards, o, activeId);
      Some(DropIndicator(target, InsertionIndex(Items(cards, target), o, activeCenter, overMiddle, mids)))
  }

  /**
   * Over a card at index `k` of the target column, the index is `k`, or
   * `k + 1` when the dragged card's centre is below the card's middle.
   */
  lemma OverCardIndex(cards: seq<Card>, overId: string, activeId: CardId,
                      activeCenter: Option<int>, overMiddle: Option<int>, mids: map<CardId, int>, k: int)
    requires !IsStatusKey(overId)
    requires var items := Items(cards, OverStatus(cards, overId, activeId));
      0 <= k < |items| && items[k].id == overId && forall j :: 0 <= j < k ==> items[j].id != overId
    ensures Indicator(cards, Some(overId), activeId, activeCenter, overMiddle, mids).value.index ==
      if PlaceAfter(activeCenter, overMiddle) then k + 1 else k
  {
  }

  /** Over a card id that is not in the target column, the index is the end of the column. */
  lemma OverUnknownCard(cards: seq<Card>, overId: string, activeId: CardId,
                        activeCenter: Option<int>, overMiddle: Option<int>, mids: map<CardId, int>)
    requires !IsStatusKey(overId)
    requires forall c :: c in Items(cards, OverStatus(cards, overId, activeId)) ==> c.id != overId
    ensures var r := Indicator(cards, Some(overId), activeId, activeCenter, overMiddle, mids).value;
      r.index == |Items(cards, r.status)|
  {
  }

  /**
   * Over a column, the index is the first card whose element exists and
   * whose midpoint lies below the dragged card's centre, or the end of the
   * column when there is none or when the centre is unknown.
   */
  lemma OverColumnIndex(cards: seq<Card>, overId: string, activeId: CardId,
                        activeCenter: Option<int>, overMiddle: Option<int>, mids: map<CardId, int>)
    requires IsStatusKey(overId)
    ensures var r := Indicator(cards, Some(overId), activeId, activeCenter, overMiddle, mids).value;
      var items := Partition(cards).Col(StatusOf(overId).value);
      && r.status == StatusOf(overId)
      && (activeCenter.None? ==> r.index == |items|)
      && (activeCenter.Some? ==>
            (forall j :: 0 <= j < r.index ==> !MidBelow(items[j], mids, activeCenter.value))
            && (r.index < |items| ==> MidBelow(items[r.index], mids, activeCenter.value)))
  {
  }

  /** The body of `handleDragOver`: the target column, then the index within it. */
  method ComputeIndicator(cards: seq<Card>, overId: Option<string>, activeId: CardId,
                          activeCenter: Option<int>, overMiddle: Option<int>, mids: map<CardId, int>)
    returns (r: Option<DropIndicator>)
    ensures r == Indicator(cards, overId, activeId, activeCenter, overMiddle, mids)
  {
    if overId.None? {
      return None;
    }
    var o := overId.value;
    var target: Option<StatusKey>;
    if IsStatusKey(o) {
      target := StatusOf(o);
    } else {
      var overCard := FindCard(cards, o);
      if overCard.Some? {
        target := Some(overCard.value.status);
      } else {
        var active := FindCard(cards, activeId);
        target := if active.Some? then Some(active.value.status) else None;
      }
    }
    var items := if target.Some? then Sort(Column(cards, target.value)) else [];
    if target.Some? {
      PartitionCol(cards, target.value);
    }
    var index := ComputeIndex(items, o, activeCenter, overMiddle, mids);
    r := Some(DropIndicator(target, index));
  }

  /** The index computation of `handleDragOver`, with its scan over the rendered cards. */
  method ComputeIndex(items: seq<Card>, overId: string, activeCenter: Option<int>,
                      overMiddle: Option<int>, mids: map<CardId, int>) returns (index: int)
    ensures index == InsertionIndex(items, overId, activeCenter, overMiddle, mids)
  {
    index := |items|;
    if !IsStatusKey(overId) {
      var overIndex := FindIndex(items, overId);
      if overIndex >= 0 {
        var shouldPlaceAfter := false;
        if activeCenter.Some? && overMiddle.Some? {
          shouldPlaceAfter := activeCenter.value > overMiddle.value;
        }
        index := overIndex + (if shouldPlaceAfter then 1 else 0);
      }
    } else if activeCenter.Some? {
      var center := activeCenter.value;
      var computed := |items|;
      var i := 0;
      while i < |items|
        invariant 0 <= i <= |items|
        invariant computed == |items|
        invariant forall j :: 0 <= j < i ==> !MidBelow(items[j], mids, center)
      {
        if items[i].id !in mids {
          i := i + 1;
          continue;
        }
        var mid := mids[items[i].id];
        if center < mid {
          computed := i;
          break;
        }
        i := i + 1;
      }
      index := computed;
    }
    if index < 0 {
      index := 0;
    }
    if index > |items| {
      index := |items|;
    }
  }
}
