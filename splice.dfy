/**
 * `Array.prototype.splice` as the drop handler uses it: remove one element
 * (`list.splice(i, 1)`) and insert one element (`list.splice(i, 0, x)`).
 */
module Splice {
  import opened Cards

  /** `list.splice(i, 1)`: the list without its element at `i`. */
  function RemoveAt<T>(list: seq<T>, i: int): (r: seq<T>)
    requires 0 <= i < |list|
    ensures |r| == |list| - 1
    ensures forall j :: 0 <= j < i ==> r[j] == list[j]
    ensures forall j :: i <= j < |r| ==> r[j] == list[j + 1]
  {
    list[..i] + list[i + 1..]
  }

  /** `list.splice(i, 0, x)`: `x` now stands at `i`, the elements from `i` on move one place right. */
  function InsertAt<T>(list: seq<T>, i: int, x: T): (r: seq<T>)
    requires 0 <= i <= |list|
    ensures |r| == |list| + 1 && r[i] == x
    ensures forall j :: 0 <= j < i ==> r[j] == list[j]
    ensures forall j :: i < j < |r| ==> r[j] == list[j - 1]
  {
    list[..i] + [x] + list[i..]
  }

  /** Inserting what was removed, at the same place, gives the list back. */
  lemma InsertRemoved<T>(list: seq<T>, i: int)
    requires 0 <= i < |list|
    ensures InsertAt(RemoveAt(list, i), i, list[i]) == list
  {
  }

  lemma RemoveAtMultiset<T>(list: seq<T>, i: int)
    requires 0 <= i < |list|
    ensures multiset(RemoveAt(list, i)) + multiset{list[i]} == multiset(list)
  {
    assert list == list[..i] + [list[i]] + list[i + 1..];
  }

  lemma InsertAtMultiset<T>(list: seq<T>, i: int, x: T)
    requires 0 <= i <= |list|
    ensures multiset(InsertAt(list, i, x)) == multiset(list) + multiset{x}
  {
    assert list == list[..i] + list[i..];
  }

  /** Every element of the shortened list was in the list. */
  lemma InRemoveAt<T>(list: seq<T>, i: int, y: T)
    requires 0 <= i < |list| && y in RemoveAt(list, i)
    ensures y in list
  {
    RemoveAtMultiset(list, i);
    assert y in multiset(RemoveAt(list, i));
  }

  /** An element of the longer list is the inserted one or was there before. */
  lemma InInsertAt<T>(list: seq<T>, i: int, x: T, y: T)
    requires 0 <= i <= |list| && y in InsertAt(list, i, x)
    ensures y == x || y in list
  {
    InsertAtMultiset(list, i, x);
    assert y in multiset(InsertAt(list, i, x));
  }

  lemma IdsRemoveAt(list: seq<Card>, i: int)
    requires 0 <= i < |list|
    ensures Ids(RemoveAt(list, i)) == RemoveAt(Ids(list), i)
  {
  }

  lemma IdsInsertAt(list: seq<Card>, i: int, x: Card)
    requires 0 <= i <= |list|
    ensures Ids(InsertAt(list, i, x)) == InsertAt(Ids(list), i, x.id)
  {
  }

  /**
   * The same-column move of the fast path: the element at `from` is taken
   * out and `moved` (that element with a new timestamp) is put in at `to`,
   * an index computed on the list before the removal.
   */
  function ArrayMove<T>(list: seq<T>, from: int, to: int, moved: T): (r: seq<T>)
    requires 0 <= from < |list| && 0 <= to < |list|
    ensures |r| == |list| && r[to] == moved
    ensures RemoveAt(r, to) == RemoveAt(list, from)
  {
    InsertAt(RemoveAt(list, from), to, moved)
  }
}
