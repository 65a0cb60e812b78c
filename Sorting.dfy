/**
 * Sorting by a numeric key, as the list pages sort with `Array.prototype.sort` and a
 * comparator that subtracts keys: ascending by key, ties kept in their original order.
 */
module Sorting {

  /** No element occurs twice. */
  predicate Distinct<T(==)>(xs: seq<T>)
  {
    forall i, j :: 0 <= i < j < |xs| ==> xs[i] != xs[j]
  }

  /** Keys never decrease along the sequence. */
  ghost predicate SortedBy<T>(xs: seq<T>, key: T -> real)
  {
    forall i, j :: 0 <= i < j < |xs| ==> key(xs[i]) <= key(xs[j])
  }

  /** `x` placed before the first element whose key is not smaller, so earlier equals stay first. */
  function Insert<T>(x: T, xs: seq<T>, key: T -> real): (r: seq<T>)
    ensures |r| == |xs| + 1
    ensures multiset(r) == multiset(xs) + multiset{x}
  {
    if xs == [] then [x]
    else if key(x) <= key(xs[0]) then [x] + xs
    else
      assert xs == [xs[0]] + xs[1..];
      [xs[0]] + Insert(x, xs[1..], key)
  }

  /** Insertion sort: the head inserted into the sorted tail. */
  function SortByKey<T>(xs: seq<T>, key: T -> real): (r: seq<T>)
    ensures |r| == |xs|
    ensures multiset(r) == multiset(xs)
  {
    if xs == [] then []
    else
      assert xs == [xs[0]] + xs[1..];
      Insert(xs[0], SortByKey(xs[1..], key), key)
  }

  /** A lower bound of `x` and of every key in `xs` bounds every key after the insertion. */
  lemma {:induction false} InsertBounded<T>(x: T, xs: seq<T>, key: T -> real, b: real)
    requires b <= key(x) && forall k :: 0 <= k < |xs| ==> b <= key(xs[k])
    ensures forall k :: 0 <= k < |xs| + 1 ==> b <= key(Insert(x, xs, key)[k])
  {
    if xs != [] && key(x) > key(xs[0]) {
      InsertBounded(x, xs[1..], key, b);
    }
  }

  lemma {:induction false} InsertSorted<T>(x: T, xs: seq<T>, key: T -> real)
    requires SortedBy(xs, key)
    ensures SortedBy(Insert(x, xs, key), key)
  {
    if xs != [] && key(x) > key(xs[0]) {
      var tail := Insert(x, xs[1..], key);
      InsertSorted(x, xs[1..], key);
      InsertBounded(x, xs[1..], key, key(xs[0]));
      var r := [xs[0]] + tail;
      assert forall k :: 0 < k < |r| ==> r[k] == tail[k - 1];
    }
  }

  /** The result is sorted by the key. */
  lemma {:induction false} SortSorted<T>(xs: seq<T>, key: T -> real)
    ensures SortedBy(SortByKey(xs, key), key)
  {
    if xs != [] {
      SortSorted(xs[1..], key);
      InsertSorted(xs[0], SortByKey(xs[1..], key), key);
    }
  }

  /** A sorted sequence is left as it is. */
  lemma {:induction false} SortKeepsSorted<T>(xs: seq<T>, key: T -> real)
    requires SortedBy(xs, key)
    ensures SortByKey(xs, key) == xs
  {
    if xs != [] {
      assert SortedBy(xs[1..], key);
      SortKeepsSorted(xs[1..], key);
      if |xs| > 1 {
        assert key(xs[0]) <= key(xs[1]);
      }
    }
  }

  /** The elements whose key is `v`, in sequence order. */
  function WithKey<T>(xs: seq<T>, key: T -> real, v: real): seq<T>
  {
    if xs == [] then [] else (if key(xs[0]) == v then [xs[0]] else []) + WithKey(xs[1..], key, v)
  }

  lemma WithKeyCons<T>(a: T, rest: seq<T>, key: T -> real, v: real)
    ensures WithKey([a] + rest, key, v) == (if key(a) == v then [a] else []) + WithKey(rest, key, v)
  {
    assert ([a] + rest)[1..] == rest;
  }

  /** Inserting `x` adds it at the front of the elements with its key. */
  lemma {:induction false} InsertWithKey<T>(x: T, xs: seq<T>, key: T -> real, v: real)
    ensures WithKey(Insert(x, xs, key), key, v) == (if key(x) == v then [x] else []) + WithKey(xs, key, v)
  {
    if xs == [] || key(x) <= key(xs[0]) {
      assert Insert(x, xs, key) == [x] + xs;
      WithKeyCons(x, xs, key, v);
    } else {
      var tail := Insert(x, xs[1..], key);
      InsertWithKey(x, xs[1..], key, v);
      assert Insert(x, xs, key) == [xs[0]] + tail;
      WithKeyCons(xs[0], tail, key, v);
      WithKeyCons(xs[0], xs[1..], key, v);
      assert xs == [xs[0]] + xs[1..];
      SwapEmpty(if key(xs[0]) == v then [xs[0]] else [], if key(x) == v then [x] else [], WithKey(xs[1..], key, v));
    }
  }

  /** Two pieces of which one is empty can be put in either order. */
  lemma SwapEmpty<T>(h: seq<T>, e: seq<T>, w: seq<T>)
    requires h == [] || e == []
    ensures h + (e + w) == e + (h + w)
  {
  }

  /** Stability: the elements of each key keep their relative order. */
  lemma {:induction false} SortStable<T>(xs: seq<T>, key: T -> real, v: real)
    ensures WithKey(SortByKey(xs, key), key, v) == WithKey(xs, key, v)
  {
    if xs != [] {
      SortStable(xs[1..], key, v);
      InsertWithKey(xs[0], SortByKey(xs[1..], key), key, v);
    }
  }
}
