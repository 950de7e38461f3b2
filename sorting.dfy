/** Python's `list.sort(key=...)` as used by both clients to order offers by
    price: a stable sort. Modelled as an insertion sort on values; its three
    properties (ordered, permutation, stable) are proved below. */
module Sorting {

  /** `s` is in non-decreasing order of `key`. */
  ghost predicate SortedBy<T>(s: seq<T>, key: T -> real) {
    forall i, j :: 0 <= i < j < |s| ==> key(s[i]) <= key(s[j])
  }

  /** The elements of `s` whose key is `k`, in their order in `s`. */
  function WithKey<T>(s: seq<T>, key: T -> real, k: real): (r: seq<T>)
    ensures forall x :: x in r ==> x in s && key(x) == k
  {
    if s == [] then []
    else (if key(s[0]) == k then [s[0]] else []) + WithKey(s[1..], key, k)
  }

  /** Puts `x` in front of the first element whose key is not smaller. */
  function Insert<T>(x: T, s: seq<T>, key: T -> real): seq<T> {
    if s == [] || key(x) <= key(s[0]) then [x] + s
    else [s[0]] + Insert(x, s[1..], key)
  }

  /** The list after `.sort(key=key)`. */
  function SortByKey<T>(s: seq<T>, key: T -> real): seq<T> {
    if s == [] then [] else Insert(s[0], SortByKey(s[1..], key), key)
  }

  lemma {:induction false} InsertPermutes<T>(x: T, s: seq<T>, key: T -> real)
    ensures multiset(Insert(x, s, key)) == multiset(s) + multiset{x}
    ensures |Insert(x, s, key)| == |s| + 1
  {
    if s == [] || key(x) <= key(s[0]) {
    } else {
      InsertPermutes(x, s[1..], key);
      assert s == [s[0]] + s[1..];
    }
  }

  lemma {:induction false} InsertBound<T>(x: T, s: seq<T>, key: T -> real, b: real)
    requires b <= key(x)
    requires forall i :: 0 <= i < |s| ==> b <= key(s[i])
    ensures forall i :: 0 <= i < |Insert(x, s, key)| ==> b <= key(Insert(x, s, key)[i])
  {
    if s == [] || key(x) <= key(s[0]) {
    } else {
      InsertBound(x, s[1..], key, b);
    }
  }

  lemma {:induction false} InsertSorted<T>(x: T, s: seq<T>, key: T -> real)
    requires SortedBy(s, key)
    ensures SortedBy(Insert(x, s, key), key)
  {
    if s == [] || key(x) <= key(s[0]) {
    } else {
      InsertSorted(x, s[1..], key);
      InsertBound(x, s[1..], key, key(s[0]));
    }
  }

  lemma WithKeyCons<T>(y: T, t: seq<T>, key: T -> real, k: real)
    ensures WithKey([y] + t, key, k) == (if key(y) == k then [y] else []) + WithKey(t, key, k)
  {
    assert ([y] + t)[1..] == t;
  }

  lemma {:induction false} InsertWithKey<T>(x: T, s: seq<T>, key: T -> real, k: real)
    ensures WithKey(Insert(x, s, key), key, k)
         == (if key(x) == k then [x] else []) + WithKey(s, key, k)
  {
    if s == [] || key(x) <= key(s[0]) {
      WithKeyCons(x, s, key, k);
    } else {
      var rest := Insert(x, s[1..], key);
      assert Insert(x, s, key) == [s[0]] + rest;
      InsertWithKey(x, s[1..], key, k);
      WithKeyCons(s[0], rest, key, k);
      var w := WithKey(s[1..], key, k);
      if key(x) == k {
        assert key(s[0]) != k;
        assert WithKey(s, key, k) == w;
      } else {
        assert WithKey(rest, key, k) == w;
      }
    }
  }

  lemma {:induction false} SortByKeyPermutes<T>(s: seq<T>, key: T -> real)
    ensures multiset(SortByKey(s, key)) == multiset(s)
    ensures |SortByKey(s, key)| == |s|
  {
    if s != [] {
      SortByKeyPermutes(s[1..], key);
      InsertPermutes(s[0], SortByKey(s[1..], key), key);
      assert s == [s[0]] + s[1..];
    }
  }

  lemma {:induction false} SortByKeyOrdered<T>(s: seq<T>, key: T -> real)
    ensures SortedBy(SortByKey(s, key), key)
  {
    if s != [] {
      SortByKeyOrdered(s[1..], key);
      InsertSorted(s[0], SortByKey(s[1..], key), key);
    }
  }

  /** The sorted list is ordered by key and is a permutation of the input. */
  lemma SortByKeySorted<T>(s: seq<T>, key: T -> real)
    ensures SortedBy(SortByKey(s, key), key)
    ensures multiset(SortByKey(s, key)) == multiset(s)
    ensures |SortByKey(s, key)| == |s|
  {
    SortByKeyOrdered(s, key);
    SortByKeyPermutes(s, key);
  }

  /** Stability: elements with equal keys keep their relative order. */
  lemma {:induction false} SortByKeyStable<T>(s: seq<T>, key: T -> real, k: real)
    ensures WithKey(SortByKey(s, key), key, k) == WithKey(s, key, k)
  {
    if s != [] {
      SortByKeyStable(s[1..], key, k);
      InsertWithKey(s[0], SortByKey(s[1..], key), key, k);
    }
  }

  /** Taking a prefix keeps the order of the elements of each key. */
  lemma {:induction false} WithKeyPrefix<T>(p: seq<T>, s: seq<T>, key: T -> real, k: real)
    requires p <= s
    ensures WithKey(p, key, k) <= WithKey(s, key, k)
  {
    if p != [] {
      WithKeyPrefix(p[1..], s[1..], key, k);
    }
  }

  /** A prefix of an ordered list is ordered. */
  lemma SortedPrefix<T>(p: seq<T>, s: seq<T>, key: T -> real)
    requires p <= s && SortedBy(s, key)
    ensures SortedBy(p, key)
  {
  }

  /** A prefix of an ordered list holds its cheapest elements: nothing left
      behind costs less than anything kept. */
  lemma SortedPrefixCheapest<T>(p: seq<T>, s: seq<T>, key: T -> real)
    requires p <= s && SortedBy(s, key)
    ensures forall x, o :: x in p && o in multiset(s) - multiset(p) ==> key(x) <= key(o)
  {
    var rest := s[|p|..];
    assert s == p + rest;
    assert multiset(s) - multiset(p) == multiset(rest);
    forall x, o | x in p && o in multiset(s) - multiset(p) ensures key(x) <= key(o) {
      assert o in rest;
      var i :| 0 <= i < |p| && p[i] == x;
      var j :| 0 <= j < |rest| && rest[j] == o;
      assert s[i] == x && s[|p| + j] == o;
    }
  }
}
