/**
  Sorting rows by a two-column key, as `sort_values(by=[a, b])` does.

  A sort on several columns goes through a lexicographic sort, which is
  stable: rows with equal keys keep their input order. The model uses an
  insertion sort and proves the same three facts: the result is ordered by
  the key, is a permutation of the input, and keeps every key's rows in
  their input order.
 */
module Sorting {

  type Key = (int, int)

  /** Lexicographic order on (first column, second column). */
  predicate KeyLeq(a: Key, b: Key)
  {
    a.0 < b.0 || (a.0 == b.0 && a.1 <= b.1)
  }

  /** No value occurs twice, as for the keys of a dict or the result of `.unique()`. */
  predicate Distinct(xs: seq<int>)
  {
    forall i, j :: 0 <= i < j < |xs| ==> xs[i] != xs[j]
  }

  ghost predicate SortedBy<T>(xs: seq<T>, key: T -> Key)
  {
    forall i, j :: 0 <= i < j < |xs| ==> KeyLeq(key(xs[i]), key(xs[j]))
  }

  /** Inserts `x` in front of the first element whose key is not below its own. */
  function Insert<T(==)>(x: T, xs: seq<T>, key: T -> Key): (r: seq<T>)
    requires SortedBy(xs, key)
    ensures SortedBy(r, key)
    ensures multiset(r) == multiset(xs) + multiset{x}
    ensures |r| == |xs| + 1
    decreases |xs|
  {
    if |xs| == 0 then
      [x]
    else if KeyLeq(key(x), key(xs[0])) then
      [x] + xs
    else
      var rest := Insert(x, xs[1..], key);
      InsertBehindHead(x, xs, rest, key);
      [xs[0]] + rest
  }

  /** Putting the head back in front of the insertion into the tail keeps the order. */
  lemma InsertBehindHead<T>(x: T, xs: seq<T>, rest: seq<T>, key: T -> Key)
    requires |xs| > 0 && SortedBy(xs, key) && !KeyLeq(key(x), key(xs[0]))
    requires SortedBy(rest, key) && multiset(rest) == multiset(xs[1..]) + multiset{x}
    ensures SortedBy([xs[0]] + rest, key)
    ensures multiset([xs[0]] + rest) == multiset(xs) + multiset{x}
  {
    assert xs == [xs[0]] + xs[1..];
    var all := [xs[0]] + rest;
    forall k | 0 <= k < |rest|
      ensures KeyLeq(key(xs[0]), key(rest[k]))
    {
      assert rest[k] in multiset(xs[1..]) + multiset{x};
      if rest[k] != x {
        var m :| 0 <= m < |xs[1..]| && xs[1..][m] == rest[k];
        assert xs[1 + m] == rest[k];
      }
    }
    forall i, j | 0 <= i < j < |all|
      ensures KeyLeq(key(all[i]), key(all[j]))
    {
      assert all[j] == rest[j - 1];
      if i > 0 {
        assert all[i] == rest[i - 1];
      }
    }
  }

  /** The rows of `xs` ordered by `key`. */
  function SortBy<T(==)>(xs: seq<T>, key: T -> Key): (r: seq<T>)
    ensures SortedBy(r, key)
    ensures multiset(r) == multiset(xs)
    ensures |r| == |xs|
  {
    if |xs| == 0 then
      []
    else
      assert xs == [xs[0]] + xs[1..];
      Insert(xs[0], SortBy(xs[1..], key), key)
  }

  /** The elements of `xs` whose key is `k`, in their order in `xs`. */
  function WithKey<T>(xs: seq<T>, key: T -> Key, k: Key): seq<T>
  {
    if |xs| == 0 then []
    else (if key(xs[0]) == k then [xs[0]] else []) + WithKey(xs[1..], key, k)
  }

  lemma WithKeyCons<T>(h: T, xs: seq<T>, key: T -> Key, k: Key)
    ensures WithKey([h] + xs, key, k) == (if key(h) == k then [h] else []) + WithKey(xs, key, k)
  {
    assert ([h] + xs)[1..] == xs;
  }

  /**
    Inserting `x` puts it in front of every element with the same key and
    leaves the order among the others alone.
   */
  lemma {:induction false} InsertStable<T>(x: T, xs: seq<T>, key: T -> Key, k: Key)
    requires SortedBy(xs, key)
    ensures WithKey(Insert(x, xs, key), key, k)
         == (if key(x) == k then [x] else []) + WithKey(xs, key, k)
    decreases |xs|
  {
    if |xs| == 0 {
      WithKeyCons(x, xs, key, k);
    } else if KeyLeq(key(x), key(xs[0])) {
      WithKeyCons(x, xs, key, k);
    } else {
      InsertBehind(x, xs, key, k);
    }
  }

  /** The step of `InsertStable` where `x` goes behind the head. */
  lemma {:induction false} InsertBehind<T>(x: T, xs: seq<T>, key: T -> Key, k: Key)
    requires SortedBy(xs, key) && |xs| > 0 && !KeyLeq(key(x), key(xs[0]))
    ensures WithKey(Insert(x, xs, key), key, k)
         == (if key(x) == k then [x] else []) + WithKey(xs, key, k)
    decreases |xs|, 0
  {
    var rest := Insert(x, xs[1..], key);
    assert Insert(x, xs, key) == [xs[0]] + rest;
    InsertStable(x, xs[1..], key, k);
    WithKeyCons(xs[0], rest, key, k);
    assert xs == [xs[0]] + xs[1..];
    WithKeyCons(xs[0], xs[1..], key, k);
    if key(x) == k {
      assert key(xs[0]) != k;
    }
  }

  /** Sorting is stable: for every key, its elements keep their input order. */
  lemma {:induction false} SortByStable<T>(xs: seq<T>, key: T -> Key, k: Key)
    ensures WithKey(SortBy(xs, key), key, k) == WithKey(xs, key, k)
    decreases |xs|
  {
    if |xs| > 0 {
      SortByStable(xs[1..], key, k);
      InsertStable(xs[0], SortBy(xs[1..], key), key, k);
    }
  }
}
