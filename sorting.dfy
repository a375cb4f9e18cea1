/** A stable sort by an integer key. JavaScript's `Array.prototype.sort` is
    stable, so `a.sort((x, y) => key(x) - key(y))` puts the elements in the
    order `SortBy` gives; a descending comparator is a sort by the negated key. */
module Sorting {

  predicate SortedBy<T>(s: seq<T>, key: T -> int) {
    forall i, j :: 0 <= i < j < |s| ==> key(s[i]) <= key(s[j])
  }

  /** The elements of `s` whose key is `k`, in their order in `s`. */
  function WithKey<T>(s: seq<T>, key: T -> int, k: int): (r: seq<T>)
    ensures |r| <= |s|
  {
    if s == [] then []
    else (if key(s[0]) == k then [s[0]] else []) + WithKey(s[1..], key, k)
  }

  /** Puts `x` in front of the first element whose key is not smaller. */
  function Insert<T>(x: T, s: seq<T>, key: T -> int): (r: seq<T>)
    ensures |r| == |s| + 1
    ensures multiset(r) == multiset(s) + multiset{x}
  {
    if s == [] then [x]
    else if key(x) <= key(s[0]) then [x] + s
    else
      assert s == [s[0]] + s[1..];
      [s[0]] + Insert(x, s[1..], key)
  }

  function SortBy<T>(s: seq<T>, key: T -> int): (r: seq<T>)
    ensures |r| == |s|
    ensures multiset(r) == multiset(s)
  {
    if s == [] then []
    else
      assert s == [s[0]] + s[1..];
      Insert(s[0], SortBy(s[1..], key), key)
  }

  lemma {:induction false} InsertSorted<T>(x: T, s: seq<T>, key: T -> int)
    requires SortedBy(s, key)
    ensures SortedBy(Insert(x, s, key), key)
  {
    if s != [] && key(x) > key(s[0]) {
      InsertSorted(x, s[1..], key);
      var r := Insert(x, s, key);
      var t := Insert(x, s[1..], key);
      assert r == [s[0]] + t;
      forall j | 0 < j < |r| ensures key(r[0]) <= key(r[j]) {
        assert r[j] in multiset(t);
        assert r[j] in multiset(s[1..]) + multiset{x};
        if r[j] != x {
          assert r[j] in s[1..];
        }
      }
    }
  }

  /** The result is ordered by the key and is a permutation of the input. */
  lemma {:induction false} SortBySorted<T>(s: seq<T>, key: T -> int)
    ensures SortedBy(SortBy(s, key), key)
    ensures multiset(SortBy(s, key)) == multiset(s)
  {
    if s != [] {
      SortBySorted(s[1..], key);
      InsertSorted(s[0], SortBy(s[1..], key), key);
    }
  }

  lemma {:induction false} WithKeyAppend<T>(a: seq<T>, b: seq<T>, key: T -> int, k: int)
    ensures WithKey(a + b, key, k) == WithKey(a, key, k) + WithKey(b, key, k)
  {
    if a != [] {
      WithKeyAppend(a[1..], b, key, k);
      assert (a + b)[1..] == a[1..] + b;
    } else {
      assert a + b == b;
    }
  }

  lemma {:induction false} InsertWithKey<T>(x: T, s: seq<T>, key: T -> int, k: int)
    requires SortedBy(s, key)
    ensures WithKey(Insert(x, s, key), key, k)
         == (if key(x) == k then [x] else []) + WithKey(s, key, k)
  {
    if s == [] {
    } else if key(x) <= key(s[0]) {
      assert ([x] + s)[1..] == s;
    } else {
      var t := Insert(x, s[1..], key);
      assert SortedBy(s[1..], key);
      InsertWithKey(x, s[1..], key, k);
      assert ([s[0]] + t)[1..] == t;
      assert WithKey([s[0]] + t, key, k) == (if key(s[0]) == k then [s[0]] else []) + WithKey(t, key, k);
      assert WithKey(s, key, k) == (if key(s[0]) == k then [s[0]] else []) + WithKey(s[1..], key, k);
      if key(x) == k {
        assert key(s[0]) != k;
      } else {
        assert WithKey(t, key, k) == WithKey(s[1..], key, k);
      }
    }
  }

  /** Stability: elements with equal keys keep their relative order. */
  lemma {:induction false} SortByStable<T>(s: seq<T>, key: T -> int, k: int)
    ensures WithKey(SortBy(s, key), key, k) == WithKey(s, key, k)
  {
    if s != [] {
      SortByStable(s[1..], key, k);
      SortBySorted(s[1..], key);
      InsertWithKey(s[0], SortBy(s[1..], key), key, k);
    }
  }

  /** The first `n` elements after sorting: ordered, drawn from the
      input, all of it when it has at most `n` elements, and together with
      the elements left behind exactly the input, none of which comes
      before a kept one by the key. */
  lemma TakeSorted<T>(s: seq<T>, key: T -> int, n: nat)
    ensures SortedBy(Take(SortBy(s, key), n), key)
    ensures forall k :: 0 <= k < |Take(SortBy(s, key), n)| ==> Take(SortBy(s, key), n)[k] in s
    ensures |s| <= n ==> multiset(Take(SortBy(s, key), n)) == multiset(s)
    ensures multiset(Take(SortBy(s, key), n)) + multiset(SortBy(s, key)[|Take(SortBy(s, key), n)|..]) == multiset(s)
    ensures forall x, y :: x in Take(SortBy(s, key), n) && y in SortBy(s, key)[|Take(SortBy(s, key), n)|..] ==>
      key(x) <= key(y)
    ensures multiset(Take(SortBy(s, key), n)) <= multiset(s)
    ensures forall x, y :: x in Take(SortBy(s, key), n) && y in multiset(s) - multiset(Take(SortBy(s, key), n)) ==>
      key(x) <= key(y)
  {
    var sorted := SortBy(s, key);
    var r := Take(sorted, n);
    SortBySorted(s, key);
    assert r == sorted[..|r|];
    SortedSplit(sorted, key, |r|);
    forall k | 0 <= k < |r| ensures r[k] in s {
      assert r[k] in multiset(sorted);
    }
  }

  /** Cutting a sorted sequence: both halves sorted, and nothing after
      the cut has a smaller key than anything before it. */
  lemma SortedSplit<T>(sorted: seq<T>, key: T -> int, m: nat)
    requires m <= |sorted| && SortedBy(sorted, key)
    ensures SortedBy(sorted[..m], key)
    ensures multiset(sorted[..m]) + multiset(sorted[m..]) == multiset(sorted)
    ensures multiset(sorted) - multiset(sorted[..m]) == multiset(sorted[m..])
    ensures forall x, y :: x in sorted[..m] && y in sorted[m..] ==> key(x) <= key(y)
  {
    assert sorted == sorted[..m] + sorted[m..];
    forall x, y | x in sorted[..m] && y in sorted[m..] ensures key(x) <= key(y) {
      var i :| 0 <= i < m && sorted[..m][i] == x;
      var j :| 0 <= j < |sorted| - m && sorted[m..][j] == y;
      assert sorted[i] == x && sorted[m + j] == y;
    }
  }

  /** The first `n` elements, as `s.slice(0, n)`. */
  function Take<T>(s: seq<T>, n: nat): (r: seq<T>)
    ensures |r| == if |s| < n then |s| else n
    ensures forall i :: 0 <= i < |r| ==> r[i] == s[i]
  {
    if |s| <= n then s else s[..n]
  }
}
