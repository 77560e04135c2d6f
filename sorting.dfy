/**
  `Array.prototype.sort` with a comparator, as used by the convergence
  `listTop`, the wallet ranking `topWallets` and the `/convergence` route.
  A comparator `(a, b) => ...` that returns a non-positive number when `a` may
  stay before `b` is modelled as the relation `le(a, b)`; the sort is an
  insertion sort, proved ordered and a permutation of its input. The order
  it leaves between equal elements is not part of its contract.
*/
module Sorting {

  /** `le` orders every pair of elements and is transitive. */
  ghost predicate TotalPreorder<T(!new)>(le: (T, T) -> bool) {
    && (forall a, b :: le(a, b) || le(b, a))
    && (forall a, b, c :: le(a, b) && le(b, c) ==> le(a, c))
  }

  predicate SortedBy<T>(s: seq<T>, le: (T, T) -> bool) {
    forall i, j :: 0 <= i < j < |s| ==> le(s[i], s[j])
  }

  /** Puts `x` after every element that may precede it. */
  method Insert<T(!new)>(s: seq<T>, x: T, le: (T, T) -> bool) returns (r: seq<T>)
    requires TotalPreorder(le)
    requires SortedBy(s, le)
    ensures SortedBy(r, le)
    ensures multiset(r) == multiset(s) + multiset{x}
    ensures |r| == |s| + 1
  {
    var i := 0;
    while i < |s| && le(s[i], x)
      invariant 0 <= i <= |s|
      invariant forall k :: 0 <= k < i ==> le(s[k], x)
    {
      i := i + 1;
    }
    if i < |s| {
      assert le(x, s[i]);
      assert forall k :: i <= k < |s| ==> le(x, s[k]);
    }
    r := s[..i] + [x] + s[i..];
    assert s == s[..i] + s[i..];
  }

  /** Sorts `s` by `le`: the result is ordered and is a permutation of `s`. */
  method SortBy<T(!new)>(s: seq<T>, le: (T, T) -> bool) returns (r: seq<T>)
    requires TotalPreorder(le)
    ensures SortedBy(r, le)
    ensures multiset(r) == multiset(s)
    ensures |r| == |s|
  {
    r := [];
    var n := 0;
    while n < |s|
      invariant 0 <= n <= |s|
      invariant SortedBy(r, le)
      invariant multiset(r) == multiset(s[..n])
      invariant |r| == n
    {
      r := Insert(r, s[n], le);
      assert s[..n + 1] == s[..n] + [s[n]];
      n := n + 1;
    }
    assert s[..n] == s;
  }

  /** Sorting by one field keeps another field distinct: a permutation of a
      list whose elements have distinct keys holds only elements of the list,
      again with distinct keys. */
  lemma PermutationKeepsKeysDistinct<T, K>(a: seq<T>, b: seq<T>, key: T -> K)
    requires multiset(a) == multiset(b)
    requires forall i, j :: 0 <= i < j < |a| ==> key(a[i]) != key(a[j])
    ensures forall i :: 0 <= i < |b| ==> b[i] in a
    ensures forall i, j :: 0 <= i < j < |b| ==> key(b[i]) != key(b[j])
  {
    forall i | 0 <= i < |b| ensures b[i] in a {
      assert b[i] in multiset(b);
    }
    forall i, j | 0 <= i < j < |b| ensures key(b[i]) != key(b[j]) {
      assert b[i] in multiset(b) && b[j] in multiset(b);
      var p :| 0 <= p < |a| && a[p] == b[i];
      var q :| 0 <= q < |a| && a[q] == b[j];
      OccursOnce(a, p, key);
      CountTwo(b, i, j);
      assert p != q;
    }
  }

  /** In a list with distinct keys every element occurs once. */
  lemma OccursOnce<T, K>(a: seq<T>, p: int, key: T -> K)
    requires 0 <= p < |a|
    requires forall i, j :: 0 <= i < j < |a| ==> key(a[i]) != key(a[j])
    ensures multiset(a)[a[p]] == 1
  {
    assert a == a[..p] + [a[p]] + a[p + 1..];
    forall k | 0 <= k < |a| && k != p ensures a[k] != a[p] {
      if k < p { assert key(a[k]) != key(a[p]); } else { assert key(a[p]) != key(a[k]); }
    }
    assert a[p] !in a[..p];
    assert a[p] !in a[p + 1..];
  }

  /** An element found at two positions occurs at least twice. */
  lemma CountTwo<T>(b: seq<T>, i: int, j: int)
    requires 0 <= i < j < |b|
    ensures b[i] == b[j] ==> multiset(b)[b[i]] >= 2
  {
    assert b == b[..i] + [b[i]] + b[i + 1..j] + [b[j]] + b[j + 1..];
  }

  /** The first `n` elements of a sorted permutation of `all` are its best:
      each of them may precede every element of `all` left out of them. */
  lemma PrefixHoldsBest<T>(all: seq<T>, sorted: seq<T>, n: int, le: (T, T) -> bool)
    requires multiset(all) == multiset(sorted) && SortedBy(sorted, le)
    requires 0 <= n <= |sorted|
    ensures forall i, j :: 0 <= i < n && 0 <= j < |all| && all[j] !in sorted[..n] ==> le(sorted[i], all[j])
  {
    forall i, j | 0 <= i < n && 0 <= j < |all| && all[j] !in sorted[..n] ensures le(sorted[i], all[j]) {
      assert forall m :: 0 <= m < n ==> sorted[m] == sorted[..n][m];
      assert all[j] in multiset(sorted);
      var p :| 0 <= p < |sorted| && sorted[p] == all[j];
    }
  }
}
