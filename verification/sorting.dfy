/**
 * `Array.prototype.sort` with a descending comparator, and `Array.prototype.slice(0, n)`.
 * JavaScript's sort is stable, so the model is a stable insertion sort: records that compare equal
 * keep their input order.
 */
module Sorting {
  import Seqs

  /** A sort key compared lexicographically: `major` first, `minor` breaks ties. */
  datatype Rank = Rank(major: real, minor: real)

  /** `a` may come before `b` in a descending order. */
  predicate RankGe(a: Rank, b: Rank) {
    a.major > b.major || (a.major == b.major && a.minor >= b.minor)
  }

  /** A single-number key. */
  function By(v: real): Rank {
    Rank(v, 0.0)
  }

  predicate SortedDesc<T>(s: seq<T>, key: T -> Rank) {
    forall i, j :: 0 <= i < j < |s| ==> RankGe(key(s[i]), key(s[j]))
  }

  /** Places `x` before the first element it does not rank below. */
  function Insert<T>(x: T, s: seq<T>, key: T -> Rank): (r: seq<T>)
    ensures multiset(r) == multiset(s) + multiset{x}
    ensures |r| == |s| + 1
  {
    if s == [] || RankGe(key(x), key(s[0])) then [x] + s
    else
      assert s == [s[0]] + s[1..];
      [s[0]] + Insert(x, s[1..], key)
  }

  /** The stable descending sort. */
  function SortDesc<T>(s: seq<T>, key: T -> Rank): (r: seq<T>)
    ensures multiset(r) == multiset(s)
    ensures |r| == |s|
  {
    if s == [] then []
    else
      assert s == [s[0]] + s[1..];
      Insert(s[0], SortDesc(s[1..], key), key)
  }

  lemma {:induction false} InsertSorted<T>(x: T, s: seq<T>, key: T -> Rank)
    requires SortedDesc(s, key)
    ensures SortedDesc(Insert(x, s, key), key)
  {
    if s != [] && !RankGe(key(x), key(s[0])) {
      InsertSorted(x, s[1..], key);
      var r := Insert(x, s, key);
      forall j | 0 < j < |r|
        ensures RankGe(key(r[0]), key(r[j]))
      {
        assert r[j] in multiset(Insert(x, s[1..], key));
        assert r[j] in multiset(s[1..]) + multiset{x};
        if r[j] != x {
          assert r[j] in s[1..];
          var k :| 0 <= k < |s[1..]| && s[1..][k] == r[j];
          assert s[1 + k] == r[j];
        }
      }
    }
  }

  /** The sort's output is in descending order and is a permutation of its input. */
  lemma {:induction false} SortDescSorted<T>(s: seq<T>, key: T -> Rank)
    ensures SortedDesc(SortDesc(s, key), key)
    ensures multiset(SortDesc(s, key)) == multiset(s)
  {
    if s != [] {
      SortDescSorted(s[1..], key);
      InsertSorted(s[0], SortDesc(s[1..], key), key);
    }
  }

  /** The records with key `k`, in order. */
  function WithKey<T>(s: seq<T>, key: T -> Rank, k: Rank): (r: seq<T>)
    ensures |r| <= |s|
  {
    if s == [] then []
    else (if key(s[0]) == k then [s[0]] else []) + WithKey(s[1..], key, k)
  }

  lemma {:induction false} InsertWithKey<T>(x: T, s: seq<T>, key: T -> Rank, k: Rank)
    requires SortedDesc(s, key)
    ensures WithKey(Insert(x, s, key), key, k)
         == (if key(x) == k then [x] else []) + WithKey(s, key, k)
  {
    if s == [] || RankGe(key(x), key(s[0])) {
      assert Insert(x, s, key)[1..] == s;
    } else {
      assert SortedDesc(s[1..], key) by {
        forall i, j | 0 <= i < j < |s[1..]|
          ensures RankGe(key(s[1..][i]), key(s[1..][j]))
        {
          assert s[1..][i] == s[i + 1] && s[1..][j] == s[j + 1];
        }
      }
      InsertWithKey(x, s[1..], key, k);
      assert Insert(x, s, key)[1..] == Insert(x, s[1..], key);
      assert key(s[0]) != key(x);
    }
  }

  /**
   * Stability: among the records sharing one key, the sort keeps the input order
   * (so on ties the earlier record stays first).
   */
  lemma {:induction false} SortDescStable<T>(s: seq<T>, key: T -> Rank, k: Rank)
    ensures WithKey(SortDesc(s, key), key, k) == WithKey(s, key, k)
  {
    if s != [] {
      SortDescStable(s[1..], key, k);
      SortDescSorted(s[1..], key);
      InsertWithKey(s[0], SortDesc(s[1..], key), key, k);
    }
  }

  /** Sorting input that is already in order changes nothing. */
  lemma {:induction false} SortDescOfSorted<T>(s: seq<T>, key: T -> Rank)
    requires SortedDesc(s, key)
    ensures SortDesc(s, key) == s
  {
    if s != [] {
      assert SortedDesc(s[1..], key) by {
        forall i, j | 0 <= i < j < |s[1..]|
          ensures RankGe(key(s[1..][i]), key(s[1..][j]))
        {
          assert s[1..][i] == s[i + 1] && s[1..][j] == s[j + 1];
        }
      }
      SortDescOfSorted(s[1..], key);
      assert s == [s[0]] + s[1..];
      if |s| > 1 {
        assert RankGe(key(s[0]), key(s[1]));
      }
    }
  }

  /** Sorting keeps exactly the elements it was given. */
  lemma SortDescHas<T>(s: seq<T>, key: T -> Rank, x: T)
    ensures x in SortDesc(s, key) <==> x in s
  {
    assert x in SortDesc(s, key) <==> x in multiset(SortDesc(s, key));
    assert x in s <==> x in multiset(s);
  }

  /** `s.slice(0, n)`: a negative `n` counts from the end. */
  function Slice<T>(s: seq<T>, n: int): (r: seq<T>)
    ensures |r| <= |s|
    ensures n >= 0 ==> |r| == (if n < |s| then n else |s|)
    ensures r == s[..|r|]
  {
    if n >= |s| then s
    else if n >= 0 then s[..n]
    else if |s| + n > 0 then s[..|s| + n]
    else []
  }

  /** A prefix of a descending sequence is descending. */
  lemma SortedPrefix<T>(s: seq<T>, n: nat, key: T -> Rank)
    requires SortedDesc(s, key) && n <= |s|
    ensures SortedDesc(s[..n], key)
  {
  }

  /** The elements a prefix of a descending sequence leaves behind rank no higher than the ones it keeps. */
  lemma {:induction false} PrefixOutranksRest<T>(sorted: seq<T>, m: nat, key: T -> Rank)
    requires SortedDesc(sorted, key) && m <= |sorted|
    ensures multiset(sorted[..m]) <= multiset(sorted)
    ensures forall x, y :: x in sorted[..m] && y in multiset(sorted) - multiset(sorted[..m]) ==> RankGe(key(x), key(y))
  {
    assert sorted == sorted[..m] + sorted[m..];
    assert multiset(sorted) == multiset(sorted[..m]) + multiset(sorted[m..]);
    forall x, y | x in sorted[..m] && y in multiset(sorted) - multiset(sorted[..m])
      ensures RankGe(key(x), key(y))
    {
      assert y in multiset(sorted[m..]);
      assert y in sorted[m..];
      var i :| 0 <= i < m && sorted[i] == x;
      var j :| 0 <= j < |sorted| - m && sorted[m..][j] == y;
      assert sorted[m + j] == y;
    }
  }

  /**
   * `[...s].sort(desc).slice(0, n)`: exactly `min(n, |s|)` elements for non-negative `n`, drawn from
   * `s`, and no element left out outranks one kept.
   */
  lemma TopChosen<T>(s: seq<T>, key: T -> Rank, n: int)
    ensures var top := Slice(SortDesc(s, key), n);
      && (n >= 0 ==> |top| == (if n < |s| then n else |s|))
      && multiset(top) <= multiset(s)
      && (forall x, y :: x in top && y in multiset(s) - multiset(top) ==> RankGe(key(x), key(y)))
      && (forall x, y :: x in top && y in s && y !in top ==> RankGe(key(x), key(y)))
  {
    var sorted := SortDesc(s, key);
    var top := Slice(sorted, n);
    SortDescSorted(s, key);
    PrefixOutranksRest(sorted, |top|, key);
    assert top == sorted[..|top|];
    forall x, y | x in top && y in s && y !in top
      ensures RankGe(key(x), key(y))
    {
      assert y in multiset(s) - multiset(top);
    }
  }

  /**
   * `[...s].sort(desc).slice(0, n)`: in order, at most `n` long, drawn from `s` without repeating an
   * element, all of `s` when `n` reaches its length, and empty only when `s` is (for positive `n`).
   */
  lemma TopOf<T>(s: seq<T>, key: T -> Rank, n: int)
    ensures var top := Slice(SortDesc(s, key), n);
      && SortedDesc(top, key)
      && (n >= 0 ==> |top| <= n)
      && (forall x :: x in top ==> x in s)
      && (Seqs.Distinct(s) ==> Seqs.Distinct(top))
      && (n >= |s| ==> multiset(top) == multiset(s))
      && (n > 0 ==> (top == [] <==> s == []))
  {
    var sorted := SortDesc(s, key);
    var top := Slice(sorted, n);
    SortDescSorted(s, key);
    SortedPrefix(sorted, |top|, key);
    forall x | x in top
      ensures x in s
    {
      assert x in multiset(sorted);
    }
    if Seqs.Distinct(s) {
      Seqs.DistinctPermutation(s, sorted);
    }
  }
}
