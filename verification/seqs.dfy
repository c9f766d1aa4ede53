/** `Array.prototype.map`, `filter` and `flat` as functions, each defined from the back like a push loop. */
module Seqs {

  function Map<A, B>(f: A -> B, s: seq<A>): (r: seq<B>)
    ensures |r| == |s|
  {
    if s == [] then [] else Map(f, s[..|s| - 1]) + [f(s[|s| - 1])]
  }

  lemma {:induction false} MapAt<A, B>(f: A -> B, s: seq<A>)
    ensures forall i :: 0 <= i < |s| ==> Map(f, s)[i] == f(s[i])
  {
    if s != [] {
      MapAt(f, s[..|s| - 1]);
    }
  }

  lemma MapSnoc<A, B>(f: A -> B, s: seq<A>, x: A)
    ensures Map(f, s + [x]) == Map(f, s) + [f(x)]
  {
    assert (s + [x])[..|s|] == s;
  }

  function Filter<A>(p: A -> bool, s: seq<A>): (r: seq<A>)
    ensures |r| <= |s|
    ensures forall x :: x in r ==> x in s && p(x)
  {
    if s == [] then []
    else Filter(p, s[..|s| - 1]) + (if p(s[|s| - 1]) then [s[|s| - 1]] else [])
  }

  lemma FilterSnoc<A>(p: A -> bool, s: seq<A>, x: A)
    ensures Filter(p, s + [x]) == Filter(p, s) + (if p(x) then [x] else [])
  {
    assert (s + [x])[..|s|] == s;
  }

  /** A filter every element passes keeps the sequence. */
  lemma {:induction false} FilterAll<A>(p: A -> bool, s: seq<A>)
    requires forall x :: x in s ==> p(x)
    ensures Filter(p, s) == s
  {
    if s != [] {
      var init := s[..|s| - 1];
      assert s == init + [s[|s| - 1]];
      FilterAll(p, init);
    }
  }

  /** Keeps exactly the elements satisfying `p`, each as often as it occurs. */
  lemma {:induction false} FilterMultiset<A>(p: A -> bool, s: seq<A>)
    ensures forall x :: multiset(Filter(p, s))[x] == (if p(x) then multiset(s)[x] else 0)
  {
    if s != [] {
      FilterMultiset(p, s[..|s| - 1]);
      assert s == s[..|s| - 1] + [s[|s| - 1]];
    }
  }

  /** An element of `s` that satisfies `p` survives the filter. */
  lemma {:induction false} FilterHas<A>(p: A -> bool, s: seq<A>, x: A)
    requires x in s && p(x)
    ensures x in Filter(p, s)
  {
    var init := s[..|s| - 1];
    assert s == init + [s[|s| - 1]];
    if x != s[|s| - 1] {
      FilterHas(p, init, x);
    }
  }

  function Flatten<A>(ss: seq<seq<A>>): (r: seq<A>) {
    if ss == [] then [] else Flatten(ss[..|ss| - 1]) + ss[|ss| - 1]
  }

  /** Flattening keeps every element of every part. */
  lemma {:induction false} FlattenMultiset<A>(ss: seq<seq<A>>)
    ensures |Flatten(ss)| == SumLengths(ss)
    ensures forall i, x :: 0 <= i < |ss| && x in ss[i] ==> x in Flatten(ss)
  {
    if ss != [] {
      FlattenMultiset(ss[..|ss| - 1]);
      forall i, x | 0 <= i < |ss| && x in ss[i]
        ensures x in Flatten(ss)
      {
        if i < |ss| - 1 {
          assert ss[..|ss| - 1][i] == ss[i];
        }
      }
    }
  }

  /** `flatMap`: the parts `f` gives for each element, concatenated in order. */
  function FlatMap<A, B>(f: A -> seq<B>, s: seq<A>): seq<B> {
    if s == [] then [] else FlatMap(f, s[..|s| - 1]) + f(s[|s| - 1])
  }

  lemma FlatMapSnoc<A, B>(f: A -> seq<B>, s: seq<A>, x: A)
    ensures FlatMap(f, s + [x]) == FlatMap(f, s) + f(x)
  {
    assert (s + [x])[..|s|] == s;
  }

  /** When each element gives at most one part, there are at most as many parts as elements. */
  lemma {:induction false} FlatMapAtMostOne<A, B>(f: A -> seq<B>, s: seq<A>)
    requires forall x :: |f(x)| <= 1
    ensures |FlatMap(f, s)| <= |s|
  {
    if s != [] {
      FlatMapAtMostOne(f, s[..|s| - 1]);
    }
  }

  /** A property of every part of every element holds of the flattened result. */
  lemma {:induction false} FlatMapAll<A, B>(f: A -> seq<B>, s: seq<A>, P: B -> bool)
    requires forall x, b :: b in f(x) ==> P(b)
    ensures forall b :: b in FlatMap(f, s) ==> P(b)
  {
    if s != [] {
      FlatMapAll(f, s[..|s| - 1], P);
    }
  }

  /** An element giving its image when it passes a test, else nothing, is a filter then a map. */
  lemma {:induction false} FlatMapIsFilterMap<A, B, C>(f: A -> seq<B>, g: A -> C, p: C -> bool, h: C -> B, s: seq<A>)
    requires forall x :: f(x) == (if p(g(x)) then [h(g(x))] else [])
    ensures FlatMap(f, s) == Map(h, Filter(p, Map(g, s)))
  {
    if s != [] {
      var init := s[..|s| - 1];
      var x := s[|s| - 1];
      assert init + [x] == s;
      var kept := Filter(p, Map(g, init));
      calc {
        FlatMap(f, s);
        { FlatMapSnoc(f, init, x); }
        FlatMap(f, init) + f(x);
        { FlatMapIsFilterMap(f, g, p, h, init); }
        Map(h, kept) + f(x);
        { if p(g(x)) { MapSnoc(h, kept, g(x)); } else { assert kept + [] == kept; } }
        Map(h, kept + (if p(g(x)) then [g(x)] else []));
        { FilterSnoc(p, Map(g, init), g(x)); }
        Map(h, Filter(p, Map(g, init) + [g(x)]));
        { MapSnoc(g, init, x); }
        Map(h, Filter(p, Map(g, s)));
      }
    }
  }

  function SumLengths<A>(ss: seq<seq<A>>): nat {
    if ss == [] then 0 else SumLengths(ss[..|ss| - 1]) + |ss[|ss| - 1]|
  }

  /** Two tests that agree on every element filter alike. */
  lemma {:induction false} FilterExt<A>(p: A -> bool, q: A -> bool, s: seq<A>)
    requires forall x :: p(x) == q(x)
    ensures Filter(p, s) == Filter(q, s)
  {
    if s != [] {
      FilterExt(p, q, s[..|s| - 1]);
    }
  }

  /** Filtering keeps the relative order: a kept element precedes the later kept ones. */
  lemma {:induction false} FilterOrdered<A>(p: A -> bool, s: seq<A>, le: (A, A) -> bool)
    requires forall i, j :: 0 <= i < j < |s| ==> le(s[i], s[j])
    ensures forall i, j :: 0 <= i < j < |Filter(p, s)| ==> le(Filter(p, s)[i], Filter(p, s)[j])
  {
    if s != [] {
      var init := s[..|s| - 1];
      FilterOrdered(p, init, le);
      var r := Filter(p, s);
      var r0 := Filter(p, init);
      forall i, j | 0 <= i < j < |r|
        ensures le(r[i], r[j])
      {
        if j >= |r0| {
          assert r[j] == s[|s| - 1];
          assert r[i] in init;
          var k :| 0 <= k < |init| && init[k] == r[i];
          assert s[k] == r[i];
        }
      }
    }
  }

  /** The flattened result holds exactly the parts of the elements' images. */
  lemma {:induction false} FlatMapMembers<A, B>(f: A -> seq<B>, s: seq<A>)
    ensures forall i, b :: 0 <= i < |s| && b in f(s[i]) ==> b in FlatMap(f, s)
    ensures forall b :: b in FlatMap(f, s) ==> exists i :: 0 <= i < |s| && b in f(s[i])
  {
    if s != [] {
      var init := s[..|s| - 1];
      FlatMapMembers(f, init);
      forall i, b | 0 <= i < |s| && b in f(s[i])
        ensures b in FlatMap(f, s)
      {
        if i < |init| {
          assert s[i] == init[i];
        }
      }
      forall b | b in FlatMap(f, s)
        ensures exists i :: 0 <= i < |s| && b in f(s[i])
      {
        if b in FlatMap(f, init) {
          var i :| 0 <= i < |init| && b in f(init[i]);
          assert s[i] == init[i];
        }
      }
    }
  }

  // ---------------------------------------------------------------- sums

  /** `s.reduce((t, x) => t + f(x), 0)`. */
  function SumBy<A>(f: A -> real, s: seq<A>): real {
    if s == [] then 0.0 else SumBy(f, s[..|s| - 1]) + f(s[|s| - 1])
  }

  lemma {:induction false} SumByConcat<A>(f: A -> real, u: seq<A>, v: seq<A>)
    ensures SumBy(f, u + v) == SumBy(f, u) + SumBy(f, v)
    decreases |v|
  {
    if v == [] {
      assert u + v == u;
    } else {
      var w := v[..|v| - 1];
      assert (u + v)[..|u + v| - 1] == u + w;
      SumByConcat(f, u, w);
    }
  }

  /** A sum does not depend on the order of its terms. */
  lemma {:induction false} SumByPermutation<A>(f: A -> real, a: seq<A>, b: seq<A>)
    requires multiset(a) == multiset(b)
    ensures SumBy(f, a) == SumBy(f, b)
    decreases |a|
  {
    if a == [] {
      assert |b| == |multiset(b)| == 0;
    } else {
      var x := a[|a| - 1];
      var init := a[..|a| - 1];
      assert x in multiset(b);
      var i :| 0 <= i < |b| && b[i] == x;
      var u, v := b[..i], b[i + 1..];
      RemoveBoth(a, b, i);
      SumByPermutation(f, init, u + v);
      assert b == u + ([x] + v);
      SumByConcat(f, u, [x] + v);
      SumByConcat(f, [x], v);
      SumByConcat(f, u, v);
      assert SumBy(f, [x]) == f(x) by {
        assert [x][..0] == [];
      }
    }
  }

  /** Taking the last element off `a` and an equal element off `b` leaves equal multisets. */
  lemma RemoveBoth<A>(a: seq<A>, b: seq<A>, i: nat)
    requires multiset(a) == multiset(b) && a != [] && i < |b| && b[i] == a[|a| - 1]
    ensures multiset(a[..|a| - 1]) == multiset(b[..i] + b[i + 1..])
  {
    var x := b[i];
    assert a == a[..|a| - 1] + [x];
    assert b == b[..i] + [x] + b[i + 1..];
    assert multiset(a[..|a| - 1]) == multiset(a) - multiset{x};
    assert multiset(b[..i] + b[i + 1..]) == multiset(b) - multiset{x};
  }

  /** With no negative term, a prefix sums to at most the whole. */
  lemma {:induction false} SumByPrefix<A>(f: A -> real, s: seq<A>, n: nat)
    requires n <= |s|
    requires forall x :: x in s ==> f(x) >= 0.0
    ensures SumBy(f, s[..n]) <= SumBy(f, s)
    decreases |s|
  {
    if n < |s| {
      var init := s[..|s| - 1];
      assert init[..n] == s[..n];
      SumByPrefix(f, init, n);
    } else {
      assert s[..n] == s;
    }
  }

  /** `f` applied after a map sums like the composed function. */
  lemma {:induction false} SumByMap<A, B>(f: B -> real, g: A -> B, h: A -> real, s: seq<A>)
    requires forall x :: f(g(x)) == h(x)
    ensures SumBy(f, Map(g, s)) == SumBy(h, s)
  {
    if s != [] {
      SumByMap(f, g, h, s[..|s| - 1]);
      var m := Map(g, s);
      assert m[..|m| - 1] == Map(g, s[..|s| - 1]);
    }
  }

  // ---------------------------------------------------------------- distinct elements

  ghost predicate Distinct<A>(s: seq<A>) {
    forall i, j :: 0 <= i < j < |s| ==> s[i] != s[j]
  }

  /** Without repeats every multiplicity is at most one. */
  lemma {:induction false} DistinctCounts<A>(s: seq<A>)
    requires Distinct(s)
    ensures forall x :: multiset(s)[x] <= 1
  {
    if s != [] {
      var init := s[..|s| - 1];
      var y := s[|s| - 1];
      assert s == init + [y];
      DistinctCounts(init);
      assert forall i :: 0 <= i < |init| ==> init[i] == s[i] != y;
    }
  }

  /** An element at two positions has multiplicity at least two. */
  lemma RepeatCounts<A>(s: seq<A>, i: nat, j: nat)
    requires i < j < |s| && s[i] == s[j]
    ensures multiset(s)[s[i]] >= 2
  {
    var x := s[i];
    assert s == s[..i] + [x] + s[i + 1..j] + [x] + s[j + 1..];
  }

  /** A permutation of a sequence without repeats has none either. */
  lemma DistinctPermutation<A>(a: seq<A>, b: seq<A>)
    requires Distinct(a) && multiset(a) == multiset(b)
    ensures Distinct(b)
  {
    DistinctCounts(a);
    forall i, j | 0 <= i < j < |b|
      ensures b[i] != b[j]
    {
      if b[i] == b[j] {
        RepeatCounts(b, i, j);
      }
    }
  }

  /** An injective map of a sequence without repeats has none either. */
  lemma MapDistinct<A, B>(f: A -> B, s: seq<A>)
    requires Distinct(s)
    requires forall x, y :: x in s && y in s && f(x) == f(y) ==> x == y
    ensures Distinct(Map(f, s))
  {
    MapAt(f, s);
  }
}
