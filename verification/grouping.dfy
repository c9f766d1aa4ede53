/**
 * The accumulation loop the views share: walk the records, skip those a guard rejects, and add each
 * remaining record's value to the entry of its key in a `Map`, creating the entry on first use
 * (`const e = m.get(k) || { sum: 0, count: 0 }; e.sum += v; e.count++; m.set(k, e)`).
 * A JavaScript `Map` iterates in first-insertion order, so the map is modelled as the sequence of
 * keys in that order plus a Dafny `map` from key to entry.
 */
module Grouping {
  import Seqs

  /** A map entry: the running sum and the number of records added. */
  datatype Tally = Tally(sum: real, count: nat)

  /** The keys of the included records, each once, in order of first occurrence. */
  function Keys<T, K(==)>(s: seq<T>, keep: T -> bool, key: T -> K): (r: seq<K>)
    ensures forall i, j :: 0 <= i < j < |r| ==> r[i] != r[j]
    ensures forall i :: 0 <= i < |s| && keep(s[i]) ==> key(s[i]) in r
    ensures forall k :: k in r ==> exists i :: 0 <= i < |s| && keep(s[i]) && key(s[i]) == k
  {
    if s == [] then []
    else
      var ks := Keys(s[..|s| - 1], keep, key);
      var x := s[|s| - 1];
      assert forall i :: 0 <= i < |s| - 1 ==> s[..|s| - 1][i] == s[i];
      if keep(x) && key(x) !in ks then ks + [key(x)] else ks
  }

  /** Without an included record there are no keys. */
  lemma {:induction false} NoKeys<T, K>(s: seq<T>, keep: T -> bool, key: T -> K)
    requires forall x :: x in s ==> !keep(x)
    ensures Keys(s, keep, key) == []
  {
    if s != [] {
      NoKeys(s[..|s| - 1], keep, key);
    }
  }

  /** The sum of `value` over the included records with key `k`. */
  function SumOf<T, K(==)>(s: seq<T>, keep: T -> bool, key: T -> K, value: T -> real, k: K): real {
    if s == [] then 0.0
    else
      var x := s[|s| - 1];
      SumOf(s[..|s| - 1], keep, key, value, k) + (if keep(x) && key(x) == k then value(x) else 0.0)
  }

  /** Sums of nonnegative values are nonnegative. */
  lemma {:induction false} SumOfNonneg<T, K>(s: seq<T>, keep: T -> bool, key: T -> K, value: T -> real, k: K)
    requires forall x :: x in s && keep(x) ==> value(x) >= 0.0
    ensures SumOf(s, keep, key, value, k) >= 0.0
  {
    if s != [] {
      SumOfNonneg(s[..|s| - 1], keep, key, value, k);
    }
  }

  /** The number of included records with key `k`. */
  function CountOf<T, K(==)>(s: seq<T>, keep: T -> bool, key: T -> K, k: K): nat {
    if s == [] then 0
    else
      var x := s[|s| - 1];
      CountOf(s[..|s| - 1], keep, key, k) + (if keep(x) && key(x) == k then 1 else 0)
  }

  /** The sum of `value` over all included records. */
  function SumIncluded<T>(s: seq<T>, keep: T -> bool, value: T -> real): real {
    if s == [] then 0.0
    else
      var x := s[|s| - 1];
      SumIncluded(s[..|s| - 1], keep, value) + (if keep(x) then value(x) else 0.0)
  }

  /** The number of included records. */
  function CountIncluded<T>(s: seq<T>, keep: T -> bool): nat {
    if s == [] then 0
    else CountIncluded(s[..|s| - 1], keep) + (if keep(s[|s| - 1]) then 1 else 0)
  }

  /**
   * The loop's state after the records `s`: the keys in insertion order, and for each of them the
   * sum and count of the included records with that key.
   */
  ghost predicate Accumulated<T, K>(s: seq<T>, keep: T -> bool, key: T -> K, value: T -> real,
                                         keys: seq<K>, m: map<K, Tally>) {
    && keys == Keys(s, keep, key)
    && (forall k | k in keys :: k in m)
    && (forall k | k in m :: k in keys && m[k] == Tally(SumOf(s, keep, key, value, k), CountOf(s, keep, key, k)))
  }

  /** One record's update: the entry of `k` (created on first use) gains `v` and one more record. */
  function AddTo<K(==)>(keys: seq<K>, m: map<K, Tally>, k: K, v: real): (seq<K>, map<K, Tally>) {
    var e := if k in m then m[k] else Tally(0.0, 0);
    (if k in m then keys else keys + [k], m[k := Tally(e.sum + v, e.count + 1)])
  }

  /** Adding an included record, or skipping an excluded one, keeps the state up to date. */
  lemma AccumulateStep<T, K>(s: seq<T>, keep: T -> bool, key: T -> K, value: T -> real,
                             keys: seq<K>, m: map<K, Tally>, x: T)
    requires Accumulated(s, keep, key, value, keys, m)
    ensures keep(x) ==>
      Accumulated(s + [x], keep, key, value, AddTo(keys, m, key(x), value(x)).0, AddTo(keys, m, key(x), value(x)).1)
    ensures !keep(x) ==> Accumulated(s + [x], keep, key, value, keys, m)
  {
    if keep(x) {
      AddStep(s, keep, key, value, keys, m, x);
    } else {
      SkipStep(s, keep, key, value, keys, m, x);
    }
  }

  /** One more record: its key may join the keys, and only its own key's sum and count change. */
  lemma TallySnoc<T, K>(s: seq<T>, keep: T -> bool, key: T -> K, value: T -> real, x: T, k: K)
    ensures Keys(s + [x], keep, key) == if keep(x) && key(x) !in Keys(s, keep, key) then Keys(s, keep, key) + [key(x)] else Keys(s, keep, key)
    ensures SumOf(s + [x], keep, key, value, k) == SumOf(s, keep, key, value, k) + (if keep(x) && key(x) == k then value(x) else 0.0)
    ensures CountOf(s + [x], keep, key, k) == CountOf(s, keep, key, k) + (if keep(x) && key(x) == k then 1 else 0)
  {
    assert (s + [x])[..|s|] == s;
  }

  lemma AddStep<T, K>(s: seq<T>, keep: T -> bool, key: T -> K, value: T -> real,
                      keys: seq<K>, m: map<K, Tally>, x: T)
    requires Accumulated(s, keep, key, value, keys, m) && keep(x)
    ensures Accumulated(s + [x], keep, key, value, AddTo(keys, m, key(x), value(x)).0, AddTo(keys, m, key(x), value(x)).1)
  {
    var (keys2, m2) := AddTo(keys, m, key(x), value(x));
    TallySnoc(s, keep, key, value, x, key(x));
    if key(x) !in m {
      NoKeyNoCount(s, keep, key, value, key(x));
    }
    forall k | k in m2
      ensures k in keys2 && m2[k] == Tally(SumOf(s + [x], keep, key, value, k), CountOf(s + [x], keep, key, k))
    {
      TallySnoc(s, keep, key, value, x, k);
    }
  }

  lemma SkipStep<T, K>(s: seq<T>, keep: T -> bool, key: T -> K, value: T -> real,
                       keys: seq<K>, m: map<K, Tally>, x: T)
    requires Accumulated(s, keep, key, value, keys, m) && !keep(x)
    ensures Accumulated(s + [x], keep, key, value, keys, m)
  {
    TallySnoc(s, keep, key, value, x, key(x));
    forall k | k in m
      ensures m[k] == Tally(SumOf(s + [x], keep, key, value, k), CountOf(s + [x], keep, key, k))
    {
      TallySnoc(s, keep, key, value, x, k);
    }
  }

  /** The accumulation loop. */
  method GroupSum<T, K(==)>(s: seq<T>, keep: T -> bool, key: T -> K, value: T -> real)
    returns (keys: seq<K>, m: map<K, Tally>)
    ensures Accumulated(s, keep, key, value, keys, m)
  {
    keys := [];
    m := map[];
    for i := 0 to |s|
      invariant Accumulated(s[..i], keep, key, value, keys, m)
    {
      var x := s[i];
      assert s[..i + 1] == s[..i] + [x];
      AccumulateStep(s[..i], keep, key, value, keys, m, x);
      if keep(x) {
        keys, m := AddTo(keys, m, key(x), value(x)).0, AddTo(keys, m, key(x), value(x)).1;
      }
    }
    assert s[..|s|] == s;
  }

  /** A key that has no entry yet has sum and count zero. */
  lemma {:induction false} NoKeyNoCount<T, K>(s: seq<T>, keep: T -> bool, key: T -> K, value: T -> real, k: K)
    requires k !in Keys(s, keep, key)
    ensures SumOf(s, keep, key, value, k) == 0.0
    ensures CountOf(s, keep, key, k) == 0
  {
    if s != [] {
      NoKeyNoCount(s[..|s| - 1], keep, key, value, k);
    }
  }

  /** The entries of the map in iteration order (`Array.from(m)`). */
  function Entries<K(==)>(keys: seq<K>, m: map<K, Tally>): (r: seq<(K, Tally)>)
    requires forall k :: k in keys ==> k in m
    ensures |r| == |keys|
    ensures forall i :: 0 <= i < |r| ==> r[i] == (keys[i], m[keys[i]])
  {
    if keys == [] then [] else [(keys[0], m[keys[0]])] + Entries(keys[1..], m)
  }

  /** The sum of `SumOf(.., k)` over the listed keys. */
  function TotalOver<T, K(==)>(ks: seq<K>, s: seq<T>, keep: T -> bool, key: T -> K, value: T -> real): real {
    if ks == [] then 0.0
    else TotalOver(ks[..|ks| - 1], s, keep, key, value) + SumOf(s, keep, key, value, ks[|ks| - 1])
  }

  lemma {:induction false} TotalOverStep<T, K>(ks: seq<K>, s: seq<T>, keep: T -> bool, key: T -> K, value: T -> real)
    requires |s| > 0
    requires forall i, j :: 0 <= i < j < |ks| ==> ks[i] != ks[j]
    ensures var x := s[|s| - 1];
      TotalOver(ks, s, keep, key, value)
        == TotalOver(ks, s[..|s| - 1], keep, key, value) + (if keep(x) && key(x) in ks then value(x) else 0.0)
  {
    if ks != [] {
      var init := ks[..|ks| - 1];
      var x := s[|s| - 1];
      TotalOverStep(init, s, keep, key, value);
      if keep(x) && key(x) == ks[|ks| - 1] {
        assert key(x) !in init;
      }
    }
  }

  /** A key added with its first record adds that record's value to the total. */
  lemma TotalOverAppendKey<T, K>(ks: seq<K>, s: seq<T>, keep: T -> bool, key: T -> K, value: T -> real)
    requires |s| > 0
    requires forall i, j :: 0 <= i < j < |ks| ==> ks[i] != ks[j]
    requires keep(s[|s| - 1]) && key(s[|s| - 1]) !in ks
    requires SumOf(s[..|s| - 1], keep, key, value, key(s[|s| - 1])) == 0.0
    ensures TotalOver(ks + [key(s[|s| - 1])], s, keep, key, value)
      == TotalOver(ks, s[..|s| - 1], keep, key, value) + value(s[|s| - 1])
  {
    assert (ks + [key(s[|s| - 1])])[..|ks|] == ks;
    TotalOverStep(ks, s, keep, key, value);
  }

  /**
   * Conservation: the per-key sums add up to the sum over all included records, so grouping
   * neither loses nor double-counts a record.
   */
  lemma {:induction false} GroupTotal<T, K>(s: seq<T>, keep: T -> bool, key: T -> K, value: T -> real)
    ensures TotalOver(Keys(s, keep, key), s, keep, key, value) == SumIncluded(s, keep, value)
  {
    if s != [] {
      var init := s[..|s| - 1];
      var x := s[|s| - 1];
      var ks := Keys(init, keep, key);
      GroupTotal(init, keep, key, value);
      if keep(x) && key(x) !in ks {
        NoKeyNoCount(init, keep, key, value, key(x));
        TotalOverAppendKey(ks, s, keep, key, value);
      } else {
        TotalOverStep(ks, s, keep, key, value);
      }
    }
  }

  /** A count is the sum of the constant 1. */
  lemma {:induction false} CountIsSumOfOnes<T, K>(s: seq<T>, keep: T -> bool, key: T -> K, k: K)
    ensures CountOf(s, keep, key, k) as real == SumOf(s, keep, key, _ => 1.0, k)
  {
    if s != [] {
      CountIsSumOfOnes(s[..|s| - 1], keep, key, k);
    }
  }

  lemma {:induction false} CountIncludedIsSumOfOnes<T>(s: seq<T>, keep: T -> bool)
    ensures CountIncluded(s, keep) as real == SumIncluded(s, keep, _ => 1.0)
  {
    if s != [] {
      CountIncludedIsSumOfOnes(s[..|s| - 1], keep);
    }
  }

  /** An included record's key has at least one record. */
  lemma {:induction false} KeyCounted<T, K>(s: seq<T>, keep: T -> bool, key: T -> K, k: K)
    requires k in Keys(s, keep, key)
    ensures CountOf(s, keep, key, k) >= 1
  {
    var init := s[..|s| - 1];
    if k in Keys(init, keep, key) {
      KeyCounted(init, keep, key, k);
    }
  }

  // ---------------------------------------------------------------- entries

  /** `Array.from(m)` after the accumulation loop: each key with its sum and count, in first-insertion order. */
  function Groups<T, K(==)>(s: seq<T>, keep: T -> bool, key: T -> K, value: T -> real): seq<(K, Tally)> {
    GroupsOver(Keys(s, keep, key), s, keep, key, value)
  }

  function GroupsOver<T, K(==)>(ks: seq<K>, s: seq<T>, keep: T -> bool, key: T -> K, value: T -> real): (r: seq<(K, Tally)>)
    ensures |r| == |ks|
    ensures forall i :: 0 <= i < |ks| ==>
      r[i] == (ks[i], Tally(SumOf(s, keep, key, value, ks[i]), CountOf(s, keep, key, ks[i])))
  {
    if ks == [] then []
    else
      var k := ks[|ks| - 1];
      GroupsOver(ks[..|ks| - 1], s, keep, key, value) + [(k, Tally(SumOf(s, keep, key, value, k), CountOf(s, keep, key, k)))]
  }

  /** The accumulation loop followed by `Array.from(m)`. */
  method GroupEntries<T, K(==)>(s: seq<T>, keep: T -> bool, key: T -> K, value: T -> real)
    returns (entries: seq<(K, Tally)>)
    ensures entries == Groups(s, keep, key, value)
  {
    var keys, m := GroupSum(s, keep, key, value);
    entries := Entries(keys, m);
    AccumulatedEntries(s, keep, key, value, keys, m);
  }

  /** A finished loop's map, read in insertion order, is the groups of the records. */
  lemma AccumulatedEntries<T, K>(s: seq<T>, keep: T -> bool, key: T -> K, value: T -> real,
                                 keys: seq<K>, m: map<K, Tally>)
    requires Accumulated(s, keep, key, value, keys, m)
    ensures Entries(keys, m) == Groups(s, keep, key, value)
  {
  }

  /** No key has two entries. */
  lemma GroupsDistinct<T, K>(s: seq<T>, keep: T -> bool, key: T -> K, value: T -> real)
    ensures var g := Groups(s, keep, key, value);
      forall i, j :: 0 <= i < j < |g| ==> g[i].0 != g[j].0
  {
  }

  /** The key of an included record has an entry. */
  lemma GroupsCover<T, K>(s: seq<T>, keep: T -> bool, key: T -> K, value: T -> real, i: nat)
    requires i < |s| && keep(s[i])
    ensures exists j :: 0 <= j < |Groups(s, keep, key, value)| && Groups(s, keep, key, value)[j].0 == key(s[i])
  {
    var ks := Keys(s, keep, key);
    var j :| 0 <= j < |ks| && ks[j] == key(s[i]);
    assert Groups(s, keep, key, value)[j].0 == key(s[i]);
  }

  /** Each entry is the key of an included record, with its sum and a positive count. */
  lemma GroupAt<T, K>(s: seq<T>, keep: T -> bool, key: T -> K, value: T -> real, j: nat)
    requires j < |Groups(s, keep, key, value)|
    ensures var e := Groups(s, keep, key, value)[j];
      && e.1 == Tally(SumOf(s, keep, key, value, e.0), CountOf(s, keep, key, e.0))
      && e.1.count >= 1
      && exists i :: 0 <= i < |s| && keep(s[i]) && key(s[i]) == e.0
  {
    var ks := Keys(s, keep, key);
    KeyCounted(s, keep, key, ks[j]);
  }

  /** The sums add up to the sum over the included records and the counts to their number. */
  lemma GroupsTotals<T, K>(s: seq<T>, keep: T -> bool, key: T -> K, value: T -> real)
    ensures Seqs.SumBy((e: (K, Tally)) => e.1.sum, Groups(s, keep, key, value)) == SumIncluded(s, keep, value)
    ensures Seqs.SumBy((e: (K, Tally)) => e.1.count as real, Groups(s, keep, key, value)) == CountIncluded(s, keep) as real
  {
    var ks := Keys(s, keep, key);
    GroupTotal(s, keep, key, value);
    SumsOver(ks, s, keep, key, value);
    GroupTotal(s, keep, key, _ => 1.0);
    CountIncludedIsSumOfOnes(s, keep);
    CountsOver(ks, s, keep, key, value);
  }

  /** The entry sums add up to `TotalOver`. */
  lemma {:induction false} SumsOver<T, K>(ks: seq<K>, s: seq<T>, keep: T -> bool, key: T -> K, value: T -> real)
    ensures Seqs.SumBy((e: (K, Tally)) => e.1.sum, GroupsOver(ks, s, keep, key, value)) == TotalOver(ks, s, keep, key, value)
  {
    if ks != [] {
      var init := ks[..|ks| - 1];
      SumsOver(init, s, keep, key, value);
      var g := GroupsOver(ks, s, keep, key, value);
      assert g[..|g| - 1] == GroupsOver(init, s, keep, key, value);
    }
  }

  /** The entry counts add up to the total of the constant 1. */
  lemma {:induction false} CountsOver<T, K>(ks: seq<K>, s: seq<T>, keep: T -> bool, key: T -> K, value: T -> real)
    ensures Seqs.SumBy((e: (K, Tally)) => e.1.count as real, GroupsOver(ks, s, keep, key, value)) == TotalOver(ks, s, keep, key, _ => 1.0)
  {
    if ks != [] {
      var init := ks[..|ks| - 1];
      CountsOver(init, s, keep, key, value);
      CountIsSumOfOnes(s, keep, key, ks[|ks| - 1]);
      var g := GroupsOver(ks, s, keep, key, value);
      assert g[..|g| - 1] == GroupsOver(init, s, keep, key, value);
    }
  }

  // ---------------------------------------------------------------- list groups

  /**
   * The included records with key `k`, in order: the list a `Map<K, T[]>` holds for `k` after
   * `const arr = m.get(k) || []; arr.push(x); m.set(k, arr)` over the records.
   */
  function Members<T, K(==)>(s: seq<T>, keep: T -> bool, key: T -> K, k: K): (r: seq<T>)
    ensures |r| == CountOf(s, keep, key, k)
    ensures forall x :: x in r ==> x in s && keep(x) && key(x) == k
  {
    if s == [] then []
    else
      var x := s[|s| - 1];
      Members(s[..|s| - 1], keep, key, k) + (if keep(x) && key(x) == k then [x] else [])
  }

  /** The grouping loop that collects lists. */
  method GroupList<T, K(==)>(s: seq<T>, keep: T -> bool, key: T -> K) returns (keys: seq<K>, m: map<K, seq<T>>)
    ensures keys == Keys(s, keep, key)
    ensures forall k :: k in m <==> k in keys
    ensures forall k :: k in m ==> m[k] == Members(s, keep, key, k)
  {
    keys := [];
    m := map[];
    for i := 0 to |s|
      invariant keys == Keys(s[..i], keep, key)
      invariant forall k :: k in m <==> k in keys
      invariant forall k :: k in m ==> m[k] == Members(s[..i], keep, key, k)
    {
      assert s[..i + 1][..i] == s[..i];
      var x := s[i];
      if keep(x) {
        var k := key(x);
        var arr := if k in m then m[k] else [];
        if k !in m {
          NoKeyNoMembers(s[..i], keep, key, k);
          keys := keys + [k];
        }
        m := m[k := arr + [x]];
      }
    }
    assert s[..|s|] == s;
  }

  /** A key no included record has collects nothing. */
  lemma {:induction false} NoKeyNoMembers<T, K>(s: seq<T>, keep: T -> bool, key: T -> K, k: K)
    requires k !in Keys(s, keep, key)
    ensures Members(s, keep, key, k) == []
  {
    if s != [] {
      NoKeyNoMembers(s[..|s| - 1], keep, key, k);
    }
  }

  predicate Ascending<T>(s: seq<T>, time: T -> int) {
    forall i, j :: 0 <= i < j < |s| ==> time(s[i]) <= time(s[j])
  }

  /** A group keeps the order of the records: a list of an ascending sequence ascends. */
  lemma {:induction false} MembersAscending<T, K>(s: seq<T>, keep: T -> bool, key: T -> K, k: K, time: T -> int)
    requires Ascending(s, time)
    ensures Ascending(Members(s, keep, key, k), time)
  {
    if s != [] {
      var init := s[..|s| - 1];
      var x := s[|s| - 1];
      assert Ascending(init, time);
      MembersAscending(init, keep, key, k, time);
      var r0 := Members(init, keep, key, k);
      if keep(x) && key(x) == k {
        var r := r0 + [x];
        assert Members(s, keep, key, k) == r;
        forall i, j | 0 <= i < j < |r|
          ensures time(r[i]) <= time(r[j])
        {
          assert r[i] == r0[i];
          if j == |r0| {
            assert r0[i] in init;
            var m :| 0 <= m < |init| && init[m] == r0[i];
            assert init[m] == s[m];
          } else {
            assert r[j] == r0[j];
          }
        }
      }
    }
  }
}
