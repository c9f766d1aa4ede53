/**
 * A JavaScript `Map<string, Activity>` as the results page uses it: the keys in first-insertion
 * order, and the entry stored under each.
 */
module ActivityMaps {
  import opened Activities

  datatype ActivityMap = ActivityMap(keys: seq<string>, entries: map<string, Activity>)

  /** The keys are distinct and are exactly the keys that have an entry. */
  ghost predicate Valid(m: ActivityMap) {
    (forall i, j :: 0 <= i < j < |m.keys| ==> m.keys[i] != m.keys[j])
    && (forall k :: k in m.entries <==> k in m.keys)
  }

  const Empty: ActivityMap := ActivityMap([], map[])

  /** `map.set(k, v)`: a new key goes last, a present key keeps its place and takes the new entry. */
  function Put(m: ActivityMap, k: string, v: Activity): (r: ActivityMap)
    requires Valid(m)
    ensures Valid(r)
    ensures r.entries == m.entries[k := v]
    ensures k in m.entries ==> r.keys == m.keys
    ensures k !in m.entries ==> r.keys == m.keys + [k]
  {
    if k in m.entries then m.(entries := m.entries[k := v])
    else ActivityMap(m.keys + [k], m.entries[k := v])
  }

  /** The entries of `keys`, in that order. */
  function ValuesOf(keys: seq<string>, entries: map<string, Activity>): (r: seq<Activity>)
    requires forall k :: k in keys ==> k in entries
    ensures |r| == |keys|
    ensures forall i :: 0 <= i < |r| ==> r[i] == entries[keys[i]]
  {
    if keys == [] then [] else ValuesOf(keys[..|keys| - 1], entries) + [entries[keys[|keys| - 1]]]
  }

  /** `Array.from(map.values())`: one entry per key, in key order. */
  function Values(m: ActivityMap): (r: seq<Activity>)
    requires Valid(m)
    ensures |r| == |m.keys|
    ensures forall i :: 0 <= i < |r| ==> r[i] == m.entries[m.keys[i]]
  {
    ValuesOf(m.keys, m.entries)
  }
}

/**
 * The results page's data flow: the fetched chains' activities, merged with the CSV-imported ones
 * by id and then by transaction hash, optionally collapsed, and filtered by the filter bar.
 */
module Results {
  import opened Wrappers
  import opened Activities
  import opened CovalentTypes
  import opened ActivityMaps
  import Seqs
  import Parse
  import Csv
  import Collapse
  import FilterBar

  // ---------------------------------------------------------------- the fetched activities

  /** The activities of one chain's items. */
  function ChainActivities(toMillis: string -> int, now: int): ChainItems -> seq<Activity> {
    (ci: ChainItems) => Parse.ParseAll(ci.items, ci.chainId, toMillis, now)
  }

  /** `all.flatMap(parseTransactionsV3)`, newest first. */
  function ApiActivities(all: seq<ChainItems>, toMillis: string -> int, now: int): seq<Activity> {
    NewestFirst(Seqs.FlatMap(ChainActivities(toMillis, now), all))
  }

  function ItemCount(all: seq<ChainItems>): nat {
    if all == [] then 0 else ItemCount(all[..|all| - 1]) + |all[|all| - 1].items|
  }

  lemma {:induction false} ChainActivitiesCount(all: seq<ChainItems>, toMillis: string -> int, now: int)
    ensures |Seqs.FlatMap(ChainActivities(toMillis, now), all)| == ItemCount(all)
  {
    if all != [] {
      var last := all[|all| - 1];
      ChainActivitiesCount(all[..|all| - 1], toMillis, now);
      Parse.ParseAllPointwise(last.items, last.chainId, toMillis, now);
    }
  }

  lemma ChainActivitiesFacts(all: seq<ChainItems>, toMillis: string -> int, now: int)
    ensures var flat := Seqs.FlatMap(ChainActivities(toMillis, now), all);
      && |flat| == ItemCount(all)
      && (forall a :: a in flat ==> exists i :: 0 <= i < |all| && a.chainId == all[i].chainId)
      && (forall i, k :: 0 <= i < |all| && 0 <= k < |all[i].items| ==>
            Parse.Normalize(all[i].items[k], all[i].chainId, toMillis, now) in flat)
  {
    var f := ChainActivities(toMillis, now);
    var flat := Seqs.FlatMap(f, all);
    ChainActivitiesCount(all, toMillis, now);
    Seqs.FlatMapMembers(f, all);
    forall a | a in flat
      ensures exists i :: 0 <= i < |all| && a.chainId == all[i].chainId
    {
      var i :| 0 <= i < |all| && a in f(all[i]);
      Parse.ParseAllChain(all[i].items, all[i].chainId, toMillis, now);
    }
    forall i, k | 0 <= i < |all| && 0 <= k < |all[i].items|
      ensures Parse.Normalize(all[i].items[k], all[i].chainId, toMillis, now) in flat
    {
      Parse.ParseAllPointwise(all[i].items, all[i].chainId, toMillis, now);
      assert f(all[i])[k] == Parse.Normalize(all[i].items[k], all[i].chainId, toMillis, now);
    }
  }

  /** One activity per fetched item, each on the chain it was fetched for, newest first. */
  lemma ApiActivitiesFacts(all: seq<ChainItems>, toMillis: string -> int, now: int)
    ensures var r := ApiActivities(all, toMillis, now);
      && |r| == ItemCount(all)
      && (forall a :: a in r ==> exists i :: 0 <= i < |all| && a.chainId == all[i].chainId)
      && (forall i, k :: 0 <= i < |all| && 0 <= k < |all[i].items| ==>
            Parse.Normalize(all[i].items[k], all[i].chainId, toMillis, now) in r)
      && (forall i, j :: 0 <= i < j < |r| ==> r[i].timestamp >= r[j].timestamp)
  {
    var flat := Seqs.FlatMap(ChainActivities(toMillis, now), all);
    var r := ApiActivities(all, toMillis, now);
    ChainActivitiesFacts(all, toMillis, now);
    assert multiset(r) == multiset(flat);
    assert |r| == |multiset(r)|;
    forall a | a in r
      ensures a in flat
    {
      assert a in multiset(r);
    }
    forall a | a in flat
      ensures a in r
    {
      assert a in multiset(flat);
    }
  }

  // ---------------------------------------------------------------- merging by id

  /** The ids of the records. */
  function Ids(s: seq<Activity>): set<string> {
    if s == [] then {} else Ids(s[..|s| - 1]) + {s[|s| - 1].id}
  }

  lemma {:induction false} IdsMembers(s: seq<Activity>, k: string)
    ensures k in Ids(s) <==> exists i :: 0 <= i < |s| && s[i].id == k
  {
    if s != [] {
      var init := s[..|s| - 1];
      IdsMembers(init, k);
      if k in Ids(init) {
        var i :| 0 <= i < |init| && init[i].id == k;
        assert s[i] == init[i];
      }
      if exists i :: 0 <= i < |s| && s[i].id == k {
        var i :| 0 <= i < |s| && s[i].id == k;
        if i < |init| {
          assert init[i] == s[i];
        }
      }
    }
  }

  /** `v` is the last record of `s` with id `k`. */
  predicate LastWithId(s: seq<Activity>, k: string, v: Activity) {
    exists j :: 0 <= j < |s| && s[j] == v && v.id == k && forall i :: j < i < |s| ==> s[i].id != k
  }

  /** `v` is the first record of `s` with id `k`. */
  predicate FirstWithId(s: seq<Activity>, k: string, v: Activity) {
    exists j :: 0 <= j < |s| && s[j] == v && v.id == k && forall i :: 0 <= i < j ==> s[i].id != k
  }

  lemma LastWithIdExtend(s: seq<Activity>, k: string, v: Activity)
    requires |s| > 0 && s[|s| - 1].id != k
    requires LastWithId(s[..|s| - 1], k, v)
    ensures LastWithId(s, k, v)
  {
    var init := s[..|s| - 1];
    var j :| 0 <= j < |init| && init[j] == v && v.id == k && forall i :: j < i < |init| ==> init[i].id != k;
    forall i | j < i < |s|
      ensures s[i].id != k
    {
      if i < |init| {
        assert s[i] == init[i];
      }
    }
    assert s[j] == v;
  }

  lemma FirstWithIdExtend(s: seq<Activity>, k: string, v: Activity)
    requires |s| > 0
    requires FirstWithId(s[..|s| - 1], k, v)
    ensures FirstWithId(s, k, v)
  {
    var init := s[..|s| - 1];
    var j :| 0 <= j < |init| && init[j] == v && v.id == k && forall i :: 0 <= i < j ==> init[i].id != k;
    forall i | 0 <= i < j
      ensures s[i].id != k
    {
      assert s[i] == init[i];
    }
    assert s[j] == v;
  }

  /** `for (const a of s) byId.set(a.id, a)`. */
  function PutAll(m: ActivityMap, s: seq<Activity>): (r: ActivityMap)
    requires Valid(m)
    ensures Valid(r)
  {
    if s == [] then m
    else
      var last := s[|s| - 1];
      Put(PutAll(m, s[..|s| - 1]), last.id, last)
  }

  /** `for (const c of s) if (!byId.has(c.id)) byId.set(c.id, c)`. */
  function PutAbsent(m: ActivityMap, s: seq<Activity>): (r: ActivityMap)
    requires Valid(m)
    ensures Valid(r)
  {
    if s == [] then m
    else
      var prev := PutAbsent(m, s[..|s| - 1]);
      var last := s[|s| - 1];
      if last.id in prev.entries then prev else Put(prev, last.id, last)
  }

  /** The API records by id, then each CSV record whose id is still free. */
  function ById(api: seq<Activity>, csv: seq<Activity>): (r: ActivityMap)
    ensures Valid(r)
  {
    PutAbsent(PutAll(Empty, api), csv)
  }

  lemma {:induction false} PutAllFacts(s: seq<Activity>)
    ensures var m := PutAll(Empty, s);
      && (forall k :: k in m.entries <==> k in Ids(s))
      && (forall k :: k in m.entries ==> LastWithId(s, k, m.entries[k]))
      && |m.keys| <= |s|
  {
    if s != [] {
      var init := s[..|s| - 1];
      var x := s[|s| - 1];
      PutAllFacts(init);
      var e0 := PutAll(Empty, init).entries;
      var e := PutAll(Empty, s).entries;
      assert e == e0[x.id := x];
      forall k | k in e
        ensures LastWithId(s, k, e[k])
      {
        if k == x.id {
          assert s[|s| - 1] == e[k];
        } else {
          LastWithIdExtend(s, k, e0[k]);
        }
      }
    }
  }

  lemma PutAbsentStep(m: ActivityMap, s: seq<Activity>)
    requires Valid(m) && |s| > 0
    ensures var prev := PutAbsent(m, s[..|s| - 1]);
      var x := s[|s| - 1];
      && PutAbsent(m, s).entries == (if x.id in prev.entries then prev.entries else prev.entries[x.id := x])
      && |PutAbsent(m, s).keys| <= |prev.keys| + 1
  {
  }

  lemma FirstWithIdStep(s: seq<Activity>, e0: map<string, Activity>, e: map<string, Activity>, m0: map<string, Activity>, k: string)
    requires |s| > 0
    requires e == (if s[|s| - 1].id in e0 then e0 else e0[s[|s| - 1].id := s[|s| - 1]])
    requires forall k' :: k' in e0 && k' !in m0 ==> FirstWithId(s[..|s| - 1], k', e0[k'])
    requires forall k' :: k' in e0 <==> k' in m0 || k' in Ids(s[..|s| - 1])
    requires k in e && k !in m0
    ensures FirstWithId(s, k, e[k])
  {
    if k in e0 {
      FirstWithIdExtend(s, k, e0[k]);
    } else {
      IdsMembers(s[..|s| - 1], k);
      assert s[|s| - 1] == e[k];
    }
  }

  lemma {:induction false} PutAbsentFacts(m: ActivityMap, s: seq<Activity>)
    requires Valid(m)
    ensures var r := PutAbsent(m, s);
      && (forall k :: k in r.entries <==> k in m.entries || k in Ids(s))
      && (forall k :: k in m.entries ==> r.entries[k] == m.entries[k])
      && (forall k :: k in r.entries && k !in m.entries ==> FirstWithId(s, k, r.entries[k]))
      && |r.keys| <= |m.keys| + |s|
  {
    if s != [] {
      var init := s[..|s| - 1];
      PutAbsentFacts(m, init);
      PutAbsentStep(m, s);
      var e0 := PutAbsent(m, init).entries;
      var e := PutAbsent(m, s).entries;
      forall k | k in e && k !in m.entries
        ensures FirstWithId(s, k, e[k])
      {
        FirstWithIdStep(s, e0, e, m.entries, k);
      }
    }
  }

  /**
   * Merging by id: every id of either source has one entry; an API id keeps the last API record
   * with that id, a CSV record only fills an id the API records lack, the first one with it.
   */
  lemma ByIdFacts(api: seq<Activity>, csv: seq<Activity>)
    ensures var m := ById(api, csv);
      && (forall k :: k in m.entries <==> k in Ids(api) || k in Ids(csv))
      && (forall k :: k in Ids(api) ==> LastWithId(api, k, m.entries[k]))
      && (forall k :: k in m.entries && k !in Ids(api) ==> FirstWithId(csv, k, m.entries[k]))
      && |m.keys| <= |api| + |csv|
  {
    PutAllFacts(api);
    PutAbsentFacts(PutAll(Empty, api), csv);
  }

  // ---------------------------------------------------------------- de-duplicating by hash

  /** `String(it.txHash || it.id)`. */
  function HashKey(a: Activity): string {
    if a.txHash != "" then a.txHash else a.id
  }

  /** The keys of the records. */
  function HashKeys(s: seq<Activity>): set<string> {
    if s == [] then {} else HashKeys(s[..|s| - 1]) + {HashKey(s[|s| - 1])}
  }

  lemma {:induction false} HashKeysMembers(s: seq<Activity>, k: string)
    ensures k in HashKeys(s) <==> exists i :: 0 <= i < |s| && HashKey(s[i]) == k
  {
    if s != [] {
      var init := s[..|s| - 1];
      HashKeysMembers(init, k);
      if k in HashKeys(init) {
        var i :| 0 <= i < |init| && HashKey(init[i]) == k;
        assert s[i] == init[i];
      }
      if exists i :: 0 <= i < |s| && HashKey(s[i]) == k {
        var i :| 0 <= i < |s| && HashKey(s[i]) == k;
        if i < |init| {
          assert init[i] == s[i];
        }
      }
    }
  }

  /** `a.amountUSD > b.amountUSD`, an absent estimate counting as `-Infinity`. */
  predicate Higher(a: Activity, b: Activity) {
    a.amountUSD.Some? && (b.amountUSD.None? || a.amountUSD.value > b.amountUSD.value)
  }

  /** The `byHash` loop: a record replaces the one kept for its key only with a higher estimate. */
  function DedupByHash(s: seq<Activity>): (r: ActivityMap)
    ensures Valid(r)
  {
    if s == [] then Empty
    else
      var m := DedupByHash(s[..|s| - 1]);
      var it := s[|s| - 1];
      var key := HashKey(it);
      if key !in m.entries || Higher(it, m.entries[key]) then Put(m, key, it) else m
  }

  /**
   * `s[j]` is the record kept for key `k`: no record with that key has a higher estimate, and
   * every earlier one with that key has a lower one.
   */
  predicate KeptFor(s: seq<Activity>, k: string, j: int) {
    0 <= j < |s| && HashKey(s[j]) == k
    && (forall i :: 0 <= i < |s| && HashKey(s[i]) == k ==> !Higher(s[i], s[j]))
    && (forall i :: 0 <= i < j && HashKey(s[i]) == k ==> Higher(s[j], s[i]))
  }

  lemma HigherStep(x: Activity, o: Activity, y: Activity)
    requires Higher(x, o) && !Higher(y, o)
    ensures Higher(x, y) && !Higher(y, x)
  {
  }

  /** The last record is kept under a key none before it had. */
  lemma NewKeyKept(s: seq<Activity>)
    requires |s| > 0
    requires HashKey(s[|s| - 1]) !in HashKeys(s[..|s| - 1])
    ensures KeptFor(s, HashKey(s[|s| - 1]), |s| - 1)
  {
    var init := s[..|s| - 1];
    HashKeysMembers(init, HashKey(s[|s| - 1]));
    forall i | 0 <= i < |s| - 1
      ensures HashKey(s[i]) != HashKey(s[|s| - 1])
    {
      assert init[i] == s[i];
    }
  }

  /** The last record displaces the one kept before, having a higher estimate. */
  lemma HigherKept(s: seq<Activity>, j: int)
    requires |s| > 0 && 0 <= j < |s| - 1
    requires KeptFor(s[..|s| - 1], HashKey(s[|s| - 1]), j)
    requires Higher(s[|s| - 1], s[j])
    ensures KeptFor(s, HashKey(s[|s| - 1]), |s| - 1)
  {
    var init := s[..|s| - 1];
    var x := s[|s| - 1];
    forall i | 0 <= i < |s| - 1 && HashKey(s[i]) == HashKey(x)
      ensures Higher(x, s[i]) && !Higher(s[i], x)
    {
      assert init[i] == s[i];
      HigherStep(x, s[j], s[i]);
    }
  }

  /** The last record leaves the kept one in place, having no higher estimate. */
  lemma NotHigherKept(s: seq<Activity>, k: string, j: int)
    requires |s| > 0 && 0 <= j < |s| - 1
    requires KeptFor(s[..|s| - 1], k, j)
    requires HashKey(s[|s| - 1]) == k ==> !Higher(s[|s| - 1], s[j])
    ensures KeptFor(s, k, j)
  {
    var init := s[..|s| - 1];
    forall i | 0 <= i < |s| - 1
      ensures s[i] == init[i]
    {
    }
  }

  lemma {:induction false} DedupKeys(s: seq<Activity>)
    ensures forall k :: k in DedupByHash(s).entries <==> k in HashKeys(s)
    ensures |DedupByHash(s).keys| <= |s|
  {
    if s != [] {
      DedupKeys(s[..|s| - 1]);
    }
  }

  /** Every entry of `e` is the record kept for its key in `s`. */
  ghost predicate KeptEntries(s: seq<Activity>, e: map<string, Activity>) {
    forall k :: k in e ==> exists j :: KeptFor(s, k, j) && s[j] == e[k]
  }

  /** How one record changes the entries of the `byHash` map. */
  function StepEntries(e: map<string, Activity>, it: Activity): map<string, Activity> {
    var key := HashKey(it);
    if key !in e || Higher(it, e[key]) then e[key := it] else e
  }

  lemma DedupStep(s: seq<Activity>)
    requires |s| > 0
    ensures DedupByHash(s).entries == StepEntries(DedupByHash(s[..|s| - 1]).entries, s[|s| - 1])
  {
  }

  lemma DedupKeptStep(s: seq<Activity>, e0: map<string, Activity>, k: string)
    requires |s| > 0
    requires KeptEntries(s[..|s| - 1], e0)
    requires forall k' :: k' in e0 <==> k' in HashKeys(s[..|s| - 1])
    requires k in StepEntries(e0, s[|s| - 1])
    ensures exists j :: KeptFor(s, k, j) && s[j] == StepEntries(e0, s[|s| - 1])[k]
  {
    var init := s[..|s| - 1];
    var x := s[|s| - 1];
    var key := HashKey(x);
    var e := StepEntries(e0, x);
    if k == key && key !in e0 {
      NewKeyKept(s);
      assert s[|s| - 1] == e[k];
    } else {
      var j :| KeptFor(init, k, j) && init[j] == e0[k];
      assert s[j] == init[j];
      if k == key && Higher(x, e0[key]) {
        HigherKept(s, j);
        assert s[|s| - 1] == e[k];
      } else {
        NotHigherKept(s, k, j);
      }
    }
  }

  lemma {:induction false} DedupKept(s: seq<Activity>)
    ensures KeptEntries(s, DedupByHash(s).entries)
  {
    if s != [] {
      var init := s[..|s| - 1];
      DedupKept(init);
      DedupKeys(init);
      DedupStep(s);
      var e0 := DedupByHash(init).entries;
      forall k | k in DedupByHash(s).entries
        ensures exists j :: KeptFor(s, k, j) && s[j] == DedupByHash(s).entries[k]
      {
        DedupKeptStep(s, e0, k);
      }
    }
  }

  /**
   * De-duplicating by hash: one entry per key of the input, the first record with the highest
   * estimate among those with that key.
   */
  lemma DedupByHashFacts(s: seq<Activity>)
    ensures var m := DedupByHash(s);
      && (forall k :: k in m.entries <==> k in HashKeys(s))
      && (forall k :: k in m.entries ==> exists j :: KeptFor(s, k, j) && s[j] == m.entries[k])
      && |m.keys| <= |s|
  {
    DedupKeys(s);
    DedupKept(s);
  }

  /** Every by-hash entry is stored under its own key and comes from the input. */
  lemma DedupEntries(s: seq<Activity>)
    ensures forall k :: k in DedupByHash(s).entries ==>
      HashKey(DedupByHash(s).entries[k]) == k && DedupByHash(s).entries[k] in s
  {
    DedupKept(s);
    var m := DedupByHash(s);
    forall k | k in m.entries
      ensures HashKey(m.entries[k]) == k && m.entries[k] in s
    {
      var j :| KeptFor(s, k, j) && s[j] == m.entries[k];
    }
  }

  /** Every by-id record comes from the API records or the CSV records. */
  lemma ByIdFromSources(api: seq<Activity>, csv: seq<Activity>)
    ensures forall a :: a in Values(ById(api, csv)) ==> a in api || a in csv
  {
    var byId := ById(api, csv);
    var arr := Values(byId);
    ByIdFacts(api, csv);
    forall a | a in arr
      ensures a in api || a in csv
    {
      var n :| 0 <= n < |arr| && arr[n] == a;
      var k := byId.keys[n];
      if k in Ids(api) {
        assert LastWithId(api, k, byId.entries[k]);
      } else {
        assert FirstWithId(csv, k, byId.entries[k]);
      }
    }
  }

  /** The merged records have distinct hash keys. */
  lemma DeduplicatedDistinct(api: seq<Activity>, csv: seq<Activity>)
    ensures forall i, j :: 0 <= i < j < |Deduplicated(api, csv)| ==>
      HashKey(Deduplicated(api, csv)[i]) != HashKey(Deduplicated(api, csv)[j])
  {
    var arr := Values(ById(api, csv));
    var byHash := DedupByHash(arr);
    var d := Values(byHash);
    DedupEntries(arr);
    forall i, j | 0 <= i < j < |d|
      ensures HashKey(d[i]) != HashKey(d[j])
    {
      assert byHash.keys[i] != byHash.keys[j];
    }
  }

  /** Each input record is represented by a merged one with its key and no lower estimate. */
  lemma DeduplicatedRepresents(api: seq<Activity>, csv: seq<Activity>)
    ensures forall a :: a in Values(ById(api, csv)) ==>
      exists b :: b in Deduplicated(api, csv) && HashKey(b) == HashKey(a) && !Higher(a, b)
  {
    var arr := Values(ById(api, csv));
    var byHash := DedupByHash(arr);
    var d := Values(byHash);
    DedupByHashFacts(arr);
    forall a | a in arr
      ensures exists b :: b in d && HashKey(b) == HashKey(a) && !Higher(a, b)
    {
      var k := HashKey(a);
      var n :| 0 <= n < |arr| && arr[n] == a;
      HashKeysMembers(arr, k);
      var j :| KeptFor(arr, k, j) && arr[j] == byHash.entries[k];
      var m :| 0 <= m < |byHash.keys| && byHash.keys[m] == k;
      assert d[m] == arr[j];
    }
  }

  // ---------------------------------------------------------------- the merged list

  /** The options the page collapses with: a 60-minute window and a 1% tolerance. */
  const MergeOptions: Collapse.Options := Collapse.Options(Some(60.0), Some(0.01))

  /** The page pairs legs at most one hour apart whose amounts differ by at most 1%. */
  lemma MergeWindow()
    ensures Collapse.WindowMs(MergeOptions) == 3600000.0
    ensures Collapse.Tolerance(MergeOptions) == 0.01
  {
  }

  /** The by-id merge, then one record per transaction hash. */
  function Deduplicated(api: seq<Activity>, csv: seq<Activity>): seq<Activity> {
    Values(DedupByHash(Values(ById(api, csv))))
  }

  /**
   * Merged records: at most one per source record, one per hash key, each taken from one of the
   * sources, and each by-id record represented by one with its key and no lower estimate.
   */
  lemma DeduplicatedFacts(api: seq<Activity>, csv: seq<Activity>)
    ensures var d := Deduplicated(api, csv);
      && |d| <= |api| + |csv|
      && (forall i, j :: 0 <= i < j < |d| ==> HashKey(d[i]) != HashKey(d[j]))
      && (forall b :: b in d ==> b in api || b in csv)
      && (forall a :: a in Values(ById(api, csv)) ==>
            exists b :: b in d && HashKey(b) == HashKey(a) && !Higher(a, b))
  {
    DeduplicatedSize(api, csv);
    DeduplicatedDistinct(api, csv);
    DeduplicatedFromSources(api, csv);
    DeduplicatedRepresents(api, csv);
  }

  lemma DeduplicatedSize(api: seq<Activity>, csv: seq<Activity>)
    ensures |Deduplicated(api, csv)| <= |api| + |csv|
  {
    ByIdFacts(api, csv);
    DedupKeys(Values(ById(api, csv)));
  }

  lemma DeduplicatedFromSources(api: seq<Activity>, csv: seq<Activity>)
    ensures forall b :: b in Deduplicated(api, csv) ==> b in api || b in csv
  {
    var arr := Values(ById(api, csv));
    var byHash := DedupByHash(arr);
    var d := Values(byHash);
    DedupEntries(arr);
    ByIdFromSources(api, csv);
    forall b | b in d
      ensures b in api || b in csv
    {
      var i :| 0 <= i < |d| && d[i] == b;
      assert byHash.keys[i] in byHash.entries;
      assert b in arr;
    }
  }

  /**
   * The page's merged list: the de-duplicated records newest first, then pass-through transfers
   * collapsed unless the filter switches that off.
   */
  function Merged(api: seq<Activity>, csv: seq<Activity>, collapse: Option<bool>): (r: seq<Activity>)
    ensures forall i, j :: 0 <= i < j < |r| ==> r[i].timestamp >= r[j].timestamp
    ensures collapse == Some(false) ==> multiset(r) == multiset(Deduplicated(api, csv))
    ensures collapse == Some(false) ==> r == NewestFirst(Deduplicated(api, csv))
    ensures collapse != Some(false) ==> r == Collapse.CollapseSpec(NewestFirst(Deduplicated(api, csv)), MergeOptions)
  {
    var base := NewestFirst(Deduplicated(api, csv));
    if collapse == Some(false) then base else Collapse.CollapseSpec(base, MergeOptions)
  }

  method PutApi(api: seq<Activity>) returns (byId: ActivityMap)
    ensures byId == PutAll(Empty, api)
  {
    byId := Empty;
    for i := 0 to |api|
      invariant byId == PutAll(Empty, api[..i])
    {
      assert api[..i + 1][..i] == api[..i];
      byId := Put(byId, api[i].id, api[i]);
    }
    assert api[..|api|] == api;
  }

  method PutCsv(byId0: ActivityMap, csv: seq<Activity>) returns (byId: ActivityMap)
    requires Valid(byId0)
    ensures byId == PutAbsent(byId0, csv)
  {
    byId := byId0;
    for i := 0 to |csv|
      invariant byId == PutAbsent(byId0, csv[..i])
    {
      assert csv[..i + 1][..i] == csv[..i];
      if csv[i].id !in byId.entries {
        byId := Put(byId, csv[i].id, csv[i]);
      }
    }
    assert csv[..|csv|] == csv;
  }

  method PutByHash(arr: seq<Activity>) returns (byHash: ActivityMap)
    ensures byHash == DedupByHash(arr)
  {
    byHash := Empty;
    for i := 0 to |arr|
      invariant byHash == DedupByHash(arr[..i])
    {
      assert arr[..i + 1][..i] == arr[..i];
      var key := HashKey(arr[i]);
      if key !in byHash.entries || Higher(arr[i], byHash.entries[key]) {
        byHash := Put(byHash, key, arr[i]);
      }
    }
    assert arr[..|arr|] == arr;
  }

  /** `mergedActivities`. */
  method MergeActivities(api: seq<Activity>, csv: seq<Activity>, collapse: Option<bool>)
    returns (merged: seq<Activity>)
    ensures merged == Merged(api, csv, collapse)
  {
    var byId := PutApi(api);
    byId := PutCsv(byId, csv);
    var byHash := PutByHash(Values(byId));
    var base := NewestFirst(Values(byHash));
    if collapse == Some(false) {
      merged := base;
    } else {
      merged := Collapse.CollapsePassThrough(base, MergeOptions);
    }
  }

  // ---------------------------------------------------------------- the filter

  /** The filter's tests on one record, in the page's order. */
  function Keep(f: FilterBar.Filters, a: Activity): (b: bool)
    ensures b <==>
      && a.chainId in f.chains
      && a.kind in f.types
      && (f.onlyUsdValued != Some(false) || f.minUsd.Some? ==> a.amountUSD.Some?)
      && (f.minUsd.Some? && a.amountUSD.Some? ==> a.amountUSD.value >= f.minUsd.value)
  {
    var hasUsd := a.amountUSD.Some?;
    if a.chainId !in f.chains then false
    else if a.kind !in f.types then false
    else if f.onlyUsdValued != Some(false) && !hasUsd then false
    else if f.minUsd.Some? && !hasUsd then false
    else if f.minUsd.Some? && hasUsd && a.amountUSD.value < f.minUsd.value then false
    else true
  }

  function KeepBy(f: FilterBar.Filters): Activity -> bool {
    a => Keep(f, a)
  }

  /** `mergedActivities.filter(...)`. */
  function Filtered(merged: seq<Activity>, f: FilterBar.Filters): seq<Activity> {
    Seqs.Filter(KeepBy(f), merged)
  }

  /** Filtering keeps exactly the passing records, as often as they occur, newest first still. */
  lemma FilteredFacts(api: seq<Activity>, csv: seq<Activity>, f: FilterBar.Filters)
    ensures var merged := Merged(api, csv, f.collapsePassThrough);
      var r := Filtered(merged, f);
      && (forall a :: multiset(r)[a] == (if Keep(f, a) then multiset(merged)[a] else 0))
      && (forall i, j :: 0 <= i < j < |r| ==> r[i].timestamp >= r[j].timestamp)
  {
    var merged := Merged(api, csv, f.collapsePassThrough);
    Seqs.FilterMultiset(KeepBy(f), merged);
    Seqs.FilterOrdered(KeepBy(f), merged, (a: Activity, b: Activity) => a.timestamp >= b.timestamp);
  }

  /** The page's initial filters: every configured chain and type, no USD requirement. */
  function InitialFilters(): (f: FilterBar.Filters)
    ensures forall k: ActivityType :: k in f.types
    ensures forall a :: Keep(f, a) <==> a.chainId in DefaultChainIds
    ensures f.collapsePassThrough == Some(true)
  {
    AllTypesListed();
    FilterBar.Filters(DefaultChainIds, AllTypes, None, Some(false), Some(true))
  }

  /** After "clear": offered chains and types, and only records with a USD estimate. */
  lemma ClearedFilter(merged: seq<Activity>, chains: seq<int>, types: seq<ActivityType>)
    ensures Filtered(merged, FilterBar.Clear(chains, types))
      == Seqs.Filter((a: Activity) => a.chainId in chains && a.kind in types && a.amountUSD.Some?, merged)
  {
    Seqs.FilterExt(KeepBy(FilterBar.Clear(chains, types)),
      (a: Activity) => a.chainId in chains && a.kind in types && a.amountUSD.Some?, merged);
  }

  // ---------------------------------------------------------------- CSV import

  function IdNotIn(ids: set<string>): Activity -> bool {
    (x: Activity) => x.id !in ids
  }

  /** The earlier imports plus each new record whose id they lack, newest first. */
  function CsvImported(prev: seq<Activity>, extra: seq<Activity>): seq<Activity> {
    NewestFirst(prev + Seqs.Filter(IdNotIn(Ids(prev)), extra))
  }

  /** `new Set(prev.map(p => p.id))` is the set of ids of `prev`. */
  lemma IdSet(prev: seq<Activity>)
    ensures (set p | p in prev :: p.id) == Ids(prev)
  {
    forall k
      ensures k in (set p | p in prev :: p.id) <==> k in Ids(prev)
    {
      IdsMembers(prev, k);
    }
  }

  /** The `setCsvActivities` update. */
  method ImportCsv(prev: seq<Activity>, extra: seq<Activity>) returns (merged: seq<Activity>)
    ensures merged == CsvImported(prev, extra)
  {
    var ids := set p | p in prev :: p.id;
    IdSet(prev);
    var acc := prev;
    for i := 0 to |extra|
      invariant acc == prev + Seqs.Filter(IdNotIn(ids), extra[..i])
    {
      var kept := Seqs.Filter(IdNotIn(ids), extra[..i]);
      assert extra[..i + 1][..i] == extra[..i];
      if extra[i].id !in ids {
        assert prev + (kept + [extra[i]]) == (prev + kept) + [extra[i]];
        acc := acc + [extra[i]];
      } else {
        assert kept + [] == kept;
      }
    }
    assert extra[..|extra|] == extra;
    merged := NewestFirst(acc);
  }

  /** The file's records parsed on chain 1, then imported. */
  method ImportCsvFile(prev: seq<Activity>, text: string, toMillis: string -> int) returns (merged: seq<Activity>)
    ensures merged == CsvImported(prev, Csv.CsvSpec(text, 1, toMillis))
  {
    var extra := Csv.ParseEtherscanCsv(text, 1, toMillis);
    merged := ImportCsv(prev, extra);
  }

  /**
   * An import never drops an earlier record, adds every new record whose id the earlier ones
   * lack (also when several new ones share an id) and nothing else, and keeps newest first.
   */
  lemma CsvImportFacts(prev: seq<Activity>, extra: seq<Activity>)
    ensures var r := CsvImported(prev, extra);
      && multiset(prev) <= multiset(r)
      && (forall x :: multiset(r)[x] == multiset(prev)[x] + (if x.id in Ids(prev) then 0 else multiset(extra)[x]))
      && (forall i, j :: 0 <= i < j < |r| ==> r[i].timestamp >= r[j].timestamp)
  {
    Seqs.FilterMultiset(IdNotIn(Ids(prev)), extra);
  }
}
