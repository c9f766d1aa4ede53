/**
 * `RadialBubbleMap`: the wallet's counterparties as bubbles around it, one per direction, chain and
 * counterparty, sized by the USD exchanged, the largest `topN` of them.
 */
module Radial {
  import opened Text
  import opened Activities
  import opened Sorting
  import opened Grouping
  import Seqs

  datatype Dir = In | Out

  /** `in:<chainId>:<from>` or `out:<chainId>:<to>`, as a record. */
  datatype NodeKey = NodeKey(dir: Dir, chainId: int, addr: string)

  /** One bubble before placement. */
  datatype RadialNode = RadialNode(addr: string, chainId: int, dir: Dir, usd: real)

  /** The number of bubbles when the caller gives none. */
  const DefaultTopN := 60

  /**
   * The pivot: the state starts as the lower-cased wallet and is only ever reset to it, so it is
   * always the lower-cased wallet.
   */
  function Pivot(wallet: string): string {
    Lower(wallet)
  }

  /** Summed: positive USD, both endpoints, and the pivot is one of them. */
  predicate Counted(pivot: string, a: Activity) {
    && UsdOrZero(a) > 0.0
    && Lower(a.from) != "" && Lower(a.to) != ""
    && (Lower(a.to) == pivot || Lower(a.from) == pivot)
  }

  function CountedAt(pivot: string): Activity -> bool {
    a => Counted(pivot, a)
  }

  /** Inbound when the pivot receives (so a self-loop is inbound), else outbound. */
  function KeyOf(pivot: string, a: Activity): NodeKey {
    if Lower(a.to) == pivot then NodeKey(In, a.chainId, Lower(a.from))
    else NodeKey(Out, a.chainId, Lower(a.to))
  }

  function KeyAt(pivot: string): Activity -> NodeKey {
    a => KeyOf(pivot, a)
  }

  function AsNode(e: (NodeKey, Tally)): RadialNode {
    RadialNode(e.0.addr, e.0.chainId, e.0.dir, e.1.sum)
  }

  function UsdRank(n: RadialNode): Rank {
    By(n.usd)
  }

  /** `Math.max(1, ...arr.map(x => x.usd))`. */
  function MaxUsd(arr: seq<RadialNode>): real {
    if arr == [] then 1.0
    else
      var m := MaxUsd(arr[..|arr| - 1]);
      if arr[|arr| - 1].usd > m then arr[|arr| - 1].usd else m
  }

  /** The `sums` values, in insertion order. */
  function AllNodes(items: seq<Activity>, pivot: string): seq<RadialNode> {
    Seqs.Map(AsNode, Groups(items, CountedAt(pivot), KeyAt(pivot), UsdOrZero))
  }

  /** The drawn bubbles and the scale's maximum. */
  function NodesOf(items: seq<Activity>, wallet: string, topN: int): (seq<RadialNode>, real) {
    var arr := Slice(SortDesc(AllNodes(items, Pivot(wallet)), UsdRank), topN);
    (arr, MaxUsd(arr))
  }

  /** The memo, up to placement. */
  method ComputeNodes(items: seq<Activity>, wallet: string, topN: int) returns (arr: seq<RadialNode>, max: real)
    ensures (arr, max) == NodesOf(items, wallet, topN)
  {
    var pivot := Pivot(wallet);
    var entries := GroupEntries(items, CountedAt(pivot), KeyAt(pivot), UsdOrZero);
    arr := Slice(SortDesc(Seqs.Map(AsNode, entries), UsdRank), topN);
    max := MaxUsd(arr);
  }

  /** The maximum is at least 1, at least every bubble's USD, and is 1 or one of them. */
  lemma {:induction false} MaxUsdBounds(arr: seq<RadialNode>)
    ensures MaxUsd(arr) >= 1.0
    ensures forall n :: n in arr ==> MaxUsd(arr) >= n.usd
    ensures MaxUsd(arr) == 1.0 || exists n :: n in arr && MaxUsd(arr) == n.usd
  {
    if arr != [] {
      var init := arr[..|arr| - 1];
      MaxUsdBounds(init);
      assert arr == init + [arr[|arr| - 1]];
      if MaxUsd(arr) != 1.0 && MaxUsd(arr) == MaxUsd(init) {
        var n :| n in init && MaxUsd(init) == n.usd;
        assert n in arr;
      }
    }
  }

  /**
   * A bubble stands for the counted activities of one direction, chain and counterparty: its USD
   * is their total, and there is at least one of them, whose lower-cased endpoints give the
   * direction (inbound: the pivot receives from the bubble's address; outbound: the pivot sends to
   * it and does not receive).
   */
  lemma NodeAt(items: seq<Activity>, pivot: string, k: nat)
    requires k < |AllNodes(items, pivot)|
    ensures var n := AllNodes(items, pivot)[k];
      && n.usd == SumOf(items, CountedAt(pivot), KeyAt(pivot), UsdOrZero, NodeKey(n.dir, n.chainId, n.addr))
      && exists i :: 0 <= i < |items| && UsdOrZero(items[i]) > 0.0 && items[i].chainId == n.chainId
           && (n.dir == In ==> Lower(items[i].to) == pivot && Lower(items[i].from) == n.addr)
           && (n.dir == Out ==> Lower(items[i].to) != pivot && Lower(items[i].from) == pivot && Lower(items[i].to) == n.addr)
  {
    var g := Groups(items, CountedAt(pivot), KeyAt(pivot), UsdOrZero);
    Seqs.MapAt(AsNode, g);
    GroupAt(items, CountedAt(pivot), KeyAt(pivot), UsdOrZero, k);
    var i :| 0 <= i < |items| && CountedAt(pivot)(items[i]) && KeyAt(pivot)(items[i]) == g[k].0;
    assert Counted(pivot, items[i]) && KeyOf(pivot, items[i]) == g[k].0;
  }

  /** No (direction, chain, counterparty) has two bubbles. */
  lemma NodesDistinct(items: seq<Activity>, pivot: string)
    ensures var ns := AllNodes(items, pivot);
      && Seqs.Distinct(ns)
      && forall i, j :: 0 <= i < j < |ns| ==> (ns[i].dir, ns[i].chainId, ns[i].addr) != (ns[j].dir, ns[j].chainId, ns[j].addr)
  {
    Seqs.MapAt(AsNode, Groups(items, CountedAt(pivot), KeyAt(pivot), UsdOrZero));
    GroupsDistinct(items, CountedAt(pivot), KeyAt(pivot), UsdOrZero);
  }

  /** The drawn bubbles are the `topN` largest (all of them when there are fewer). */
  lemma NodesChosen(items: seq<Activity>, wallet: string, topN: int)
    ensures var (arr, all) := (NodesOf(items, wallet, topN).0, AllNodes(items, Pivot(wallet)));
      && (topN >= 0 ==> |arr| == if topN < |all| then topN else |all|)
      && (forall n, m :: n in arr && m in all && m !in arr ==> n.usd >= m.usd)
  {
    RankedNodes(AllNodes(items, Pivot(wallet)), topN);
  }

  lemma RankedNodes(all: seq<RadialNode>, topN: int)
    ensures var arr := Slice(SortDesc(all, UsdRank), topN);
      && (topN >= 0 ==> |arr| == if topN < |all| then topN else |all|)
      && (forall n, m :: n in arr && m in all && m !in arr ==> n.usd >= m.usd)
  {
    var arr := Slice(SortDesc(all, UsdRank), topN);
    TopChosen(all, UsdRank, topN);
    forall n, m | n in arr && m in all && m !in arr
      ensures n.usd >= m.usd
    {
      assert RankGe(UsdRank(n), UsdRank(m));
    }
  }

  /**
   * The drawn bubbles are sorted by USD, at most `topN`, drawn from the groups without repeating a
   * (direction, chain, counterparty), and the scale's maximum is at least 1 and every bubble's USD.
   */
  lemma NodesFacts(items: seq<Activity>, wallet: string, topN: int)
    ensures var (arr, max) := NodesOf(items, wallet, topN);
      && (forall i, j :: 0 <= i < j < |arr| ==> arr[i].usd >= arr[j].usd)
      && (topN >= 0 ==> |arr| <= topN)
      && (forall n :: n in arr ==> n in AllNodes(items, Pivot(wallet)))

      && (forall i, j :: 0 <= i < j < |arr| ==> (arr[i].dir, arr[i].chainId, arr[i].addr) != (arr[j].dir, arr[j].chainId, arr[j].addr))
      && max >= 1.0
      && (forall n :: n in arr ==> max >= n.usd)
  {
    var ns := AllNodes(items, Pivot(wallet));
    var arr := NodesOf(items, wallet, topN).0;
    NodesDistinct(items, Pivot(wallet));
    TopOf(ns, UsdRank, topN);
    MaxUsdBounds(arr);
    forall i, j | 0 <= i < j < |arr|
      ensures (arr[i].dir, arr[i].chainId, arr[i].addr) != (arr[j].dir, arr[j].chainId, arr[j].addr)
    {
      assert arr[i] in ns && arr[j] in ns;
    }
  }

  /** Every bubble's USD is positive, being a sum of positive amounts. */
  lemma NodePositive(items: seq<Activity>, pivot: string, k: nat)
    requires k < |AllNodes(items, pivot)|
    ensures AllNodes(items, pivot)[k].usd > 0.0
  {
    var g := Groups(items, CountedAt(pivot), KeyAt(pivot), UsdOrZero);
    Seqs.MapAt(AsNode, g);
    GroupAt(items, CountedAt(pivot), KeyAt(pivot), UsdOrZero, k);
    SumPositive(items, CountedAt(pivot), KeyAt(pivot), g[k].0);
  }

  /** A key that some counted activity has sums to a positive amount. */
  lemma {:induction false} SumPositive(s: seq<Activity>, keep: Activity -> bool, key: Activity -> NodeKey, k: NodeKey)
    requires forall x :: x in s && keep(x) ==> UsdOrZero(x) > 0.0
    requires exists i :: 0 <= i < |s| && keep(s[i]) && key(s[i]) == k
    ensures SumOf(s, keep, key, UsdOrZero, k) > 0.0
  {
    var init := s[..|s| - 1];
    var x := s[|s| - 1];
    SumOfNonneg(init, keep, key, UsdOrZero, k);
    if !(keep(x) && key(x) == k) {
      var i :| 0 <= i < |s| && keep(s[i]) && key(s[i]) == k;
      assert init[i] == s[i];
      SumPositive(init, keep, key, k);
    }
  }
}
