/**
 * `PathSankey`: the token transfers inside the wallet's largest USD activities. For each of the
 * `topN` activities with the most USD, the transaction's decoded `Transfer` logs become edges that
 * share the activity's USD equally; the edges are summed per (from, to) and those touching the
 * wallet are listed as inbound and outbound links.
 */
module Sankey {
  import opened Wrappers
  import opened Text
  import opened Activities
  import opened Sorting
  import opened Grouping
  import Seqs

  // ---------------------------------------------------------------- the transaction detail

  /** A decoded parameter; `value` is present when it is a string. */
  datatype Param = Param(name: Option<string>, value: Option<string>)

  /** A decoded log; a missing name is the empty string. */
  datatype Decoded = Decoded(name: string, params: Option<seq<Param>>)

  datatype LogEvent = LogEvent(decoded: Option<Decoded>)

  datatype DetailItem = DetailItem(logEvents: Option<seq<LogEvent>>)

  /** The part of a transaction-detail response the view reads. */
  datatype Detail = Detail(items: Option<seq<DetailItem>>, logEvents: Option<seq<LogEvent>>)

  /** A transfer between two lower-cased, non-empty addresses. */
  datatype Edge = Edge(from: string, to: string)

  /** `detail?.items?.[0]?.log_events ?? detail?.log_events ?? []`. */
  function LogsOf(d: Detail): seq<LogEvent> {
    if d.items.Some? && |d.items.value| > 0 && d.items.value[0].logEvents.Some? then d.items.value[0].logEvents.value
    else if d.logEvents.Some? then d.logEvents.value
    else []
  }

  /** `params.find(p => p?.name === n)`. */
  function FindParam(ps: seq<Param>, n: string): (r: Option<Param>)
    ensures r.Some? ==> r.value in ps && r.value.name == Some(n)
    ensures r.None? ==> forall p :: p in ps ==> p.name != Some(n)
  {
    if ps == [] then None
    else if ps[0].name == Some(n) then Some(ps[0])
    else FindParam(ps[1..], n)
  }

  /** `decoded.params?.find(p => p?.name === n)?.value?.toLowerCase?.()`, with "" for undefined. */
  function ParamValue(d: Decoded, n: string): string {
    if d.params.None? then ""
    else
      match FindParam(d.params.value, n)
      case None => ""
      case Some(p) => Lower(p.value.GetOr(""))
  }

  /** The edge a log contributes: a decoded `transfer` (any case) with both endpoints. */
  function LogEdge(le: LogEvent): Option<Edge> {
    match le.decoded
    case None => None
    case Some(d) =>
      if Lower(d.name) != "transfer" then None
      else
        var from := ParamValue(d, "from");
        var to := ParamValue(d, "to");
        if from != "" && to != "" then Some(Edge(from, to)) else None
  }

  /** The edges of the logs, in log order. */
  function EdgesOf(logs: seq<LogEvent>): seq<Edge> {
    if logs == [] then []
    else
      var e := LogEdge(logs[|logs| - 1]);
      EdgesOf(logs[..|logs| - 1]) + (if e.Some? then [e.value] else [])
  }

  /** `buildEdgesFromLogs`. */
  method BuildEdgesFromLogs(detail: Detail) returns (edges: seq<Edge>)
    ensures edges == EdgesOf(LogsOf(detail))
  {
    var logs := LogsOf(detail);
    edges := [];
    for i := 0 to |logs|
      invariant edges == EdgesOf(logs[..i])
    {
      assert logs[..i + 1][..i] == logs[..i];
      var le := logs[i];
      if le.decoded.None? {
        continue;
      }
      var decoded := le.decoded.value;
      if Lower(decoded.name) == "transfer" {
        var from := ParamValue(decoded, "from");
        var to := ParamValue(decoded, "to");
        if from != "" && to != "" {
          edges := edges + [Edge(from, to)];
        }
      }
    }
    assert logs[..|logs|] == logs;
  }

  /** Logs are read one by one, in order: the edges of two runs of logs are concatenated. */
  lemma {:induction false} EdgesOfConcat(a: seq<LogEvent>, b: seq<LogEvent>)
    ensures EdgesOf(a + b) == EdgesOf(a) + EdgesOf(b)
    decreases |b|
  {
    if b == [] {
      assert a + b == a;
    } else {
      var init := b[..|b| - 1];
      assert (a + b)[..|a + b| - 1] == a + init;
      EdgesOfConcat(a, init);
    }
  }

  /** A log gives an edge exactly when it is a decoded transfer naming both endpoints; they come lower-cased. */
  lemma LogEdgeFacts(le: LogEvent)
    ensures LogEdge(le).Some? <==>
      le.decoded.Some? && Lower(le.decoded.value.name) == "transfer"
      && ParamValue(le.decoded.value, "from") != "" && ParamValue(le.decoded.value, "to") != ""
    ensures LogEdge(le).Some? ==>
      var e := LogEdge(le).value;
      e.from != "" && e.to != "" && Lower(e.from) == e.from && Lower(e.to) == e.to
  {
    if LogEdge(le).Some? {
      var d := le.decoded.value;
      var pf := FindParam(d.params.value, "from").value;
      var pt := FindParam(d.params.value, "to").value;
      LowerIdempotent(pf.value.GetOr(""));
      LowerIdempotent(pt.value.GetOr(""));
    }
  }

  /** At most one edge per log, and every edge comes from a log. */
  lemma {:induction false} EdgesFromLogs(logs: seq<LogEvent>)
    ensures |EdgesOf(logs)| <= |logs|
    ensures forall e :: e in EdgesOf(logs) ==> exists le :: le in logs && LogEdge(le) == Some(e)
  {
    if logs != [] {
      var init := logs[..|logs| - 1];
      EdgesFromLogs(init);
      forall e | e in EdgesOf(logs)
        ensures exists le :: le in logs && LogEdge(le) == Some(e)
      {
        if e in EdgesOf(init) {
          var le :| le in init && LogEdge(le) == Some(e);
          assert le in logs;
        } else {
          assert LogEdge(logs[|logs| - 1]) == Some(e);
        }
      }
    }
  }

  // ---------------------------------------------------------------- the queried activities

  /** The number of activities queried when the caller gives none. */
  const DefaultTopN := 30

  /** `typeof i.amountUSD === 'number' && i.amountUSD > 0`. */
  predicate PositiveUsd(a: Activity) {
    a.amountUSD.Some? && a.amountUSD.value > 0.0
  }

  function UsdKey(a: Activity): Rank {
    By(UsdOrZero(a))
  }

  /** `top`: the positive-USD activities, largest first, at most `topN`. */
  function Top(items: seq<Activity>, topN: int): seq<Activity> {
    Slice(SortDesc(Seqs.Filter(PositiveUsd, items), UsdKey), topN)
  }

  /**
   * The queried activities are the `topN` largest positive ones (all of them when there are fewer):
   * none left out is larger than one kept.
   */
  lemma TopChosenFacts(items: seq<Activity>, topN: int)
    ensures var (top, pos) := (Top(items, topN), Seqs.Filter(PositiveUsd, items));
      && (topN >= 0 ==> |top| == if topN < |pos| then topN else |pos|)
      && multiset(top) <= multiset(pos)
      && (forall a, b :: a in top && b in multiset(pos) - multiset(top) ==> UsdOrZero(a) >= UsdOrZero(b))
  {
    var pos := Seqs.Filter(PositiveUsd, items);
    var top := Top(items, topN);
    TopChosen(pos, UsdKey, topN);
    forall a, b | a in top && b in multiset(pos) - multiset(top)
      ensures UsdOrZero(a) >= UsdOrZero(b)
    {
      assert RankGe(UsdKey(a), UsdKey(b));
    }
  }

  /** The queried activities have positive USD, come from the input, are sorted, and are at most `topN`. */
  lemma TopFacts(items: seq<Activity>, topN: int)
    ensures var top := Top(items, topN);
      && (forall a :: a in top ==> a in items && PositiveUsd(a))
      && (forall i, j :: 0 <= i < j < |top| ==> UsdOrZero(top[i]) >= UsdOrZero(top[j]))
      && (topN >= 0 ==> |top| <= topN)
  {
    TopOf(Seqs.Filter(PositiveUsd, items), UsdKey, topN);
  }

  /** With a positive `topN`, nothing is queried exactly when no activity has positive USD. */
  lemma TopEmpty(items: seq<Activity>, topN: int)
    requires topN > 0
    ensures Top(items, topN) == [] <==> forall a :: a in items ==> !PositiveUsd(a)
  {
    var pos := Seqs.Filter(PositiveUsd, items);
    TopOf(pos, UsdKey, topN);
    if pos != [] {
      assert pos[0] in pos;
    } else {
      forall a | a in items
        ensures !PositiveUsd(a)
      {
        if PositiveUsd(a) {
          Seqs.FilterHas(PositiveUsd, items, a);
        }
      }
    }
  }

  // ---------------------------------------------------------------- the shares

  /** One result edge: the transfer and its share of the activity's USD. */
  datatype SankeyEdge = SankeyEdge(from: string, to: string, usd: real)

  function ShareOf(share: real): Edge -> SankeyEdge {
    (e: Edge) => SankeyEdge(e.from, e.to, share)
  }

  function EdgeUsd(e: SankeyEdge): real {
    e.usd
  }

  /** What one queried activity adds: nothing on a failed lookup or without edges, else the shares. */
  function Shares(it: Activity, detail: Outcome<Detail>): seq<SankeyEdge> {
    if detail.Failed? then []
    else
      var edges := EdgesOf(LogsOf(detail.value));
      if edges == [] then [] else Seqs.Map(ShareOf(UsdOrZero(it) / |edges| as real), edges)
  }

  /** The `results` of the queried activities, given the detail lookup. */
  function ResultsOf(top: seq<Activity>, fetchDetail: (int, string) -> Outcome<Detail>): seq<SankeyEdge> {
    if top == [] then []
    else
      var it := top[|top| - 1];
      ResultsOf(top[..|top| - 1], fetchDetail) + Shares(it, fetchDetail(it.chainId, it.txHash))
  }

  /** The loop over the queried activities. */
  method CollectResults(top: seq<Activity>, fetchDetail: (int, string) -> Outcome<Detail>)
    returns (results: seq<SankeyEdge>)
    ensures results == ResultsOf(top, fetchDetail)
  {
    results := [];
    for i := 0 to |top|
      invariant results == ResultsOf(top[..i], fetchDetail)
    {
      var it := top[i];
      ResultsStep(top, i, fetchDetail);
      var detail := fetchDetail(it.chainId, it.txHash);
      if detail.Failed? {
        continue;
      }
      var edges := BuildEdgesFromLogs(detail.value);
      if |edges| == 0 {
        continue;
      }
      var share := UsdOrZero(it) / |edges| as real;
      results := PushShares(results, edges, share);
    }
    assert top[..|top|] == top;
  }

  /** The inner loop: one result edge per transfer, each with the same share. */
  method PushShares(results: seq<SankeyEdge>, edges: seq<Edge>, share: real) returns (r: seq<SankeyEdge>)
    ensures r == results + Seqs.Map(ShareOf(share), edges)
  {
    r := results;
    for j := 0 to |edges|
      invariant r == results + Seqs.Map(ShareOf(share), edges[..j])
    {
      assert edges[..j + 1] == edges[..j] + [edges[j]];
      Seqs.MapSnoc(ShareOf(share), edges[..j], edges[j]);
      r := r + [SankeyEdge(edges[j].from, edges[j].to, share)];
    }
    assert edges[..|edges|] == edges;
  }

  /** One turn of the loop over the queried activities. */
  lemma ResultsStep(top: seq<Activity>, i: nat, fetchDetail: (int, string) -> Outcome<Detail>)
    requires i < |top|
    ensures ResultsOf(top[..i + 1], fetchDetail)
         == ResultsOf(top[..i], fetchDetail) + Shares(top[i], fetchDetail(top[i].chainId, top[i].txHash))
  {
    assert top[..i + 1][..i] == top[..i];
  }

  /** `n` equal shares add up to the share added `n` times. */
  lemma {:induction false} EqualShares(share: real, edges: seq<Edge>)
    ensures Seqs.SumBy(EdgeUsd, Seqs.Map(ShareOf(share), edges)) == Repeat(|edges|, share)
  {
    if edges != [] {
      var init := edges[..|edges| - 1];
      EqualShares(share, init);
      var before := Seqs.Map(ShareOf(share), init);
      var x := ShareOf(share)(edges[|edges| - 1]);
      assert Seqs.Map(ShareOf(share), edges) == before + [x];
      assert (before + [x])[..|before|] == before;
    }
  }

  /** `c` added `n` times. */
  function Repeat(n: nat, c: real): real {
    if n == 0 then 0.0 else Repeat(n - 1, c) + c
  }

  lemma {:induction false} RepeatIsProduct(n: nat, c: real)
    ensures Repeat(n, c) == n as real * c
  {
    if n > 0 {
      RepeatIsProduct(n - 1, c);
      OneMoreShare((n - 1) as real, c, Repeat(n - 1, c));
    }
  }

  lemma OneMoreShare(k: real, share: real, sum: real)
    requires sum == k * share
    ensures sum + share == (k + 1.0) * share
  {
  }

  /** The USD an activity passes on: all of it when its lookup succeeds with edges, else nothing. */
  function Passed(fetchDetail: (int, string) -> Outcome<Detail>): Activity -> real {
    (it: Activity) =>
      var d := fetchDetail(it.chainId, it.txHash);
      if d.Ok? && EdgesOf(LogsOf(d.value)) != [] then UsdOrZero(it) else 0.0
  }

  /** An activity's shares add up to its USD, or to nothing when it contributes no edge. */
  lemma SharesSum(it: Activity, detail: Outcome<Detail>)
    ensures Seqs.SumBy(EdgeUsd, Shares(it, detail)) ==
      if detail.Ok? && EdgesOf(LogsOf(detail.value)) != [] then UsdOrZero(it) else 0.0
  {
    if detail.Ok? && EdgesOf(LogsOf(detail.value)) != [] {
      var edges := EdgesOf(LogsOf(detail.value));
      EqualShares(UsdOrZero(it) / |edges| as real, edges);
      SplitEvenly(UsdOrZero(it), |edges|);
    }
  }

  /** `k` shares of `u / k` make `u` again. */
  lemma SplitEvenly(u: real, k: nat)
    requires k > 0
    ensures Repeat(k, u / k as real) == u
  {
    RepeatIsProduct(k, u / k as real);
    DivTimes(u, k as real);
  }

  lemma DivTimes(u: real, n: real)
    requires n > 0.0
    ensures n * (u / n) == u
  {
  }

  /** The results carry exactly the USD of the queried activities that have edges. */
  lemma {:induction false} ResultsTotal(top: seq<Activity>, fetchDetail: (int, string) -> Outcome<Detail>)
    ensures Seqs.SumBy(EdgeUsd, ResultsOf(top, fetchDetail)) == Seqs.SumBy(Passed(fetchDetail), top)
  {
    if top != [] {
      var it := top[|top| - 1];
      ResultsTotal(top[..|top| - 1], fetchDetail);
      Seqs.SumByConcat(EdgeUsd, ResultsOf(top[..|top| - 1], fetchDetail), Shares(it, fetchDetail(it.chainId, it.txHash)));
      SharesSum(it, fetchDetail(it.chainId, it.txHash));
    }
  }

  // ---------------------------------------------------------------- the graph

  /** `${e.from}->${e.to}`, as a pair. */
  function PairOf(e: SankeyEdge): (string, string) {
    (e.from, e.to)
  }

  predicate Every(e: SankeyEdge) {
    true
  }

  /** `agg` in insertion order: the USD per (from, to). */
  function Agg(results: seq<SankeyEdge>): seq<((string, string), Tally)> {
    Groups(results, Every, PairOf, EdgeUsd)
  }

  /** A listed counterparty and the USD on its aggregated edge. */
  datatype Link = Link(addr: string, usd: real)

  datatype Graph = Graph(inbound: seq<Link>, outbound: seq<Link>, max: real)

  function Into(pivot: string): (((string, string), Tally)) -> bool {
    (e: ((string, string), Tally)) => e.0.1 == pivot
  }

  function OutOf(pivot: string): (((string, string), Tally)) -> bool {
    (e: ((string, string), Tally)) => e.0.0 == pivot
  }

  function FromLink(e: ((string, string), Tally)): Link {
    Link(e.0.0, e.1.sum)
  }

  function ToLink(e: ((string, string), Tally)): Link {
    Link(e.0.1, e.1.sum)
  }

  function LinkRank(l: Link): Rank {
    By(l.usd)
  }

  function RealMax(a: real, b: real): real {
    if a >= b then a else b
  }

  /** `max` after the `forEach`: starts at 0 and takes every aggregated edge at the pivot. */
  function MaxAt(entries: seq<((string, string), Tally)>, pivot: string): real {
    if entries == [] then 0.0
    else
      var e := entries[|entries| - 1];
      var m := MaxAt(entries[..|entries| - 1], pivot);
      if e.0.1 == pivot || e.0.0 == pivot then RealMax(m, e.1.sum) else m
  }

  /** The `graph` memo. */
  function GraphOf(results: seq<SankeyEdge>, wallet: string): Graph {
    var es := Agg(results);
    var pivot := Lower(wallet);
    Graph(SortDesc(Seqs.Map(FromLink, Seqs.Filter(Into(pivot), es)), LinkRank),
          SortDesc(Seqs.Map(ToLink, Seqs.Filter(OutOf(pivot), es)), LinkRank),
          MaxAt(es, pivot))
  }

  /** The `forEach` over `agg`: both tests run, so a self-loop at the pivot lands in both lists. */
  method Adjacency(entries: seq<((string, string), Tally)>, pivot: string)
    returns (inbound: seq<Link>, outbound: seq<Link>, max: real)
    ensures inbound == Seqs.Map(FromLink, Seqs.Filter(Into(pivot), entries))
    ensures outbound == Seqs.Map(ToLink, Seqs.Filter(OutOf(pivot), entries))
    ensures max == MaxAt(entries, pivot)
  {
    inbound, outbound, max := [], [], 0.0;
    for i := 0 to |entries|
      invariant inbound == Seqs.Map(FromLink, Seqs.Filter(Into(pivot), entries[..i]))
      invariant outbound == Seqs.Map(ToLink, Seqs.Filter(OutOf(pivot), entries[..i]))
      invariant max == MaxAt(entries[..i], pivot)
    {
      var e := entries[i];
      AdjacencyStep(entries, i, pivot);
      var from, to, usd := e.0.0, e.0.1, e.1.sum;
      if to == pivot {
        inbound := inbound + [Link(from, usd)];
        max := RealMax(max, usd);
      }
      if from == pivot {
        outbound := outbound + [Link(to, usd)];
        max := RealMax(max, usd);
      }
    }
    assert entries[..|entries|] == entries;
  }

  /** One turn of the `forEach`: what each list gains and what `max` becomes. */
  lemma AdjacencyStep(entries: seq<((string, string), Tally)>, i: nat, pivot: string)
    requires i < |entries|
    ensures var e := entries[i];
      && Seqs.Map(FromLink, Seqs.Filter(Into(pivot), entries[..i + 1]))
         == Seqs.Map(FromLink, Seqs.Filter(Into(pivot), entries[..i])) + (if e.0.1 == pivot then [Link(e.0.0, e.1.sum)] else [])
      && Seqs.Map(ToLink, Seqs.Filter(OutOf(pivot), entries[..i + 1]))
         == Seqs.Map(ToLink, Seqs.Filter(OutOf(pivot), entries[..i])) + (if e.0.0 == pivot then [Link(e.0.1, e.1.sum)] else [])
      && MaxAt(entries[..i + 1], pivot)
         == (if e.0.1 == pivot || e.0.0 == pivot then RealMax(MaxAt(entries[..i], pivot), e.1.sum) else MaxAt(entries[..i], pivot))
      && RealMax(RealMax(MaxAt(entries[..i], pivot), e.1.sum), e.1.sum) == RealMax(MaxAt(entries[..i], pivot), e.1.sum)
  {
    var e := entries[i];
    var s := entries[..i];
    assert entries[..i + 1] == s + [e];
    MapFilterSnoc(FromLink, Into(pivot), s, e);
    MapFilterSnoc(ToLink, OutOf(pivot), s, e);
    assert (s + [e])[..i] == s;
  }

  /** Filtering then mapping one more element. */
  lemma MapFilterSnoc<A, B>(f: A -> B, p: A -> bool, s: seq<A>, x: A)
    ensures Seqs.Map(f, Seqs.Filter(p, s + [x])) == Seqs.Map(f, Seqs.Filter(p, s)) + (if p(x) then [f(x)] else [])
  {
    Seqs.FilterSnoc(p, s, x);
    if p(x) {
      Seqs.MapSnoc(f, Seqs.Filter(p, s), x);
    } else {
      assert Seqs.Filter(p, s) + [] == Seqs.Filter(p, s);
    }
  }

  /** The `graph` memo. */
  method BuildGraph(results: seq<SankeyEdge>, wallet: string) returns (g: Graph)
    ensures g == GraphOf(results, wallet)
  {
    var pivot := Lower(wallet);
    var entries := GroupEntries(results, Every, PairOf, EdgeUsd);
    var inbound, outbound, max := Adjacency(entries, pivot);
    inbound := SortDesc(inbound, LinkRank);
    outbound := SortDesc(outbound, LinkRank);
    g := Graph(inbound, outbound, max);
  }

  /** Each aggregated edge carries the total USD of the result edges between its endpoints, once. */
  lemma AggAt(results: seq<SankeyEdge>, k: nat)
    requires k < |Agg(results)|
    ensures Agg(results)[k].1.sum == SumOf(results, Every, PairOf, EdgeUsd, Agg(results)[k].0)
    ensures forall j :: 0 <= j < |Agg(results)| && j != k ==> Agg(results)[j].0 != Agg(results)[k].0
  {
    GroupAt(results, Every, PairOf, EdgeUsd, k);
    GroupsDistinct(results, Every, PairOf, EdgeUsd);
  }

  /** An always-true filter sums everything. */
  lemma {:induction false} SumEvery(results: seq<SankeyEdge>)
    ensures SumIncluded(results, Every, EdgeUsd) == Seqs.SumBy(EdgeUsd, results)
  {
    if results != [] {
      SumEvery(results[..|results| - 1]);
    }
  }

  /** Aggregation loses no USD: the aggregated edges add up to the USD the queried activities passed on. */
  lemma AggTotal(top: seq<Activity>, fetchDetail: (int, string) -> Outcome<Detail>)
    ensures Seqs.SumBy((e: ((string, string), Tally)) => e.1.sum, Agg(ResultsOf(top, fetchDetail)))
         == Seqs.SumBy(Passed(fetchDetail), top)
  {
    var results := ResultsOf(top, fetchDetail);
    GroupsTotals(results, Every, PairOf, EdgeUsd);
    SumEvery(results);
    ResultsTotal(top, fetchDetail);
  }

  /** Exactly the aggregated edges into the pivot are listed inbound, under their senders. */
  lemma InboundExact(results: seq<SankeyEdge>, wallet: string, l: Link)
    ensures var es := Agg(results);
      l in GraphOf(results, wallet).inbound <==> exists k :: 0 <= k < |es| && es[k].0.1 == Lower(wallet) && FromLink(es[k]) == l
  {
    ListedHas(FromLink, Into(Lower(wallet)), Agg(results), l);
  }

  /**
   * Exactly the aggregated edges out of the pivot are listed outbound, under their recipients; a
   * self-loop at the pivot is therefore listed on both sides.
   */
  lemma OutboundExact(results: seq<SankeyEdge>, wallet: string, l: Link)
    ensures var es := Agg(results);
      l in GraphOf(results, wallet).outbound <==> exists k :: 0 <= k < |es| && es[k].0.0 == Lower(wallet) && ToLink(es[k]) == l
  {
    ListedHas(ToLink, OutOf(Lower(wallet)), Agg(results), l);
  }

  /** A link is listed exactly when some kept entry gives it; sorting keeps the same links. */
  lemma ListedHas<A>(f: A -> Link, p: A -> bool, s: seq<A>, l: Link)
    ensures l in SortDesc(Seqs.Map(f, Seqs.Filter(p, s)), LinkRank) <==> exists k :: 0 <= k < |s| && p(s[k]) && f(s[k]) == l
  {
    MapFilterHas(f, p, s, l);
    SortDescHas(Seqs.Map(f, Seqs.Filter(p, s)), LinkRank, l);
  }

  /** `y` is among the images of the kept elements exactly when some kept element maps to it. */
  lemma {:induction false} MapFilterHas<A, B>(f: A -> B, p: A -> bool, s: seq<A>, y: B)
    ensures y in Seqs.Map(f, Seqs.Filter(p, s)) <==> exists k :: 0 <= k < |s| && p(s[k]) && f(s[k]) == y
  {
    if s != [] {
      var init := s[..|s| - 1];
      var x := s[|s| - 1];
      MapFilterHas(f, p, init, y);
      assert s == init + [x];
      MapFilterSnoc(f, p, init, x);
      var before := Seqs.Map(f, Seqs.Filter(p, init));
      if y in Seqs.Map(f, Seqs.Filter(p, s)) {
        if y in before {
          var k :| 0 <= k < |init| && p(init[k]) && f(init[k]) == y;
          assert s[k] == init[k];
        } else {
          assert p(s[|s| - 1]) && f(s[|s| - 1]) == y;
        }
      } else {
        forall k | 0 <= k < |s| && p(s[k])
          ensures f(s[k]) != y
        {
          if k < |init| {
            assert s[k] == init[k];
          }
        }
      }
    }
  }

  /** Both lists are in descending order of USD. */
  lemma GraphSorted(results: seq<SankeyEdge>, wallet: string)
    ensures var g := GraphOf(results, wallet);
      && (forall i, j :: 0 <= i < j < |g.inbound| ==> g.inbound[i].usd >= g.inbound[j].usd)
      && (forall i, j :: 0 <= i < j < |g.outbound| ==> g.outbound[i].usd >= g.outbound[j].usd)
  {
    var es := Agg(results);
    var pivot := Lower(wallet);
    SortDescSorted(Seqs.Map(FromLink, Seqs.Filter(Into(pivot), es)), LinkRank);
    SortDescSorted(Seqs.Map(ToLink, Seqs.Filter(OutOf(pivot), es)), LinkRank);
  }

  /**
   * `max` is 0 when no aggregated edge touches the pivot, and otherwise the largest USD among those
   * that do (when that is positive): at least each of them, and 0 or one of them.
   */
  lemma {:induction false} MaxAtFacts(entries: seq<((string, string), Tally)>, pivot: string)
    ensures MaxAt(entries, pivot) >= 0.0
    ensures forall k :: 0 <= k < |entries| && (entries[k].0.1 == pivot || entries[k].0.0 == pivot) ==>
      MaxAt(entries, pivot) >= entries[k].1.sum
    ensures MaxAt(entries, pivot) == 0.0 ||
      exists k :: 0 <= k < |entries| && (entries[k].0.1 == pivot || entries[k].0.0 == pivot) && MaxAt(entries, pivot) == entries[k].1.sum
  {
    if entries != [] {
      var init := entries[..|entries| - 1];
      MaxAtFacts(init, pivot);
      assert forall k :: 0 <= k < |init| ==> init[k] == entries[k];
      if MaxAt(entries, pivot) != 0.0 && MaxAt(entries, pivot) == MaxAt(init, pivot) {
        var k :| 0 <= k < |init| && (init[k].0.1 == pivot || init[k].0.0 == pivot) && MaxAt(init, pivot) == init[k].1.sum;
        assert entries[k] == init[k];
      }
    }
  }
}
