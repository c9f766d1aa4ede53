/**
 * `FlowGraph`: the USD flowing along each (sender, recipient) pair, split into the edges into the
 * pivot address and the edges out of it. The pivot starts as the wallet and moves to any address
 * the user clicks.
 */
module FlowGraph {
  import opened Text
  import opened Activities
  import opened Sorting
  import opened Grouping
  import Seqs

  /** One aggregated edge: lower-cased endpoints, USD total and number of activities. */
  datatype AggEdge = AggEdge(from: string, to: string, sum: real, count: nat)

  /** The memo's result: both edge lists, each sorted by USD, and the scale's maximum. */
  datatype Flow = Flow(inbound: seq<AggEdge>, outbound: seq<AggEdge>, maxSum: real)

  /** A drawn node: the counterparty address and its edge's USD total. */
  datatype Node = Node(addr: string, sum: real)

  /** The number of nodes drawn on each side. */
  const MaxNodes := 20

  /** The activity has a non-zero USD value and both endpoints. */
  predicate Counted(a: Activity) {
    UsdOrZero(a) != 0.0 && Lower(a.from) != "" && Lower(a.to) != ""
  }

  /** `${from}->${to}`, both lower-cased. */
  function EdgeKey(a: Activity): (string, string) {
    (Lower(a.from), Lower(a.to))
  }

  function AsEdge(e: ((string, string), Tally)): AggEdge {
    AggEdge(e.0.0, e.0.1, e.1.sum, e.1.count)
  }

  /** The `edges` map in insertion order. */
  function Edges(items: seq<Activity>): seq<AggEdge> {
    Seqs.Map(AsEdge, Groups(items, Counted, EdgeKey, UsdOrZero))
  }

  /** `e.to === p`. */
  function IntoPivot(p: string): AggEdge -> bool {
    (e: AggEdge) => e.to == p
  }

  /** `else if (e.from === p)`. */
  function OutOfPivot(p: string): AggEdge -> bool {
    (e: AggEdge) => e.to != p && e.from == p
  }

  function SumRank(e: AggEdge): Rank {
    By(e.sum)
  }

  /** `list[0]?.sum || 0`. */
  function TopSum(list: seq<AggEdge>): real {
    if list == [] then 0.0 else list[0].sum
  }

  function Max(a: real, b: real): real {
    if a >= b then a else b
  }

  /** The `useMemo` result for the items and the pivot. */
  function FlowOf(items: seq<Activity>, pivot: string): Flow {
    var inbound := SortDesc(Seqs.Filter(IntoPivot(pivot), Edges(items)), SumRank);
    var outbound := SortDesc(Seqs.Filter(OutOfPivot(pivot), Edges(items)), SumRank);
    Flow(inbound, outbound, Max(1.0, Max(TopSum(inbound), TopSum(outbound))))
  }

  /** `edges.forEach(e => { if (e.to === p) inbound.push(e); else if (e.from === p) outbound.push(e) })`. */
  method Partition(edges: seq<AggEdge>, p: string) returns (inbound: seq<AggEdge>, outbound: seq<AggEdge>)
    ensures inbound == Seqs.Filter(IntoPivot(p), edges)
    ensures outbound == Seqs.Filter(OutOfPivot(p), edges)
  {
    inbound, outbound := [], [];
    for i := 0 to |edges|
      invariant inbound == Seqs.Filter(IntoPivot(p), edges[..i])
      invariant outbound == Seqs.Filter(OutOfPivot(p), edges[..i])
    {
      var e := edges[i];
      assert edges[..i + 1] == edges[..i] + [e];
      Seqs.FilterSnoc(IntoPivot(p), edges[..i], e);
      Seqs.FilterSnoc(OutOfPivot(p), edges[..i], e);
      if e.to == p {
        inbound := inbound + [e];
      } else if e.from == p {
        outbound := outbound + [e];
      }
    }
    assert edges[..|edges|] == edges;
  }

  /** The memo. */
  method ComputeFlow(items: seq<Activity>, pivot: string) returns (flow: Flow)
    ensures flow == FlowOf(items, pivot)
  {
    var entries := GroupEntries(items, Counted, EdgeKey, UsdOrZero);
    var edges := Seqs.Map(AsEdge, entries);
    var inbound, outbound := Partition(edges, pivot);
    inbound := SortDesc(inbound, SumRank);
    outbound := SortDesc(outbound, SumRank);
    flow := Flow(inbound, outbound, Max(1.0, Max(TopSum(inbound), TopSum(outbound))));
  }

  /** `inbound.slice(0, 20).map(e => e.from)` with the sums. */
  function LeftNodes(flow: Flow): seq<Node> {
    Seqs.Map((e: AggEdge) => Node(e.from, e.sum), Slice(flow.inbound, MaxNodes))
  }

  /** `outbound.slice(0, 20).map(e => e.to)` with the sums. */
  function RightNodes(flow: Flow): seq<Node> {
    Seqs.Map((e: AggEdge) => Node(e.to, e.sum), Slice(flow.outbound, MaxNodes))
  }

  /** An edge totals exactly the counted activities between its endpoints. */
  lemma EdgeAt(items: seq<Activity>, k: nat)
    requires k < |Edges(items)|
    ensures var e := Edges(items)[k];
      && e.sum == SumOf(items, Counted, EdgeKey, UsdOrZero, (e.from, e.to))
      && e.count == CountOf(items, Counted, EdgeKey, (e.from, e.to))
      && e.count >= 1 && e.from != "" && e.to != ""
  {
    var g := Groups(items, Counted, EdgeKey, UsdOrZero);
    Seqs.MapAt(AsEdge, g);
    GroupAt(items, Counted, EdgeKey, UsdOrZero, k);
  }

  /** No pair of endpoints has two edges. */
  lemma EdgesDistinct(items: seq<Activity>)
    ensures var es := Edges(items);
      Seqs.Distinct(es) && forall i, j :: 0 <= i < j < |es| ==> (es[i].from, es[i].to) != (es[j].from, es[j].to)
  {
    Seqs.MapAt(AsEdge, Groups(items, Counted, EdgeKey, UsdOrZero));
    GroupsDistinct(items, Counted, EdgeKey, UsdOrZero);
  }

  /** Every counted activity is carried by exactly one edge: the edges add up to all of them. */
  lemma EdgeTotals(items: seq<Activity>)
    ensures Seqs.SumBy((e: AggEdge) => e.sum, Edges(items)) == SumIncluded(items, Counted, UsdOrZero)
    ensures Seqs.SumBy((e: AggEdge) => e.count as real, Edges(items)) == CountIncluded(items, Counted) as real
  {
    var g := Groups(items, Counted, EdgeKey, UsdOrZero);
    GroupsTotals(items, Counted, EdgeKey, UsdOrZero);
    Seqs.SumByMap((e: AggEdge) => e.sum, AsEdge, (t: ((string, string), Tally)) => t.1.sum, g);
    Seqs.SumByMap((e: AggEdge) => e.count as real, AsEdge, (t: ((string, string), Tally)) => t.1.count as real, g);
  }

  /**
   * The two lists partition the edges at the pivot: inbound holds exactly the edges into it and
   * outbound exactly the other edges out of it, so no edge is in both and a self-loop at the pivot
   * is inbound only.
   */
  lemma SideMembers(items: seq<Activity>, pivot: string, e: AggEdge)
    ensures e in FlowOf(items, pivot).inbound <==> e in Edges(items) && e.to == pivot
    ensures e in FlowOf(items, pivot).outbound <==> e in Edges(items) && e.to != pivot && e.from == pivot
  {
    var es := Edges(items);
    var ins := Seqs.Filter(IntoPivot(pivot), es);
    var outs := Seqs.Filter(OutOfPivot(pivot), es);
    if e in es && e.to == pivot {
      Seqs.FilterHas(IntoPivot(pivot), es, e);
    }
    if e in es && e.to != pivot && e.from == pivot {
      Seqs.FilterHas(OutOfPivot(pivot), es, e);
    }
    var flow := FlowOf(items, pivot);
    assert e in flow.inbound <==> e in multiset(ins);
    assert e in flow.outbound <==> e in multiset(outs);
  }

  /** Descending order of USD. */
  predicate BySumDesc(list: seq<AggEdge>) {
    forall i, j :: 0 <= i < j < |list| ==> list[i].sum >= list[j].sum
  }

  /** Both lists are in descending order of USD. */
  lemma FlowSorted(items: seq<Activity>, pivot: string)
    ensures BySumDesc(FlowOf(items, pivot).inbound) && BySumDesc(FlowOf(items, pivot).outbound)
  {
    var es := Edges(items);
    SortDescSorted(Seqs.Filter(IntoPivot(pivot), es), SumRank);
    SortDescSorted(Seqs.Filter(OutOfPivot(pivot), es), SumRank);
  }

  /** The first edge of a descending list carries its largest USD. */
  lemma TopSumBound(list: seq<AggEdge>, e: AggEdge)
    requires BySumDesc(list) && e in list
    ensures TopSum(list) >= e.sum
  {
    var i :| 0 <= i < |list| && list[i] == e;
    if i > 0 {
      assert list[0].sum >= list[i].sum;
    }
  }

  /** The scale's maximum is at least 1 and at least the USD of every listed edge. */
  lemma MaxSumBound(items: seq<Activity>, pivot: string, e: AggEdge)
    ensures FlowOf(items, pivot).maxSum >= 1.0
    ensures e in FlowOf(items, pivot).inbound ==> FlowOf(items, pivot).maxSum >= e.sum
    ensures e in FlowOf(items, pivot).outbound ==> FlowOf(items, pivot).maxSum >= e.sum
  {
    var flow := FlowOf(items, pivot);
    FlowSorted(items, pivot);
    if e in flow.inbound {
      TopSumBound(flow.inbound, e);
    }
    if e in flow.outbound {
      TopSumBound(flow.outbound, e);
    }
  }

  /** Each side draws the first 20 edges of its list, or all of them when there are fewer. */
  lemma NodeCounts(items: seq<Activity>, pivot: string)
    ensures var flow := FlowOf(items, pivot);
      && |LeftNodes(flow)| == (if |flow.inbound| < MaxNodes then |flow.inbound| else MaxNodes)
      && |RightNodes(flow)| == (if |flow.outbound| < MaxNodes then |flow.outbound| else MaxNodes)
  {
  }

  /**
   * The k-th left node is the sender of the k-th edge into the pivot, drawn with that edge's USD;
   * clicking it moves the pivot to that lower-case sender.
   */
  lemma LeftNodeAt(items: seq<Activity>, pivot: string, k: nat)
    requires k < |LeftNodes(FlowOf(items, pivot))|
    ensures var flow := FlowOf(items, pivot);
      && k < |flow.inbound|
      && flow.inbound[k] in Edges(items) && flow.inbound[k].to == pivot
      && LeftNodes(flow)[k] == Node(flow.inbound[k].from, flow.inbound[k].sum)
      && ClickNode(LeftNodes(flow)[k]) == flow.inbound[k].from
      && Lower(ClickNode(LeftNodes(flow)[k])) == ClickNode(LeftNodes(flow)[k])
  {
    var flow := FlowOf(items, pivot);
    var left := Slice(flow.inbound, MaxNodes);
    Seqs.MapAt((e: AggEdge) => Node(e.from, e.sum), left);
    SideMembers(items, pivot, flow.inbound[k]);
    EdgeLower(items, flow.inbound[k]);
  }

  /**
   * The k-th right node is the recipient of the k-th edge out of the pivot, drawn with that edge's
   * USD; clicking it moves the pivot to that lower-case recipient.
   */
  lemma RightNodeAt(items: seq<Activity>, pivot: string, k: nat)
    requires k < |RightNodes(FlowOf(items, pivot))|
    ensures var flow := FlowOf(items, pivot);
      && k < |flow.outbound|
      && flow.outbound[k] in Edges(items) && flow.outbound[k].from == pivot
      && RightNodes(flow)[k] == Node(flow.outbound[k].to, flow.outbound[k].sum)
      && ClickNode(RightNodes(flow)[k]) == flow.outbound[k].to
      && Lower(ClickNode(RightNodes(flow)[k])) == ClickNode(RightNodes(flow)[k])
  {
    var flow := FlowOf(items, pivot);
    var right := Slice(flow.outbound, MaxNodes);
    Seqs.MapAt((e: AggEdge) => Node(e.to, e.sum), right);
    SideMembers(items, pivot, flow.outbound[k]);
    EdgeLower(items, flow.outbound[k]);
  }

  // ---------------------------------------------------------------- the pivot

  /** `useState(wallet.toLowerCase())`: the first pivot is the wallet, in lower case. */
  function InitialPivot(wallet: string): (p: string)
    ensures Lower(p) == p
  {
    LowerIdempotent(wallet);
    Lower(wallet)
  }

  /** `onClick={() => setPivot(n.addr)}`. */
  function ClickNode(n: Node): string {
    n.addr
  }

  /** Edge endpoints are lower-case. */
  lemma EdgeLower(items: seq<Activity>, e: AggEdge)
    requires e in Edges(items)
    ensures Lower(e.from) == e.from && Lower(e.to) == e.to
  {
    var g := Groups(items, Counted, EdgeKey, UsdOrZero);
    Seqs.MapAt(AsEdge, g);
    var k :| 0 <= k < |g| && Edges(items)[k] == e;
    GroupAt(items, Counted, EdgeKey, UsdOrZero, k);
    var i :| 0 <= i < |items| && Counted(items[i]) && EdgeKey(items[i]) == g[k].0;
    LowerIdempotent(items[i].from);
    LowerIdempotent(items[i].to);
  }
}
