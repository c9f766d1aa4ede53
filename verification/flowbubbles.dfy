/**
 * `FlowBubbles`: the wallet's counterparties as bubbles, inbound on one side and outbound on the
 * other. Activities are first de-duplicated heuristically (same direction, rounded USD and, unless
 * the type is unknown, counterparty within 72 hours: only the first is kept), then summed per
 * counterparty on each side, sorted by USD and cut to 16 bubbles per side.
 */
module FlowBubbles {
  import opened Wrappers
  import opened Text
  import opened Activities
  import opened Sorting
  import opened Grouping
  import Seqs

  datatype Dir = In | Out

  /** `in:<rounded>` or `in:<rounded>:<counterparty>` (and likewise `out`), as a record. */
  datatype DedupKey = DedupKey(dir: Dir, rounded: int, counter: Option<string>)

  /** `1000 * 60 * 60 * 72`: 72 hours in milliseconds. */
  const WindowMs := 259200000

  /** The number of bubbles per side. */
  const MaxBubbles := 16

  /** `in` when the wallet receives, else `out` when it sends, else neither. */
  function Direction(wallet: string, a: Activity): Option<Dir> {
    if Lower(a.to) == Lower(wallet) then Some(In)
    else if Lower(a.from) == Lower(wallet) then Some(Out)
    else None
  }

  /** The other party, lower-cased, `unknown` when missing. */
  function Counterparty(a: Activity, d: Dir): string {
    var party := if d == In then a.from else a.to;
    Lower(if party == "" then "unknown" else party)
  }

  /** `Math.round`: halves round up. */
  function Round(v: real): int {
    (v + 0.5).Floor
  }

  /** The activity takes part: positive USD and a direction. */
  predicate Eligible(wallet: string, a: Activity) {
    UsdOrZero(a) > 0.0 && Direction(wallet, a).Some?
  }

  /** The de-duplication key of a directed activity. */
  function KeyFor(wallet: string, a: Activity): Option<DedupKey> {
    match Direction(wallet, a)
    case None => None
    case Some(d) => Some(DedupKey(d, Round(UsdOrZero(a)), if a.kind == Unknown then None else Some(Counterparty(a, d))))
  }

  function Abs(x: int): nat {
    if x < 0 then -x else x
  }

  /** `Math.abs(ts - last) <= 72h`. */
  predicate WithinWindow(last: int, ts: int) {
    Abs(ts - last) <= WindowMs
  }

  /** The de-duplication loop's state: `seen` and `uniq`. */
  datatype Dedup = Dedup(seen: map<DedupKey, int>, uniq: seq<Activity>)

  /** One turn of the loop. */
  function Step(st: Dedup, wallet: string, a: Activity): Dedup {
    if !Eligible(wallet, a) then st
    else
      var k := KeyFor(wallet, a).value;
      if k in st.seen && WithinWindow(st.seen[k], a.timestamp) then st
      else Dedup(st.seen[k := a.timestamp], st.uniq + [a])
  }

  /** The loop's state after the activities. */
  function DedupOf(items: seq<Activity>, wallet: string): Dedup {
    if items == [] then Dedup(map[], [])
    else Step(DedupOf(items[..|items| - 1], wallet), wallet, items[|items| - 1])
  }

  /** The de-duplication loop. */
  method Deduplicate(items: seq<Activity>, wallet: string) returns (uniq: seq<Activity>)
    ensures uniq == DedupOf(items, wallet).uniq
  {
    var seen: map<DedupKey, int> := map[];
    uniq := [];
    for i := 0 to |items|
      invariant Dedup(seen, uniq) == DedupOf(items[..i], wallet)
    {
      var a := items[i];
      assert items[..i + 1][..i] == items[..i];
      var v := UsdOrZero(a);
      if v <= 0.0 {
        continue;
      }
      var dir := Direction(wallet, a);
      if dir.None? {
        continue;
      }
      var counter := Counterparty(a, dir.value);
      var rounded := Round(v);
      var key := DedupKey(dir.value, rounded, if a.kind == Unknown then None else Some(counter));
      if key in seen && WithinWindow(seen[key], a.timestamp) {
        continue;
      }
      seen := seen[key := a.timestamp];
      uniq := uniq + [a];
    }
    assert items[..|items|] == items;
  }

  /** The timestamp of the last kept activity with key `k`. */
  function LastKept(uniq: seq<Activity>, wallet: string, k: DedupKey): Option<int> {
    if uniq == [] then None
    else if KeyFor(wallet, uniq[|uniq| - 1]) == Some(k) then Some(uniq[|uniq| - 1].timestamp)
    else LastKept(uniq[..|uniq| - 1], wallet, k)
  }

  /** `seen` holds, for each key, exactly the timestamp of the last kept activity with that key. */
  lemma {:induction false} SeenIsLastKept(items: seq<Activity>, wallet: string, k: DedupKey)
    ensures var st := DedupOf(items, wallet);
      LastKept(st.uniq, wallet, k) == if k in st.seen then Some(st.seen[k]) else None
  {
    if items != [] {
      var st0 := DedupOf(items[..|items| - 1], wallet);
      SeenIsLastKept(items[..|items| - 1], wallet, k);
      var a := items[|items| - 1];
      var st := DedupOf(items, wallet);
      if st != st0 {
        assert st.uniq[..|st.uniq| - 1] == st0.uniq;
      }
    }
  }

  /** The kept activities are drawn from the input, each at most as often, and all take part. */
  lemma {:induction false} KeptFromInput(items: seq<Activity>, wallet: string)
    ensures multiset(DedupOf(items, wallet).uniq) <= multiset(items)
    ensures forall x :: x in DedupOf(items, wallet).uniq ==> Eligible(wallet, x)
  {
    if items != [] {
      var init := items[..|items| - 1];
      KeptFromInput(init, wallet);
      assert items == init + [items[|items| - 1]];
    }
  }

  /**
   * An activity is dropped exactly when it does not take part, or the last kept activity with its
   * key lies within 72 hours of it; otherwise it is appended to the kept list.
   */
  lemma DropRule(items: seq<Activity>, wallet: string, n: nat)
    requires n < |items|
    ensures var before := DedupOf(items[..n], wallet).uniq;
      var a := items[n];
      DedupOf(items[..n + 1], wallet).uniq ==
        if Eligible(wallet, a)
           && !(LastKept(before, wallet, KeyFor(wallet, a).value).Some?
                && WithinWindow(LastKept(before, wallet, KeyFor(wallet, a).value).value, a.timestamp))
        then before + [a]
        else before
  {
    assert items[..n + 1][..n] == items[..n];
    if Eligible(wallet, items[n]) {
      SeenIsLastKept(items[..n], wallet, KeyFor(wallet, items[n]).value);
    }
  }

  /** Every kept activity lies more than 72 hours from the previous kept activity with its key. */
  lemma {:induction false} KeptApart(items: seq<Activity>, wallet: string, j: nat)
    requires j < |DedupOf(items, wallet).uniq|
    ensures var uniq := DedupOf(items, wallet).uniq;
      && KeyFor(wallet, uniq[j]).Some?
      && var prev := LastKept(uniq[..j], wallet, KeyFor(wallet, uniq[j]).value);
         prev.Some? ==> !WithinWindow(prev.value, uniq[j].timestamp)
  {
    var init := items[..|items| - 1];
    var st0 := DedupOf(init, wallet);
    var uniq := DedupOf(items, wallet).uniq;
    if j < |st0.uniq| {
      KeptApart(init, wallet, j);
      assert uniq[..j] == st0.uniq[..j];
    } else {
      var a := items[|items| - 1];
      assert uniq[..j] == st0.uniq;
      SeenIsLastKept(init, wallet, KeyFor(wallet, a).value);
    }
  }

  // ---------------------------------------------------------------- aggregation

  /** `(a.from || 'unknown')`, not lower-cased. */
  function InKey(a: Activity): string {
    if a.from == "" then "unknown" else a.from
  }

  /** `(a.to || 'unknown')`, not lower-cased. */
  function OutKey(a: Activity): string {
    if a.to == "" then "unknown" else a.to
  }

  /** Summed on the inbound side: non-zero USD and the wallet receives. */
  predicate CountsIn(wallet: string, a: Activity) {
    UsdOrZero(a) != 0.0 && Lower(a.to) == Lower(wallet)
  }

  /** Summed on the outbound side: non-zero USD and the wallet sends but does not receive. */
  predicate CountsOut(wallet: string, a: Activity) {
    UsdOrZero(a) != 0.0 && Lower(a.to) != Lower(wallet) && Lower(a.from) == Lower(wallet)
  }

  function InSide(wallet: string): Activity -> bool {
    a => CountsIn(wallet, a)
  }

  function OutSide(wallet: string): Activity -> bool {
    a => CountsOut(wallet, a)
  }

  /** The aggregation loop over the kept activities, filling both maps. */
  method Aggregate(uniq: seq<Activity>, wallet: string)
    returns (inKeys: seq<string>, inM: map<string, Tally>, outKeys: seq<string>, outM: map<string, Tally>)
    ensures Accumulated(uniq, InSide(wallet), InKey, UsdOrZero, inKeys, inM)
    ensures Accumulated(uniq, OutSide(wallet), OutKey, UsdOrZero, outKeys, outM)
  {
    inKeys, inM, outKeys, outM := [], map[], [], map[];
    for i := 0 to |uniq|
      invariant Accumulated(uniq[..i], InSide(wallet), InKey, UsdOrZero, inKeys, inM)
      invariant Accumulated(uniq[..i], OutSide(wallet), OutKey, UsdOrZero, outKeys, outM)
    {
      var a := uniq[i];
      assert uniq[..i + 1] == uniq[..i] + [a];
      AccumulateStep(uniq[..i], InSide(wallet), InKey, UsdOrZero, inKeys, inM, a);
      AccumulateStep(uniq[..i], OutSide(wallet), OutKey, UsdOrZero, outKeys, outM, a);
      var v := UsdOrZero(a);
      if v == 0.0 {
        continue;
      }
      if Lower(a.to) == Lower(wallet) {
        inKeys, inM := AddTo(inKeys, inM, InKey(a), v).0, AddTo(inKeys, inM, InKey(a), v).1;
      } else if Lower(a.from) == Lower(wallet) {
        outKeys, outM := AddTo(outKeys, outM, OutKey(a), v).0, AddTo(outKeys, outM, OutKey(a), v).1;
      }
    }
    assert uniq[..|uniq|] == uniq;
  }

  /** One bubble: the counterparty as given, its USD total and its number of activities. */
  datatype Bubble = Bubble(addr: string, sum: real, count: nat)

  /** The memo's result. */
  datatype Summary = Summary(inbound: seq<Bubble>, outbound: seq<Bubble>, inTotal: real, outTotal: real)

  function AsBubble(e: (string, Tally)): Bubble {
    Bubble(e.0, e.1.sum, e.1.count)
  }

  function BubbleRank(b: Bubble): Rank {
    By(b.sum)
  }

  function BubbleSum(b: Bubble): real {
    b.sum
  }

  /** `toArr`: the map's entries sorted by USD and cut to 16. */
  function ToArr(entries: seq<(string, Tally)>): seq<Bubble> {
    Slice(SortDesc(Seqs.Map(AsBubble, entries), BubbleRank), MaxBubbles)
  }

  /** `reduce((s, x) => s + x.sum, 0)`. */
  function Total(list: seq<Bubble>): real {
    Seqs.SumBy(BubbleSum, list)
  }

  /** The memo for the activities and the wallet. */
  function SummaryOf(items: seq<Activity>, wallet: string): Summary {
    var uniq := DedupOf(items, wallet).uniq;
    var inA := ToArr(Groups(uniq, InSide(wallet), InKey, UsdOrZero));
    var outA := ToArr(Groups(uniq, OutSide(wallet), OutKey, UsdOrZero));
    Summary(inA, outA, Total(inA), Total(outA))
  }

  /** The memo. */
  method Summarize(items: seq<Activity>, wallet: string) returns (r: Summary)
    ensures r == SummaryOf(items, wallet)
  {
    var uniq := Deduplicate(items, wallet);
    var inKeys, inM, outKeys, outM := Aggregate(uniq, wallet);
    AccumulatedEntries(uniq, InSide(wallet), InKey, UsdOrZero, inKeys, inM);
    AccumulatedEntries(uniq, OutSide(wallet), OutKey, UsdOrZero, outKeys, outM);
    var inA := ToArr(Entries(inKeys, inM));
    var outA := ToArr(Entries(outKeys, outM));
    r := Summary(inA, outA, Total(inA), Total(outA));
  }

  /** A bubble before sorting totals its counterparty's activities on that side. */
  lemma BubbleOf(uniq: seq<Activity>, keep: Activity -> bool, key: Activity -> string, b: Bubble)
    requires b in Seqs.Map(AsBubble, Groups(uniq, keep, key, UsdOrZero))
    ensures b.sum == SumOf(uniq, keep, key, UsdOrZero, b.addr)
    ensures b.count == CountOf(uniq, keep, key, b.addr)
  {
    var g := Groups(uniq, keep, key, UsdOrZero);
    Seqs.MapAt(AsBubble, g);
    var k :| 0 <= k < |g| && Seqs.Map(AsBubble, g)[k] == b;
    GroupAt(uniq, keep, key, UsdOrZero, k);
  }

  /** One side's bubbles are its 16 largest groups (all of them when there are fewer). */
  lemma SideChosen(entries: seq<(string, Tally)>)
    ensures var (list, all) := (ToArr(entries), Seqs.Map(AsBubble, entries));
      && |list| == (if MaxBubbles < |all| then MaxBubbles else |all|)
      && (forall b :: b in list ==> b in all)
      && (forall b, c :: b in list && c in all && c !in list ==> b.sum >= c.sum)
  {
    var all := Seqs.Map(AsBubble, entries);
    var list := ToArr(entries);
    TopChosen(all, BubbleRank, MaxBubbles);
    forall b | b in list
      ensures b in all
    {
      assert b in multiset(all);
    }
    forall b, c | b in list && c in all && c !in list
      ensures b.sum >= c.sum
    {
      assert RankGe(BubbleRank(b), BubbleRank(c));
    }
  }

  /**
   * One side's bubbles: sorted by USD, at most 16, no counterparty twice, and each bubble totals
   * exactly that side's kept activities with that counterparty.
   */
  lemma SideFacts(uniq: seq<Activity>, keep: Activity -> bool, key: Activity -> string)
    ensures var list := ToArr(Groups(uniq, keep, key, UsdOrZero));
      && (forall i, j :: 0 <= i < j < |list| ==> list[i].sum >= list[j].sum)
      && |list| <= MaxBubbles
      && (forall i, j :: 0 <= i < j < |list| ==> list[i].addr != list[j].addr)
      && (forall b :: b in list ==>
            b.sum == SumOf(uniq, keep, key, UsdOrZero, b.addr) && b.count == CountOf(uniq, keep, key, b.addr))
  {
    var g := Groups(uniq, keep, key, UsdOrZero);
    var bs := Seqs.Map(AsBubble, g);
    var list := ToArr(g);
    AddrsDistinct(uniq, keep, key);
    TopOf(bs, BubbleRank, MaxBubbles);
    forall i, j | 0 <= i < j < |list|
      ensures list[i].addr != list[j].addr
    {
      assert list[i] in bs && list[j] in bs;
    }
    forall b | b in list
      ensures b.sum == SumOf(uniq, keep, key, UsdOrZero, b.addr) && b.count == CountOf(uniq, keep, key, b.addr)
    {
      BubbleOf(uniq, keep, key, b);
    }
  }

  /** Before sorting, no counterparty has two bubbles. */
  lemma AddrsDistinct(uniq: seq<Activity>, keep: Activity -> bool, key: Activity -> string)
    ensures var bs := Seqs.Map(AsBubble, Groups(uniq, keep, key, UsdOrZero));
      Seqs.Distinct(bs) && forall i, j :: 0 <= i < j < |bs| ==> bs[i].addr != bs[j].addr
  {
    Seqs.MapAt(AsBubble, Groups(uniq, keep, key, UsdOrZero));
    GroupsDistinct(uniq, keep, key, UsdOrZero);
  }

  /**
   * A side's total is at most the USD of all its kept activities, and equal to it when the side has
   * no more than 16 counterparties, since nothing is cut.
   */
  lemma SideTotal(uniq: seq<Activity>, keep: Activity -> bool, key: Activity -> string)
    requires forall x :: x in uniq && keep(x) ==> UsdOrZero(x) >= 0.0
    ensures Total(ToArr(Groups(uniq, keep, key, UsdOrZero))) <= SumIncluded(uniq, keep, UsdOrZero)
    ensures |Groups(uniq, keep, key, UsdOrZero)| <= MaxBubbles ==>
      Total(ToArr(Groups(uniq, keep, key, UsdOrZero))) == SumIncluded(uniq, keep, UsdOrZero)
  {
    var g := Groups(uniq, keep, key, UsdOrZero);
    var bs := Seqs.Map(AsBubble, g);
    var sorted := SortDesc(bs, BubbleRank);
    GroupsTotals(uniq, keep, key, UsdOrZero);
    Seqs.SumByMap(BubbleSum, AsBubble, (e: (string, Tally)) => e.1.sum, g);
    Seqs.SumByPermutation(BubbleSum, bs, sorted);
    forall b | b in sorted
      ensures BubbleSum(b) >= 0.0
    {
      assert b in multiset(bs);
      BubbleOf(uniq, keep, key, b);
      SumOfNonneg(uniq, keep, key, UsdOrZero, b.addr);
    }
    Seqs.SumByPrefix(BubbleSum, sorted, |ToArr(g)|);
  }

  /** Every kept activity is summed on exactly one side. */
  lemma {:induction false} CountSides(s: seq<Activity>, wallet: string)
    requires forall x :: x in s ==> Eligible(wallet, x)
    ensures CountIncluded(s, InSide(wallet)) + CountIncluded(s, OutSide(wallet)) == |s|
  {
    if s != [] {
      var x := s[|s| - 1];
      assert x in s;
      assert InSide(wallet)(x) != OutSide(wallet)(x);
      forall y | y in s[..|s| - 1]
        ensures Eligible(wallet, y)
      {
        assert y in s;
      }
      CountSides(s[..|s| - 1], wallet);
    }
  }

  /**
   * The memo's result: both sides as `SideFacts` describes, over the kept activities; each total
   * bounded by its side's kept USD; and every kept activity counted on exactly one side.
   */
  lemma SummaryFacts(items: seq<Activity>, wallet: string)
    ensures var uniq := DedupOf(items, wallet).uniq;
      var r := SummaryOf(items, wallet);
      && |r.inbound| <= MaxBubbles && |r.outbound| <= MaxBubbles
      && (forall b :: b in r.inbound ==>
            b.sum == SumOf(uniq, InSide(wallet), InKey, UsdOrZero, b.addr)
            && b.count == CountOf(uniq, InSide(wallet), InKey, b.addr))
      && (forall b :: b in r.outbound ==>
            b.sum == SumOf(uniq, OutSide(wallet), OutKey, UsdOrZero, b.addr)
            && b.count == CountOf(uniq, OutSide(wallet), OutKey, b.addr))
      && r.inTotal <= SumIncluded(uniq, InSide(wallet), UsdOrZero)
      && r.outTotal <= SumIncluded(uniq, OutSide(wallet), UsdOrZero)
      && CountIncluded(uniq, InSide(wallet)) + CountIncluded(uniq, OutSide(wallet)) == |uniq|
  {
    var uniq := DedupOf(items, wallet).uniq;
    KeptFromInput(items, wallet);
    SideFacts(uniq, InSide(wallet), InKey);
    SideFacts(uniq, OutSide(wallet), OutKey);
    SideTotal(uniq, InSide(wallet), InKey);
    SideTotal(uniq, OutSide(wallet), OutKey);
    CountSides(uniq, wallet);
  }
}
