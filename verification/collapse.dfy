/**
 * `collapsePassThrough`: an inbound transfer into a middle address followed, within a time window,
 * by an outbound transfer of about the same amount from that address is replaced by one transfer
 * from the original sender to the final recipient.
 *
 * The source's `Map`s from middle address to transfer list are built with `Grouping.GroupList`,
 * its `Set` of consumed ids is a `set<string>`, and its output array is a sequence the loops extend.
 */
module Collapse {
  import opened Wrappers
  import opened Text
  import opened JsNumber
  import opened Activities
  import opened Grouping
  import Seqs

  /** `CollapseOptions`. */
  datatype Options = Options(windowMinutes: Option<real>, amountTolerance: Option<real>)

  /** `Math.max(1, windowMinutes ?? 60) * 60 * 1000`: at least one minute, one hour by default. */
  function WindowMs(opts: Options): (w: real)
    ensures w >= 60000.0
    ensures opts.windowMinutes.None? ==> w == 3600000.0
    ensures opts.windowMinutes.Some? && opts.windowMinutes.value >= 1.0 ==> w == opts.windowMinutes.value * 60000.0
  {
    Max(1.0, opts.windowMinutes.GetOr(60.0)) * 60.0 * 1000.0
  }

  /** `Math.max(0, amountTolerance ?? 0.01)`: never negative, one percent by default. */
  function Tolerance(opts: Options): (t: real)
    ensures t >= 0.0
    ensures opts.amountTolerance.None? ==> t == 0.01
    ensures opts.amountTolerance.Some? && opts.amountTolerance.value >= 0.0 ==> t == opts.amountTolerance.value
  {
    Max(0.0, opts.amountTolerance.GetOr(0.01))
  }

  function Time(a: Activity): int {
    a.timestamp
  }

  /** The middle address of an inbound leg: the lower-cased recipient. */
  function MidIn(a: Activity): string {
    Lower(a.to)
  }

  /** The middle address of an outbound leg: the lower-cased sender. */
  function MidOut(a: Activity): string {
    Lower(a.from)
  }

  /** A transfer with a recipient can be the first leg. */
  predicate Inbound(a: Activity) {
    a.kind == Transfer && MidIn(a) != ""
  }

  /** A transfer with a sender can be the second leg. */
  predicate Outbound(a: Activity) {
    a.kind == Transfer && MidOut(a) != ""
  }

  /** `Math.abs(a - b) <= Math.max(a, b) * tol`. */
  predicate Close(a: real, b: real, tol: real) {
    Abs(a - b) <= Times(Max(a, b), tol)
  }

  /** Tokens are compared only when both legs name one. */
  predicate SameToken(inn: Activity, o: Activity) {
    Declared(inn.token) && Declared(o.token) ==> inn.token == o.token
  }

  /** Token amounts when both legs have one, else USD values when both have one, else no match. */
  predicate AmountsMatch(inn: Activity, o: Activity, tol: real) {
    if inn.amount.Some? && o.amount.Some? then Close(inn.amount.value, o.amount.value, tol)
    else if inn.amountUSD.Some? && o.amountUSD.Some? then Close(inn.amountUSD.value, o.amountUSD.value, tol)
    else false
  }

  /** The legs fit together: `o` starts no earlier than `inn` and within the window, on its chain. */
  predicate Fits(inn: Activity, o: Activity, w: real, tol: real) {
    && 0 <= o.timestamp - inn.timestamp
    && (o.timestamp - inn.timestamp) as real <= w
    && inn.chainId == o.chainId
    && SameToken(inn, o)
    && AmountsMatch(inn, o, tol)
  }

  /** An outbound leg `inn` may still be paired with. */
  predicate Candidate(inn: Activity, o: Activity, consumed: set<string>, w: real, tol: real) {
    o.id !in consumed && Fits(inn, o, w, tol)
  }

  /** The index of the first candidate, or `|outs|` when there is none. */
  function FirstCandidate(outs: seq<Activity>, inn: Activity, consumed: set<string>, w: real, tol: real): (k: nat)
    ensures k <= |outs|
    ensures k < |outs| ==> Candidate(inn, outs[k], consumed, w, tol)
    ensures forall i :: 0 <= i < k ==> !Candidate(inn, outs[i], consumed, w, tol)
  {
    if outs == [] then 0
    else if Candidate(inn, outs[0], consumed, w, tol) then 0
    else 1 + FirstCandidate(outs[1..], inn, consumed, w, tol)
  }

  /** The record that replaces a pair: sender of the first leg, recipient and time of the second. */
  function Merge(mid: string, inn: Activity, best: Activity): (r: Activity)
    ensures r.id == "collapsed:" + inn.id + ">" + best.id
    ensures r.kind == Transfer && r.chainId == inn.chainId
    ensures r.from == inn.from && r.to == best.to
    ensures r.timestamp == best.timestamp && r.txHash == best.txHash
    ensures r.token == Or(inn.token, best.token)
    ensures r.meta == CollapsedMeta(mid, inn.id, best.id)
    ensures r.amount.Some? <==> inn.amount.Some?
    ensures r.amount.Some? ==>
      && r.amount.value <= inn.amount.value
      && (best.amount.Some? ==> r.amount.value <= best.amount.value)
      && (r.amount.value == inn.amount.value || r.amount == best.amount)
    ensures inn.amountUSD.None? ==> r.amountUSD == best.amountUSD
    ensures inn.amountUSD.Some? ==>
      && r.amountUSD.Some?
      && r.amountUSD.value <= inn.amountUSD.value
      && (best.amountUSD.Some? ==> r.amountUSD.value <= best.amountUSD.value)
      && (r.amountUSD.value == inn.amountUSD.value || r.amountUSD == best.amountUSD)
  {
    var amount := if inn.amount.Some? then Some(Min(inn.amount.value, best.amount.GetOr(inn.amount.value))) else None;
    var amountUSD :=
      if inn.amountUSD.Some? then Some(Min(inn.amountUSD.value, best.amountUSD.GetOr(inn.amountUSD.value)))
      else best.amountUSD;
    Activity(
      id := "collapsed:" + inn.id + ">" + best.id,
      chainId := inn.chainId,
      timestamp := best.timestamp,
      kind := Transfer,
      from := inn.from,
      to := best.to,
      token := Or(inn.token, best.token),
      amount := amount,
      amountUSD := amountUSD,
      txHash := best.txHash,
      meta := CollapsedMeta(mid, inn.id, best.id))
  }

  /** The consumed ids and the records built so far. */
  datatype State = State(consumed: set<string>, out: seq<Activity>)

  /** One inbound leg: skipped when consumed, else paired with the first candidate if there is one. */
  function StepIn(st: State, mid: string, inn: Activity, outs: seq<Activity>, w: real, tol: real): State {
    if inn.id in st.consumed then st
    else
      var k := FirstCandidate(outs, inn, st.consumed, w, tol);
      if k == |outs| then st
      else State(st.consumed + {inn.id, outs[k].id}, st.out + [Merge(mid, inn, outs[k])])
  }

  /** The inbound legs of one middle address, in order. */
  function StepIns(st: State, mid: string, ins: seq<Activity>, outs: seq<Activity>, w: real, tol: real): State {
    if ins == [] then st
    else StepIn(StepIns(st, mid, ins[..|ins| - 1], outs, w, tol), mid, ins[|ins| - 1], outs, w, tol)
  }

  /** `byMiddle.get(mid)`: the inbound legs into `mid`, oldest first. */
  function InsOf(sorted: seq<Activity>, mid: string): seq<Activity> {
    Members(sorted, Inbound, MidIn, mid)
  }

  /** `candidateOut.get(mid) || []`: the outbound legs from `mid`, oldest first. */
  function OutsOf(sorted: seq<Activity>, mid: string): seq<Activity> {
    Members(sorted, Outbound, MidOut, mid)
  }

  /** The middle addresses in order. */
  function StepGroups(st: State, mids: seq<string>, sorted: seq<Activity>, w: real, tol: real): State {
    if mids == [] then st
    else
      var mid := mids[|mids| - 1];
      StepIns(StepGroups(st, mids[..|mids| - 1], sorted, w, tol), mid, InsOf(sorted, mid), OutsOf(sorted, mid), w, tol)
  }

  /** The pairing phase over all items. */
  function Paired(items: seq<Activity>, opts: Options): State {
    var sorted := OldestFirst(items);
    StepGroups(State({}, []), Keys(sorted, Inbound, MidIn), sorted, WindowMs(opts), Tolerance(opts))
  }

  function NotConsumed(consumed: set<string>): Activity -> bool {
    (a: Activity) => a.id !in consumed
  }

  /** The built records, then the unconsumed originals in input order, newest first. */
  function Assemble(st: State, items: seq<Activity>): seq<Activity> {
    NewestFirst(st.out + Seqs.Filter(NotConsumed(st.consumed), items))
  }

  function CollapseSpec(items: seq<Activity>, opts: Options): seq<Activity> {
    Assemble(Paired(items, opts), items)
  }

  // ---------------------------------------------------------------- the loops

  /**
   * The scan for the best outbound leg from index `j`. The legs before `j` are earlier than `inn`,
   * and the legs ascend in time, so stopping at the first leg past the window loses no candidate.
   */
  method ScanOuts(inn: Activity, outs: seq<Activity>, j: nat, consumed: set<string>, w: real, tol: real)
    returns (bestIdx: int)
    requires j <= |outs|
    requires Ascending(outs, Time)
    requires forall k :: 0 <= k < j ==> outs[k].timestamp < inn.timestamp
    ensures var first := FirstCandidate(outs, inn, consumed, w, tol);
      bestIdx == if first < |outs| then first else -1
  {
    bestIdx := -1;
    ghost var stopped := false;
    for k := j to |outs|
      invariant forall i :: 0 <= i < k ==> !Candidate(inn, outs[i], consumed, w, tol)
      invariant bestIdx == -1 && !stopped
    {
      var o := outs[k];
      if o.id in consumed {
        continue;
      }
      var dt := o.timestamp - inn.timestamp;
      if dt < 0 {
        continue;
      }
      if dt as real > w {
        assert forall i :: k <= i < |outs| ==> Time(outs[k]) <= Time(outs[i]);
        FirstCandidateIs(outs, inn, consumed, w, tol, |outs|);
        stopped := true;
        break;
      }
      if inn.chainId != o.chainId {
        continue;
      }
      var sameToken := if Declared(inn.token) && Declared(o.token) then inn.token == o.token else true;
      var matched := false;
      if inn.amount.Some? && o.amount.Some? {
        var a, b := inn.amount.value, o.amount.value;
        matched := Abs(a - b) <= Max(a, b) * tol;
      } else if inn.amountUSD.Some? && o.amountUSD.Some? {
        var a, b := inn.amountUSD.value, o.amountUSD.value;
        matched := Abs(a - b) <= Max(a, b) * tol;
      }
      if sameToken && matched {
        FirstCandidateIs(outs, inn, consumed, w, tol, k);
        bestIdx := k;
        stopped := true;
        break;
      }
    }
    if !stopped {
      FirstCandidateIs(outs, inn, consumed, w, tol, |outs|);
    }
  }

  /** The first candidate is the one index with a candidate there and none before it. */
  lemma FirstCandidateIs(outs: seq<Activity>, inn: Activity, consumed: set<string>, w: real, tol: real, k: nat)
    requires k <= |outs|
    requires k < |outs| ==> Candidate(inn, outs[k], consumed, w, tol)
    requires forall i :: 0 <= i < k ==> !Candidate(inn, outs[i], consumed, w, tol)
    ensures FirstCandidate(outs, inn, consumed, w, tol) == k
  {
  }

  /** The inbound legs of one middle address, with the index `j` that only moves forward. */
  method CollapseGroup(mid: string, ins: seq<Activity>, outs: seq<Activity>, consumed0: set<string>,
                       out0: seq<Activity>, w: real, tol: real)
    returns (consumed: set<string>, out: seq<Activity>)
    requires Ascending(ins, Time) && Ascending(outs, Time)
    ensures State(consumed, out) == StepIns(State(consumed0, out0), mid, ins, outs, w, tol)
  {
    consumed, out := consumed0, out0;
    var j := 0;
    ghost var lastT := if ins == [] then 0 else ins[0].timestamp;
    for i := 0 to |ins|
      invariant State(consumed, out) == StepIns(State(consumed0, out0), mid, ins[..i], outs, w, tol)
      invariant j <= |outs|
      invariant forall k :: 0 <= k < j ==> outs[k].timestamp < lastT
      invariant forall m :: i <= m < |ins| ==> lastT <= ins[m].timestamp
    {
      assert ins[..i + 1][..i] == ins[..i];
      var inn := ins[i];
      if inn.id in consumed {
        continue;
      }
      var tIn := inn.timestamp;
      while j < |outs| && outs[j].timestamp < tIn
        invariant j <= |outs|
        invariant forall k :: 0 <= k < j ==> outs[k].timestamp < tIn
      {
        j := j + 1;
      }
      lastT := tIn;
      var bestIdx := ScanOuts(inn, outs, j, consumed, w, tol);
      if bestIdx >= 0 {
        var best := outs[bestIdx];
        consumed := consumed + {inn.id, best.id};
        out := out + [Merge(mid, inn, best)];
      }
    }
    assert ins[..|ins|] == ins;
  }

  /** Appends the originals whose ids were not consumed, in input order. */
  method KeepUnconsumed(items: seq<Activity>, consumed: set<string>, out0: seq<Activity>) returns (out: seq<Activity>)
    ensures out == out0 + Seqs.Filter(NotConsumed(consumed), items)
  {
    out := out0;
    for i := 0 to |items|
      invariant out == out0 + Seqs.Filter(NotConsumed(consumed), items[..i])
    {
      assert items[..i + 1][..i] == items[..i];
      var kept := Seqs.Filter(NotConsumed(consumed), items[..i]);
      if items[i].id !in consumed {
        assert out0 + (kept + [items[i]]) == (out0 + kept) + [items[i]];
        out := out + [items[i]];
      } else {
        assert kept + [] == kept;
      }
    }
    assert items[..|items|] == items;
  }

  /** The loop over the middle addresses, in first-seen order. */
  method PairGroups(mids: seq<string>, byMiddle: map<string, seq<Activity>>, candidateOut: map<string, seq<Activity>>,
                    sorted: seq<Activity>, w: real, tol: real)
    returns (consumed: set<string>, out: seq<Activity>)
    requires Ascending(sorted, Time)
    requires forall k :: k in mids ==> k in byMiddle && byMiddle[k] == InsOf(sorted, k)
    requires forall k :: k in candidateOut ==> candidateOut[k] == OutsOf(sorted, k)
    requires forall k :: k !in candidateOut ==> OutsOf(sorted, k) == []
    ensures State(consumed, out) == StepGroups(State({}, []), mids, sorted, w, tol)
  {
    consumed, out := {}, [];
    for g := 0 to |mids|
      invariant State(consumed, out) == StepGroups(State({}, []), mids[..g], sorted, w, tol)
    {
      assert mids[..g + 1][..g] == mids[..g];
      var mid := mids[g];
      var ins := byMiddle[mid];
      var outs := if mid in candidateOut then candidateOut[mid] else [];
      MembersAscending(sorted, Inbound, MidIn, mid, Time);
      MembersAscending(sorted, Outbound, MidOut, mid, Time);
      consumed, out := CollapseGroup(mid, ins, outs, consumed, out, w, tol);
    }
    assert mids[..|mids|] == mids;
  }

  /** `collapsePassThrough`. */
  method CollapsePassThrough(items: seq<Activity>, opts: Options) returns (r: seq<Activity>)
    ensures r == CollapseSpec(items, opts)
  {
    var w := WindowMs(opts);
    var tol := Tolerance(opts);
    var sorted := OldestFirst(items);
    assert Ascending(sorted, Time);
    var mids, byMiddle := GroupList(sorted, Inbound, MidIn);
    var outMids, candidateOut := GroupList(sorted, Outbound, MidOut);
    forall k | k !in candidateOut
      ensures OutsOf(sorted, k) == []
    {
      NoKeyNoMembers(sorted, Outbound, MidOut, k);
    }
    var consumed, out := PairGroups(mids, byMiddle, candidateOut, sorted, w, tol);
    out := KeepUnconsumed(items, consumed, out);
    r := NewestFirst(out);
  }

  // ---------------------------------------------------------------- properties

  /**
   * The pairing rule: an inbound leg whose id is not consumed is paired with the earliest outbound
   * leg of its middle address that is not consumed and fits it; otherwise nothing changes.
   */
  lemma StepInPairs(st: State, mid: string, inn: Activity, outs: seq<Activity>, w: real, tol: real)
    requires forall o :: o in outs ==> MidOut(o) == mid
    ensures var r := StepIn(st, mid, inn, outs, w, tol);
      || (r == st && (inn.id in st.consumed || forall o :: o in outs ==> !Candidate(inn, o, st.consumed, w, tol)))
      || (exists k :: 0 <= k < |outs|
            && inn.id !in st.consumed && outs[k].id !in st.consumed
            && Fits(inn, outs[k], w, tol) && MidOut(outs[k]) == mid
            && (forall i :: 0 <= i < k ==> !Candidate(inn, outs[i], st.consumed, w, tol))
            && r == State(st.consumed + {inn.id, outs[k].id}, st.out + [Merge(mid, inn, outs[k])]))
  {
    var k := FirstCandidate(outs, inn, st.consumed, w, tol);
    if inn.id !in st.consumed && k == |outs| {
      forall o | o in outs
        ensures !Candidate(inn, o, st.consumed, w, tol)
      {
        var i :| 0 <= i < |outs| && outs[i] == o;
      }
    }
  }

  /** A built record, recognisable by its id and meta. */
  predicate IsMerged(r: Activity) {
    && r.meta.CollapsedMeta?
    && r.kind == Transfer
    && r.id == "collapsed:" + r.meta.inId + ">" + r.meta.outId
  }

  /** The ids of the two legs behind a built record. */
  function Legs(r: Activity): set<string> {
    if r.meta.CollapsedMeta? then {r.meta.inId, r.meta.outId} else {}
  }

  /** The ids of the legs behind the built records. */
  function LegIds(out: seq<Activity>): set<string> {
    if out == [] then {}
    else LegIds(out[..|out| - 1]) + Legs(out[|out| - 1])
  }

  /** No two built records share a leg. */
  predicate LegsApart(out: seq<Activity>) {
    forall i, j :: 0 <= i < j < |out| ==> Legs(out[i]) !! Legs(out[j])
  }

  /**
   * Every consumed id is a leg of a built record, every built record consumed its legs, and no
   * original is a leg of two built records.
   */
  predicate Accounted(st: State) {
    && st.consumed == LegIds(st.out)
    && (forall r :: r in st.out ==> IsMerged(r))
    && LegsApart(st.out)
  }

  lemma {:induction false} LegsIn(out: seq<Activity>, i: nat)
    requires i < |out|
    ensures Legs(out[i]) <= LegIds(out)
  {
    if i < |out| - 1 {
      LegsIn(out[..|out| - 1], i);
    }
  }

  lemma StepInAccounted(st: State, mid: string, inn: Activity, outs: seq<Activity>, w: real, tol: real)
    requires Accounted(st)
    ensures Accounted(StepIn(st, mid, inn, outs, w, tol))
  {
    var r := StepIn(st, mid, inn, outs, w, tol);
    if r != st {
      var k := FirstCandidate(outs, inn, st.consumed, w, tol);
      var m := Merge(mid, inn, outs[k]);
      assert r.out == st.out + [m];
      assert r.out[..|r.out| - 1] == st.out;
      assert Legs(m) == {inn.id, outs[k].id} && Legs(m) !! st.consumed;
      forall i, j | 0 <= i < j < |r.out|
        ensures Legs(r.out[i]) !! Legs(r.out[j])
      {
        assert r.out[i] == st.out[i];
        if j < |st.out| {
          assert r.out[j] == st.out[j];
        } else {
          LegsIn(st.out, i);
        }
      }
    }
  }

  lemma {:induction false} StepInsAccounted(st: State, mid: string, ins: seq<Activity>, outs: seq<Activity>, w: real, tol: real)
    requires Accounted(st)
    ensures Accounted(StepIns(st, mid, ins, outs, w, tol))
  {
    if ins != [] {
      StepInsAccounted(st, mid, ins[..|ins| - 1], outs, w, tol);
      StepInAccounted(StepIns(st, mid, ins[..|ins| - 1], outs, w, tol), mid, ins[|ins| - 1], outs, w, tol);
    }
  }

  lemma {:induction false} StepGroupsAccounted(st: State, mids: seq<string>, sorted: seq<Activity>, w: real, tol: real)
    requires Accounted(st)
    ensures Accounted(StepGroups(st, mids, sorted, w, tol))
  {
    if mids != [] {
      var mid := mids[|mids| - 1];
      StepGroupsAccounted(st, mids[..|mids| - 1], sorted, w, tol);
      StepInsAccounted(StepGroups(st, mids[..|mids| - 1], sorted, w, tol), mid, InsOf(sorted, mid), OutsOf(sorted, mid), w, tol);
    }
  }

  /**
   * After the pairing phase every consumed id belongs to a built record and vice versa, and no
   * original contributes to two built records.
   */
  lemma PairedAccounted(items: seq<Activity>, opts: Options)
    ensures Accounted(Paired(items, opts))
    ensures var out := Paired(items, opts).out;
      forall i, j :: 0 <= i < j < |out| ==>
        && out[i].meta.CollapsedMeta? && out[j].meta.CollapsedMeta?
        && {out[i].meta.inId, out[i].meta.outId} !! {out[j].meta.inId, out[j].meta.outId}
  {
    var sorted := OldestFirst(items);
    StepGroupsAccounted(State({}, []), Keys(sorted, Inbound, MidIn), sorted, WindowMs(opts), Tolerance(opts));
    var out := Paired(items, opts).out;
    forall i, j | 0 <= i < j < |out|
      ensures && out[i].meta.CollapsedMeta? && out[j].meta.CollapsedMeta?
              && {out[i].meta.inId, out[i].meta.outId} !! {out[j].meta.inId, out[j].meta.outId}
    {
      assert IsMerged(out[i]) && IsMerged(out[j]);
    }
  }

  /** The ids of the transfers among `items`. */
  function TransferIds(items: seq<Activity>): set<string> {
    set a | a in items && a.kind == Transfer :: a.id
  }

  lemma StepInFrom(st: State, mid: string, inn: Activity, outs: seq<Activity>, w: real, tol: real, ids: set<string>)
    requires st.consumed <= ids && inn.id in ids
    requires forall o :: o in outs ==> o.id in ids
    ensures StepIn(st, mid, inn, outs, w, tol).consumed <= ids
  {
    var k := FirstCandidate(outs, inn, st.consumed, w, tol);
    if k < |outs| {
      assert outs[k] in outs;
    }
  }

  lemma {:induction false} StepInsFrom(st: State, mid: string, ins: seq<Activity>, outs: seq<Activity>, w: real, tol: real,
                                       ids: set<string>)
    requires st.consumed <= ids
    requires forall x :: x in ins ==> x.id in ids
    requires forall o :: o in outs ==> o.id in ids
    ensures StepIns(st, mid, ins, outs, w, tol).consumed <= ids
  {
    if ins != [] {
      StepInsFrom(st, mid, ins[..|ins| - 1], outs, w, tol, ids);
      StepInFrom(StepIns(st, mid, ins[..|ins| - 1], outs, w, tol), mid, ins[|ins| - 1], outs, w, tol, ids);
    }
  }

  lemma {:induction false} StepGroupsFrom(st: State, mids: seq<string>, sorted: seq<Activity>, w: real, tol: real,
                                          ids: set<string>)
    requires st.consumed <= ids
    requires forall a :: a in sorted && a.kind == Transfer ==> a.id in ids
    ensures StepGroups(st, mids, sorted, w, tol).consumed <= ids
  {
    if mids != [] {
      var mid := mids[|mids| - 1];
      StepGroupsFrom(st, mids[..|mids| - 1], sorted, w, tol, ids);
      StepInsFrom(StepGroups(st, mids[..|mids| - 1], sorted, w, tol), mid, InsOf(sorted, mid), OutsOf(sorted, mid), w, tol, ids);
    }
  }

  /** Only transfers are consumed: every leg of a built record is the id of a transfer in the input. */
  lemma PairedFromTransfers(items: seq<Activity>, opts: Options)
    ensures Paired(items, opts).consumed <= TransferIds(items)
    ensures forall x :: x in LegIds(Paired(items, opts).out) ==>
      exists a :: a in items && a.kind == Transfer && a.id == x
  {
    var sorted := OldestFirst(items);
    forall a | a in sorted && a.kind == Transfer
      ensures a.id in TransferIds(items)
    {
      assert a in multiset(sorted);
    }
    StepGroupsFrom(State({}, []), Keys(sorted, Inbound, MidIn), sorted, WindowMs(opts), Tolerance(opts), TransferIds(items));
    PairedAccounted(items, opts);
  }

  /**
   * A record whose id no transfer of the input carries (in particular every non-transfer, when ids
   * are distinct) passes through unchanged, as often as it occurs.
   */
  lemma PassesThrough(items: seq<Activity>, opts: Options, a: Activity)
    requires a in items && a.id !in TransferIds(items)
    ensures multiset(CollapseSpec(items, opts))[a] == multiset(items)[a]
  {
    var st := Paired(items, opts);
    PairedFromTransfers(items, opts);
    PairedAccounted(items, opts);
    assert a.kind != Transfer;
    CountKept(st.out, st.consumed, items, a);
  }

  lemma CountKept(out: seq<Activity>, consumed: set<string>, items: seq<Activity>, a: Activity)
    requires forall r :: r in out ==> r.kind == Transfer
    requires a.kind != Transfer && a.id !in consumed
    ensures multiset(out + Seqs.Filter(NotConsumed(consumed), items))[a] == multiset(items)[a]
  {
    Seqs.FilterMultiset(NotConsumed(consumed), items);
    assert multiset(out)[a] == 0;
    assert multiset(out + Seqs.Filter(NotConsumed(consumed), items))
        == multiset(out) + multiset(Seqs.Filter(NotConsumed(consumed), items));
  }

  /** With distinct ids, every record that is not a transfer appears in the result unchanged. */
  lemma NonTransferKept(items: seq<Activity>, opts: Options, a: Activity)
    requires forall i, j :: 0 <= i < j < |items| ==> items[i].id != items[j].id
    requires a in items && a.kind != Transfer
    ensures a in CollapseSpec(items, opts)
  {
    PassesThrough(items, opts, a);
    assert a in multiset(CollapseSpec(items, opts));
  }

  /**
   * The result holds the built records and the originals whose ids were not consumed, newest
   * first; no original survives next to a record built from it.
   */
  lemma ResultParts(st: State, items: seq<Activity>, result: seq<Activity>)
    requires Accounted(st)
    requires result == Assemble(st, items)
    ensures multiset(result) == multiset(st.out + Seqs.Filter(NotConsumed(st.consumed), items))
    ensures forall i, j :: 0 <= i < j < |result| ==> result[i].timestamp >= result[j].timestamp
    ensures forall a :: a in result ==> (a in st.out && IsMerged(a)) || (a in items && a.id !in st.consumed)
    ensures forall a, r :: a in result && r in st.out && a.id !in st.consumed ==>
      a.id != r.meta.inId && a.id != r.meta.outId
  {
    var kept := Seqs.Filter(NotConsumed(st.consumed), items);
    forall a | a in result
      ensures (a in st.out && IsMerged(a)) || (a in items && a.id !in st.consumed)
    {
      assert a in multiset(st.out + kept);
      assert a in st.out + kept;
    }
    forall r | r in st.out
      ensures r.meta.inId in st.consumed && r.meta.outId in st.consumed
    {
      LegIdsOf(st.out, r);
    }
  }

  lemma {:induction false} LegIdsOf(out: seq<Activity>, r: Activity)
    requires r in out && r.meta.CollapsedMeta?
    ensures r.meta.inId in LegIds(out) && r.meta.outId in LegIds(out)
  {
    if out[|out| - 1] != r {
      assert out == out[..|out| - 1] + [out[|out| - 1]];
      LegIdsOf(out[..|out| - 1], r);
    }
  }

  /**
   * `r` was built from a pair of `pool`: an inbound leg and an outbound leg through the same middle
   * address that fit each other.
   */
  predicate BuiltFrom(r: Activity, pool: seq<Activity>, w: real, tol: real) {
    exists inn, o :: inn in pool && o in pool && PairFits(inn, o, w, tol) && r == Merge(MidIn(inn), inn, o)
  }

  predicate PairFits(inn: Activity, o: Activity, w: real, tol: real) {
    Inbound(inn) && Outbound(o) && MidIn(inn) == MidOut(o) && Fits(inn, o, w, tol)
  }

  predicate AllBuiltFrom(out: seq<Activity>, pool: seq<Activity>, w: real, tol: real) {
    forall r :: r in out ==> BuiltFrom(r, pool, w, tol)
  }

  lemma StepInBuilt(st: State, mid: string, inn: Activity, outs: seq<Activity>, w: real, tol: real, pool: seq<Activity>)
    requires inn in pool && Inbound(inn) && MidIn(inn) == mid
    requires forall o :: o in outs ==> o in pool && Outbound(o) && MidOut(o) == mid
    requires AllBuiltFrom(st.out, pool, w, tol)
    ensures AllBuiltFrom(StepIn(st, mid, inn, outs, w, tol).out, pool, w, tol)
  {
    var k := FirstCandidate(outs, inn, st.consumed, w, tol);
    if inn.id !in st.consumed && k < |outs| {
      var o := outs[k];
      assert o in outs;
      assert PairFits(inn, o, w, tol);
      assert BuiltFrom(Merge(mid, inn, o), pool, w, tol);
    }
  }

  lemma {:induction false} StepInsBuilt(st: State, mid: string, ins: seq<Activity>, outs: seq<Activity>, w: real, tol: real,
                                        pool: seq<Activity>)
    requires forall x :: x in ins ==> x in pool && Inbound(x) && MidIn(x) == mid
    requires forall o :: o in outs ==> o in pool && Outbound(o) && MidOut(o) == mid
    requires AllBuiltFrom(st.out, pool, w, tol)
    ensures AllBuiltFrom(StepIns(st, mid, ins, outs, w, tol).out, pool, w, tol)
  {
    if ins != [] {
      StepInsBuilt(st, mid, ins[..|ins| - 1], outs, w, tol, pool);
      assert ins[|ins| - 1] in ins;
      StepInBuilt(StepIns(st, mid, ins[..|ins| - 1], outs, w, tol), mid, ins[|ins| - 1], outs, w, tol, pool);
    }
  }

  lemma {:induction false} StepGroupsBuilt(st: State, mids: seq<string>, sorted: seq<Activity>, w: real, tol: real)
    requires AllBuiltFrom(st.out, sorted, w, tol)
    ensures AllBuiltFrom(StepGroups(st, mids, sorted, w, tol).out, sorted, w, tol)
  {
    if mids != [] {
      var mid := mids[|mids| - 1];
      StepGroupsBuilt(st, mids[..|mids| - 1], sorted, w, tol);
      StepInsBuilt(StepGroups(st, mids[..|mids| - 1], sorted, w, tol), mid, InsOf(sorted, mid), OutsOf(sorted, mid), w, tol, sorted);
    }
  }

  /**
   * Every record the pairing builds merges an inbound leg and an outbound leg of the input that pass
   * through the same middle address and fit each other under the options' window and tolerance.
   */
  lemma PairedFits(items: seq<Activity>, opts: Options)
    ensures forall r :: r in Paired(items, opts).out ==> BuiltFrom(r, items, WindowMs(opts), Tolerance(opts))
  {
    var sorted := OldestFirst(items);
    var w, tol := WindowMs(opts), Tolerance(opts);
    StepGroupsBuilt(State({}, []), Keys(sorted, Inbound, MidIn), sorted, w, tol);
    forall r | r in Paired(items, opts).out
      ensures BuiltFrom(r, items, w, tol)
    {
      assert BuiltFrom(r, sorted, w, tol);
      var inn, o :| inn in sorted && o in sorted && PairFits(inn, o, w, tol) && r == Merge(MidIn(inn), inn, o);
      assert inn in multiset(sorted) && o in multiset(sorted);
    }
  }

  /** No inbound leg of `pool` fits an outbound leg of `pool` through its middle address. */
  predicate NoPairFits(pool: seq<Activity>, w: real, tol: real) {
    forall a, o :: a in pool && o in pool && PairFits(a, o, w, tol) ==> false
  }

  /** Without a fitting outbound leg the scan finds none. */
  lemma {:induction false} NoCandidate(outs: seq<Activity>, inn: Activity, consumed: set<string>, w: real, tol: real)
    requires forall o :: o in outs ==> !Fits(inn, o, w, tol)
    ensures FirstCandidate(outs, inn, consumed, w, tol) == |outs|
  {
    if outs != [] {
      assert outs[0] in outs;
      NoCandidate(outs[1..], inn, consumed, w, tol);
    }
  }

  lemma StepInsUnpaired(st: State, mid: string, ins: seq<Activity>, outs: seq<Activity>, w: real, tol: real,
                        pool: seq<Activity>)
    requires NoPairFits(pool, w, tol)
    requires forall x :: x in ins ==> x in pool && Inbound(x) && MidIn(x) == mid
    requires forall o :: o in outs ==> o in pool && Outbound(o) && MidOut(o) == mid
    ensures StepIns(st, mid, ins, outs, w, tol) == st
  {
    if ins != [] {
      StepInsUnpaired(st, mid, ins[..|ins| - 1], outs, w, tol, pool);
      var inn := ins[|ins| - 1];
      assert inn in ins;
      NoCandidate(outs, inn, st.consumed, w, tol);
    }
  }

  lemma {:induction false} StepGroupsUnpaired(st: State, mids: seq<string>, sorted: seq<Activity>, w: real, tol: real)
    requires NoPairFits(sorted, w, tol)
    ensures StepGroups(st, mids, sorted, w, tol) == st
  {
    if mids != [] {
      var mid := mids[|mids| - 1];
      StepGroupsUnpaired(st, mids[..|mids| - 1], sorted, w, tol);
      StepInsUnpaired(st, mid, InsOf(sorted, mid), OutsOf(sorted, mid), w, tol, sorted);
    }
  }

  /**
   * When no inbound leg fits any outbound leg through its middle address, nothing is paired and the
   * result is the input, newest first.
   */
  lemma NoTransfersUnchanged(items: seq<Activity>, opts: Options)
    requires forall a, o :: a in items && o in items && Inbound(a) && Outbound(o) && MidIn(a) == MidOut(o) ==>
      !Fits(a, o, WindowMs(opts), Tolerance(opts))
    ensures Paired(items, opts) == State({}, [])
    ensures CollapseSpec(items, opts) == NewestFirst(items)
  {
    var sorted := OldestFirst(items);
    forall a, o | a in sorted && o in sorted
      ensures !PairFits(a, o, WindowMs(opts), Tolerance(opts))
    {
      assert a in multiset(sorted) && o in multiset(sorted);
    }
    StepGroupsUnpaired(State({}, []), Keys(sorted, Inbound, MidIn), sorted, WindowMs(opts), Tolerance(opts));
    Seqs.FilterAll(NotConsumed({}), items);
    assert [] + items == items;
  }

  /** An empty list collapses to an empty list. */
  lemma EmptyCollapse(opts: Options)
    ensures CollapseSpec([], opts) == []
  {
    NoTransfersUnchanged([], opts);
  }

  /** Equal non-negative amounts always match, whatever the tolerance. */
  lemma EqualAmountsClose(a: real, tol: real)
    requires a >= 0.0 && tol >= 0.0
    ensures Close(a, a, tol)
  {
    assert Times(Max(a, a), tol) == a * tol;
  }

  /** The closeness test does not depend on which leg comes first. */
  lemma CloseSymmetric(a: real, b: real, tol: real)
    ensures Close(a, b, tol) <==> Close(b, a, tol)
  {
    assert Max(a, b) == Max(b, a);
    assert Abs(a - b) == Abs(b - a);
  }

  /**
   * A transfer from an address to itself is both an inbound and an outbound leg of that address,
   * and while its id is not consumed it is a candidate partner of itself.
   */
  lemma SelfTransferPairsWithItself(a: Activity, consumed: set<string>, w: real, tol: real)
    requires a.kind == Transfer && MidIn(a) != "" && MidIn(a) == MidOut(a)
    requires a.id !in consumed && w >= 0.0 && tol >= 0.0
    requires a.amount.Some? && a.amount.value >= 0.0
    ensures Inbound(a) && Outbound(a)
    ensures Candidate(a, a, consumed, w, tol)
  {
    EqualAmountsClose(a.amount.value, tol);
  }
}
