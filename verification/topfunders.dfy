/**
 * `TopFunders`: the addresses that sent the most USD value into the wallet. Inbound activities are
 * summed and counted per sender in a `Map`, which is then sorted by USD (ties: more transactions
 * first) and cut to `max` entries.
 */
module TopFunders {
  import opened Text
  import opened Activities
  import opened Sorting
  import opened Grouping
  import Seqs

  /** One list entry: the sender, its USD total and its number of inbound transactions. */
  datatype Funder = Funder(addr: string, usd: real, count: nat)

  /** The number of entries when the caller gives none. */
  const DefaultMax := 10

  /** `(a.to || '').toLowerCase() === wallet.toLowerCase()`. */
  predicate FundsWallet(wallet: string, a: Activity) {
    Lower(a.to) == Lower(wallet)
  }

  function Inbound(wallet: string): Activity -> bool {
    a => FundsWallet(wallet, a)
  }

  /** `(a.from || 'unknown').toLowerCase()`. */
  function Sender(a: Activity): string {
    Lower(if a.from == "" then "unknown" else a.from)
  }

  /** `([addr, v]) => ({ addr, ...v })`. */
  function AsFunder(e: (string, Tally)): Funder {
    Funder(e.0, e.1.sum, e.1.count)
  }

  /** `(b.usd || 0) - (a.usd || 0) || b.count - a.count`: USD first, then the count. */
  function FunderRank(f: Funder): Rank {
    Rank(f.usd, f.count as real)
  }

  /** The map's entries before sorting: one per sender, in order of its first inbound activity. */
  function Funders(items: seq<Activity>, wallet: string): seq<Funder> {
    Seqs.Map(AsFunder, Groups(items, Inbound(wallet), Sender, UsdOrZero))
  }

  /** The listed funders. */
  function TopList(items: seq<Activity>, wallet: string, max: int): seq<Funder> {
    Slice(SortDesc(Funders(items, wallet), FunderRank), max)
  }

  /** The `list` memo. */
  method FunderList(items: seq<Activity>, wallet: string, max: int) returns (list: seq<Funder>)
    ensures list == TopList(items, wallet, max)
  {
    var entries := GroupEntries(items, Inbound(wallet), Sender, UsdOrZero);
    var funders := Seqs.Map(AsFunder, entries);
    list := Slice(SortDesc(funders, FunderRank), max);
  }

  /** `if (!list.length) return null`. */
  predicate Renders(list: seq<Funder>) {
    |list| > 0
  }

  /** Each funder's entry totals exactly the inbound activities from that sender. */
  lemma FunderAt(items: seq<Activity>, wallet: string, k: nat)
    requires k < |Funders(items, wallet)|
    ensures var f := Funders(items, wallet)[k];
      && f.usd == SumOf(items, Inbound(wallet), Sender, UsdOrZero, f.addr)
      && f.count == CountOf(items, Inbound(wallet), Sender, f.addr)
      && f.count >= 1
      && exists i :: 0 <= i < |items| && FundsWallet(wallet, items[i]) && Sender(items[i]) == f.addr
  {
    var g := Groups(items, Inbound(wallet), Sender, UsdOrZero);
    Seqs.MapAt(AsFunder, g);
    GroupAt(items, Inbound(wallet), Sender, UsdOrZero, k);
  }

  /** No sender has two entries. */
  lemma FundersDistinct(items: seq<Activity>, wallet: string)
    ensures var fs := Funders(items, wallet);
      Seqs.Distinct(fs) && forall i, j :: 0 <= i < j < |fs| ==> fs[i].addr != fs[j].addr
  {
    var g := Groups(items, Inbound(wallet), Sender, UsdOrZero);
    Seqs.MapAt(AsFunder, g);
    GroupsDistinct(items, Inbound(wallet), Sender, UsdOrZero);
  }

  /** Every sender of an inbound activity has an entry. */
  lemma FundersCover(items: seq<Activity>, wallet: string, i: nat)
    requires i < |items| && FundsWallet(wallet, items[i])
    ensures exists k :: 0 <= k < |Funders(items, wallet)| && Funders(items, wallet)[k].addr == Sender(items[i])
  {
    var g := Groups(items, Inbound(wallet), Sender, UsdOrZero);
    assert Inbound(wallet)(items[i]);
    GroupsCover(items, Inbound(wallet), Sender, UsdOrZero, i);
    var k :| 0 <= k < |g| && g[k].0 == Sender(items[i]);
    Seqs.MapAt(AsFunder, g);
    assert Funders(items, wallet)[k].addr == g[k].0;
  }

  /** `f` is listed ahead of `g`: more USD, or as much USD and at least as many activities. */
  predicate Ahead(f: Funder, g: Funder) {
    f.usd > g.usd || (f.usd == g.usd && f.count >= g.count)
  }

  /**
   * The list holds the `max` highest-ranked senders (all of them when there are fewer): no sender
   * left out is ahead of one listed.
   */
  lemma TopListChosen(items: seq<Activity>, wallet: string, max: int)
    ensures var (list, all) := (TopList(items, wallet, max), Funders(items, wallet));
      && (max >= 0 ==> |list| == if max < |all| then max else |all|)
      && (forall f :: f in list ==> f in all)
      && (forall f, g :: f in list && g in all && g !in list ==> Ahead(f, g))
  {
    RankedFunders(Funders(items, wallet), max);
  }

  lemma RankedFunders(all: seq<Funder>, max: int)
    ensures var list := Slice(SortDesc(all, FunderRank), max);
      && (max >= 0 ==> |list| == if max < |all| then max else |all|)
      && (forall f :: f in list ==> f in all)
      && (forall f, g :: f in list && g in all && g !in list ==> Ahead(f, g))
  {
    var list := Slice(SortDesc(all, FunderRank), max);
    TopChosen(all, FunderRank, max);
    forall f | f in list
      ensures f in all
    {
      assert f in multiset(all);
    }
    forall f, g | f in list && g in all && g !in list
      ensures Ahead(f, g)
    {
      assert RankGe(FunderRank(f), FunderRank(g));
    }
  }

  /**
   * The list is ordered by USD and then by count, holds at most `max` entries, lists no sender
   * twice, and each entry totals the sender's inbound activities; with `max > 0` nothing is
   * rendered exactly when no activity pays into the wallet.
   */
  lemma TopListFacts(items: seq<Activity>, wallet: string, max: int)
    ensures var list := TopList(items, wallet, max);
      && (forall i, j :: 0 <= i < j < |list| ==>
            list[i].usd > list[j].usd || (list[i].usd == list[j].usd && list[i].count >= list[j].count))
      && (max >= 0 ==> |list| <= max)
      && (forall i, j :: 0 <= i < j < |list| ==> list[i].addr != list[j].addr)
      && (forall f :: f in list ==>
            && f.usd == SumOf(items, Inbound(wallet), Sender, UsdOrZero, f.addr)
            && f.count == CountOf(items, Inbound(wallet), Sender, f.addr))
      && (max > 0 ==> (Renders(list) <==> exists i :: 0 <= i < |items| && FundsWallet(wallet, items[i])))
  {
    var fs := Funders(items, wallet);
    var list := TopList(items, wallet, max);
    FundersDistinct(items, wallet);
    TopOf(fs, FunderRank, max);
    forall i, j | 0 <= i < j < |list|
      ensures list[i].addr != list[j].addr
    {
      assert list[i] in fs && list[j] in fs;
    }
    forall f | f in list
      ensures f.usd == SumOf(items, Inbound(wallet), Sender, UsdOrZero, f.addr)
      ensures f.count == CountOf(items, Inbound(wallet), Sender, f.addr)
    {
      var k :| 0 <= k < |fs| && fs[k] == f;
      FunderAt(items, wallet, k);
    }
    if max > 0 && list != [] {
      FunderAt(items, wallet, 0);
    }
    if max > 0 && list == [] {
      forall i | 0 <= i < |items|
        ensures !FundsWallet(wallet, items[i])
      {
        if FundsWallet(wallet, items[i]) {
          FundersCover(items, wallet, i);
        }
      }
    }
  }

  /**
   * Before the cut, the counts add up to the number of inbound activities and the USD totals to
   * their USD value, so every inbound activity is counted under exactly one sender.
   */
  lemma FunderTotals(items: seq<Activity>, wallet: string)
    ensures Seqs.SumBy((f: Funder) => f.count as real, Funders(items, wallet))
         == CountIncluded(items, Inbound(wallet)) as real
    ensures Seqs.SumBy((f: Funder) => f.usd, Funders(items, wallet))
         == SumIncluded(items, Inbound(wallet), UsdOrZero)
  {
    var g := Groups(items, Inbound(wallet), Sender, UsdOrZero);
    GroupsTotals(items, Inbound(wallet), Sender, UsdOrZero);
    Seqs.SumByMap((f: Funder) => f.count as real, AsFunder, (e: (string, Tally)) => e.1.count as real, g);
    Seqs.SumByMap((f: Funder) => f.usd, AsFunder, (e: (string, Tally)) => e.1.sum, g);
  }
}
