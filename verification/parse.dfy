/**
 * `parseTransactionsV3`: one normalised activity per provider item, in order.
 * The current time, used when an item has no `block_signed_at`, is the parameter `now`, and ISO
 * time strings are turned into milliseconds by the parameter `toMillis`.
 */
module Parse {
  import opened Wrappers
  import opened Text
  import opened JsNumber
  import opened CovalentTypes
  import opened Activities
  import opened Classify
  import Seqs

  /** The ERC-20 entry has the item's from/to addresses, compared case-insensitively. */
  predicate SameEnds(t: Erc20Transfer, item: RawItem) {
    Lower(t.fromAddress.GetOr("")) == Lower(item.fromAddress.GetOr(""))
    && Lower(t.toAddress.GetOr("")) == Lower(item.toAddress.GetOr(""))
  }

  /** Index of the first entry with the item's addresses, or `|ts|`. */
  function FirstSameEnds(ts: seq<Erc20Transfer>, item: RawItem): (k: nat)
    ensures k <= |ts|
    ensures k < |ts| ==> SameEnds(ts[k], item)
    ensures forall i :: 0 <= i < k ==> !SameEnds(ts[i], item)
  {
    if ts == [] then 0 else if SameEnds(ts[0], item) then 0 else 1 + FirstSameEnds(ts[1..], item)
  }

  /** `erc20.find(sameEnds) || erc20[0]`. */
  function ChosenTransfer(ts: seq<Erc20Transfer>, item: RawItem): (t: Erc20Transfer)
    requires |ts| > 0
    ensures (exists i :: 0 <= i < |ts| && SameEnds(ts[i], item)) ==>
      exists k :: 0 <= k < |ts| && t == ts[k] && SameEnds(t, item) && forall i :: 0 <= i < k ==> !SameEnds(ts[i], item)
    ensures (forall i :: 0 <= i < |ts| ==> !SameEnds(ts[i], item)) ==> t == ts[0]
  {
    var k := FirstSameEnds(ts, item);
    if k < |ts| then ts[k] else ts[0]
  }

  /** `Number(token_decimals ?? 18) || 18`; a fractional count of decimals is rounded down. */
  function Decimals(t: Erc20Transfer): (d: int)
    ensures t.tokenDecimals.None? ==> d == 18
    ensures NumberOfValue(t.tokenDecimals.GetOr(Num(18.0))) == Some(0.0) ==> d == 18
    ensures NumberOfValue(t.tokenDecimals.GetOr(Num(18.0))).None? ==> d == 18
    ensures t.tokenDecimals == Some(Num(6.0)) ==> d == 6
  {
    match NumberOfValue(t.tokenDecimals.GetOr(Num(18.0)))
    case None => 18
    case Some(v) => if v == 0.0 then 18 else v.Floor
  }

  /** Any other number of decimals is taken as its integer part. */
  lemma DecimalsOfNumber(t: Erc20Transfer, v: real)
    requires NumberOfValue(t.tokenDecimals.GetOr(Num(18.0))) == Some(v) && v != 0.0
    ensures Decimals(t) == v.Floor
    ensures Decimals(t) as real <= v < Decimals(t) as real + 1.0
  {
  }

  /** `Number(typeof v === 'string' ? v : String(v ?? '0'))`: an absent value reads as 0. */
  function RawAmount(v: Option<RawValue>): (r: Option<real>)
    ensures v.None? ==> r == Some(0.0)
    ensures v.Some? && v.value.Num? ==> r == Some(v.value.n)
  {
    match v
    case None => Some(0.0)
    case Some(x) => NumberOfValue(x)
  }

  /** A value sent as a digit string reads as the same amount as when it is sent as that number. */
  lemma RawAmountDigits(s: string)
    requires s != [] && AllDigits(s)
    ensures RawAmount(Some(Str(s))) == Some(DigitsValue(s) as real)
    ensures RawAmount(Some(Str(s))) == RawAmount(Some(Num(DigitsValue(s) as real)))
  {
    DigitsNumber(s);
  }

  /** The token symbol and normalised amount: ERC-20 entry first, then the native value. */
  function TokenAndAmount(item: RawItem): (Option<string>, Option<real>) {
    if item.erc20Transfers.Some? && |item.erc20Transfers.value| > 0 then
      var t := ChosenTransfer(item.erc20Transfers.value, item);
      var amount := match RawAmount(t.value)
        case None => None
        case Some(n) => Some(Scale10(n, -Decimals(t)));
      (Some(if Declared(t.tokenSymbol) then t.tokenSymbol.value else "TOKEN"), amount)
    else if item.value.Some? then
      match NumberOfValue(item.value.value)
      case Some(n) => (Some("NATIVE"), Some(Scale10(n, -18)))
      case None => (None, None)
    else (None, None)
  }

  /** `gas_quote_rate` if numeric, else `quote_rate` if numeric. */
  function QuoteRate(item: RawItem): Option<real> {
    if IsNumber(item.gasQuoteRate) then Some(item.gasQuoteRate.value.n)
    else if IsNumber(item.quoteRate) then Some(item.quoteRate.value.n)
    else None
  }

  /** `value_quote` when numeric, else `amount * quoteRate` when both are numbers. */
  function UsdEstimate(item: RawItem, amount: Option<real>): Option<real> {
    var rate := QuoteRate(item);
    if IsNumber(item.valueQuote) then Some(item.valueQuote.value.n)
    else if amount.Some? && rate.Some? then Some(Times(amount.value, rate.value))
    else None
  }

  /** The activity id `${chainId}:${txHash}`. */
  function ActivityId(chainId: int, txHash: string): string {
    IntToString(chainId) + ":" + txHash
  }

  /** One item as an activity. */
  function Normalize(item: RawItem, chainId: int, toMillis: string -> int, now: int): Activity
  {
    var txHash := if Declared(item.txHash) then item.txHash.value else "unknown";
    var tokenAndAmount := TokenAndAmount(item);
    var token := tokenAndAmount.0;
    var amount := tokenAndAmount.1;
    var amountUSD := UsdEstimate(item, amount);
    Activity(
      id := ActivityId(chainId, txHash),
      chainId := chainId,
      timestamp := if Declared(item.blockSignedAt) then toMillis(item.blockSignedAt.value) else now,
      kind := ClassifyTransaction(item),
      from := item.fromAddress.GetOr(""),
      to := item.toAddress.GetOr(""),
      token := token,
      amount := amount,
      amountUSD := amountUSD,
      txHash := txHash,
      meta := NoMeta)
  }

  /** The identifying fields: deterministic id, defaults for a missing hash, time and addresses. */
  lemma NormalizeIdentity(item: RawItem, chainId: int, toMillis: string -> int, now: int, a: Activity)
    requires a == Normalize(item, chainId, toMillis, now)
    ensures a.chainId == chainId && a.meta == NoMeta
    ensures a.txHash == (if Declared(item.txHash) then item.txHash.value else "unknown")
    ensures a.id == ActivityId(chainId, a.txHash)
    ensures a.timestamp == (if Declared(item.blockSignedAt) then toMillis(item.blockSignedAt.value) else now)
    ensures a.kind == ClassifyTransaction(item)
    ensures a.from == item.fromAddress.GetOr("") && a.to == item.toAddress.GetOr("")
  {
  }

  /** With an ERC-20 list: the chosen entry's symbol (default "TOKEN") and value / 10^decimals. */
  lemma NormalizeErc20(item: RawItem, chainId: int, toMillis: string -> int, now: int, a: Activity)
    requires a == Normalize(item, chainId, toMillis, now)
    requires item.erc20Transfers.Some? && |item.erc20Transfers.value| > 0
    ensures var t := ChosenTransfer(item.erc20Transfers.value, item);
      && a.token == Some(if Declared(t.tokenSymbol) then t.tokenSymbol.value else "TOKEN")
      && (a.amount.Some? <==> RawAmount(t.value).Some?)
      && (a.amount.Some? ==> a.amount.value == Scale10(RawAmount(t.value).value, -Decimals(t)))
  {
    assert a.token == TokenAndAmount(item).0 && a.amount == TokenAndAmount(item).1;
  }

  /** Without one: a native value in wei becomes the amount with token "NATIVE"; no value, nothing. */
  lemma NormalizeNative(item: RawItem, chainId: int, toMillis: string -> int, now: int, a: Activity)
    requires a == Normalize(item, chainId, toMillis, now)
    requires item.erc20Transfers.None? || |item.erc20Transfers.value| == 0
    ensures item.value.None? ==> a.token == None && a.amount == None
    ensures item.value.Some? && NumberOfValue(item.value.value).None? ==> a.token == None && a.amount == None
    ensures item.value.Some? && NumberOfValue(item.value.value).Some? ==>
      a.token == Some("NATIVE") && a.amount == Some(NumberOfValue(item.value.value).value / 1000000000000000000.0)
  {
    Pow10Of18();
  }

  /** The USD estimate: a numeric value_quote first, then amount times the quote rate, else none. */
  lemma NormalizeUsd(item: RawItem, chainId: int, toMillis: string -> int, now: int, a: Activity)
    requires a == Normalize(item, chainId, toMillis, now)
    ensures IsNumber(item.valueQuote) ==> a.amountUSD == Some(item.valueQuote.value.n)
    ensures !IsNumber(item.valueQuote) && a.amount.Some? && QuoteRate(item).Some? ==>
      a.amountUSD == Some(Times(a.amount.value, QuoteRate(item).value))
    ensures !IsNumber(item.valueQuote) && (a.amount.None? || QuoteRate(item).None?) ==> a.amountUSD == None
    ensures IsNumber(item.gasQuoteRate) ==> QuoteRate(item) == Some(item.gasQuoteRate.value.n)
  {
    assert a.amountUSD == UsdEstimate(item, a.amount);
  }

  /** `parseTransactionsV3`. */
  method ParseTransactionsV3(data: RawData, chainId: int, toMillis: string -> int, now: int)
    returns (out: seq<Activity>)
    ensures out == ParseAll(ItemsOf(data), chainId, toMillis, now)
  {
    var items := ItemsOf(data);
    out := [];
    for i := 0 to |items|
      invariant out == ParseAll(items[..i], chainId, toMillis, now)
    {
      assert items[..i + 1][..i] == items[..i];
      out := out + [Normalize(items[i], chainId, toMillis, now)];
      assert out == ParseAll(items[..i + 1], chainId, toMillis, now);
    }
    assert items[..|items|] == items;
  }

  /** One activity per item, in order. */
  function ParseAll(items: seq<RawItem>, chainId: int, toMillis: string -> int, now: int): seq<Activity> {
    Seqs.Map(item => Normalize(item, chainId, toMillis, now), items)
  }

  /** Exactly one activity per item, each the normalisation of the item at the same position. */
  lemma ParseAllPointwise(items: seq<RawItem>, chainId: int, toMillis: string -> int, now: int)
    ensures |ParseAll(items, chainId, toMillis, now)| == |items|
    ensures forall i :: 0 <= i < |items| ==>
      ParseAll(items, chainId, toMillis, now)[i] == Normalize(items[i], chainId, toMillis, now)
  {
    Seqs.MapAt(item => Normalize(item, chainId, toMillis, now), items);
  }

  /** Every activity parsed for a chain carries that chain's id. */
  lemma ParseAllChain(items: seq<RawItem>, chainId: int, toMillis: string -> int, now: int)
    ensures forall a :: a in ParseAll(items, chainId, toMillis, now) ==> a.chainId == chainId
  {
    ParseAllPointwise(items, chainId, toMillis, now);
  }

  lemma NoColonInNumber(n: int)
    ensures ':' !in IntToString(n)
  {
  }

  /** Distinct (chain, hash) pairs never share an id. */
  lemma ActivityIdInjective(c1: int, h1: string, c2: int, h2: string)
    requires ActivityId(c1, h1) == ActivityId(c2, h2)
    ensures c1 == c2 && h1 == h2
  {
    var p1 := IntToString(c1);
    var p2 := IntToString(c2);
    var id := ActivityId(c1, h1);
    NoColonInNumber(c1);
    NoColonInNumber(c2);
    assert forall i :: 0 <= i < |p1| ==> id[i] == p1[i];
    assert forall i :: 0 <= i < |p2| ==> id[i] == p2[i];
    assert id[|p1|] == ':' && id[|p2|] == ':';
    assert IndexOf(id, ':') == |p1|;
    assert IndexOf(id, ':') == |p2|;
    assert p1 == id[..|p1|] == p2;
    IntToStringInjective(c1, c2);
    assert h1 == id[|p1| + 1..];
  }
}
