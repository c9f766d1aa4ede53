/**
 * `covalentRequest.ts`: the key lookup, one page request in each provider dialect with its error
 * messages, the page loops and the per-chain aggregation of the settled fetches. HTTP is an
 * oracle: the parameters `covalent` and `moralis` map the request the code would send to the
 * reply it gets. How the key is carried (query or header), the base URLs and the pacing delay
 * are not part of the model.
 */
module Fetch {
  import opened Wrappers
  import opened Text
  import opened JsNumber
  import opened CovalentTypes
  import opened Paging
  import Seqs
  import Parse

  // ---------------------------------------------------------------- configuration

  datatype Provider = Covalent | Moralis

  /**
   * The values read once at start-up: the provider (any `VITE_PROVIDER` other than "moralis"
   * selects Covalent), the key saved in the browser, the two keys from the build environment and
   * `VITE_MORALIS_MAX_PAGES`.
   */
  datatype Config = Config(provider: Provider, runtimeKey: Option<string>,
                           covalentEnvKey: Option<string>, moralisEnvKey: Option<string>,
                           moralisMaxPages: Option<int>)

  /** `getCovalentKey`: a non-empty saved key wins; otherwise the environment key of the provider. */
  function GetKey(cfg: Config): (key: Option<string>)
    ensures Declared(cfg.runtimeKey) ==> key == cfg.runtimeKey
    ensures !Declared(cfg.runtimeKey) && cfg.provider == Covalent ==> key == cfg.covalentEnvKey
    ensures !Declared(cfg.runtimeKey) && cfg.provider == Moralis ==> key == cfg.moralisEnvKey
  {
    var envKey := match cfg.provider
      case Moralis => cfg.moralisEnvKey
      case Covalent => cfg.covalentEnvKey;
    Or(cfg.runtimeKey, envKey)
  }

  const MissingKey: string := "API\U{2011}Key fehlt. Bitte in .env setzen oder im UI einf\U{00FC}gen."
  const MissingKeyShort: string := "API\U{2011}Key fehlt."
  const InvalidKey: string :=
    "API\U{2011}Key ung\U{00FC}ltig oder nicht autorisiert. Bitte GoldRush/Covalent\U{2011}Key (cqt_/ckey_) pr\U{00FC}fen."
  const UnknownCovalentError: string := "Unknown Covalent error"

  // ---------------------------------------------------------------- replies

  /** A response body: parsed JSON, or the error `res.json()` throws when it is not JSON. */
  datatype Body<J> = Json(json: J) | NotJson(error: string)

  datatype Reply<J> = Reply(status: int, body: Body<J>)

  /** `res.ok`. */
  predicate IsOk(status: int) {
    200 <= status <= 299
  }

  // ---------------------------------------------------------------- Covalent

  /** The fields of a Covalent response body the code reads. */
  datatype CovalentJson = CovalentJson(data: RawData, error: bool, errorMessage: Option<string>)

  /** One `transactions_v3` request: the path parameters and the query. */
  datatype CovalentRequest = CovalentRequest(chainId: int, address: string, pageSize: Option<int>,
                                             pageNumber: Option<int>, key: string)

  /** `{ pageSize?, pageNumber? }`. */
  datatype PageParams = PageParams(pageSize: Option<int>, pageNumber: Option<int>)

  /** `if (n) search.set(...)`: an absent or zero number stays out of the query. */
  function Truthy(n: Option<int>): (r: Option<int>)
    ensures r.Some? <==> n.Some? && n.value != 0
    ensures r.Some? ==> r == n
  {
    if n.Some? && n.value != 0 then n else None
  }

  /** The message thrown for a reply that is not OK; `detail` is the body's `error_message`. */
  function CovalentErrorMessage(status: int, detail: Option<string>): (msg: string)
    ensures status == 401 || status == 403 ==> msg == InvalidKey
    ensures status != 401 && status != 403 && !Declared(detail) ==> msg == "Covalent Fehler " + IntToString(status)
    ensures status != 401 && status != 403 && Declared(detail) ==>
      msg == "Covalent Fehler " + IntToString(status) + ": " + detail.value
  {
    var msg := "Covalent Fehler " + IntToString(status);
    var msg := if Declared(detail) then msg + ": " + detail.value else msg;
    if status == 401 || status == 403 then InvalidKey else msg
  }

  function CovalentRequestOf(chainId: int, address: string, params: PageParams, key: string): CovalentRequest {
    CovalentRequest(chainId, address, Truthy(params.pageSize), Truthy(params.pageNumber), key)
  }

  /** The Covalent branch of `fetchTransactionsV3`, with the key already found. */
  function CovalentPage(covalent: CovalentRequest -> Reply<CovalentJson>, chainId: int, address: string,
                        params: PageParams, key: string): (r: Outcome<RawData>)
    ensures var reply := covalent(CovalentRequestOf(chainId, address, params, key));
      && (r.Ok? <==> IsOk(reply.status) && reply.body.Json? && !reply.body.json.error)
      && (r.Ok? ==> r.value == reply.body.json.data)
      && (reply.status == 401 || reply.status == 403 ==> r == Failed(InvalidKey))
      && (IsOk(reply.status) && reply.body.Json? && reply.body.json.error ==> r.Failed? && r.message != "")
  {
    var reply := covalent(CovalentRequestOf(chainId, address, params, key));
    if !IsOk(reply.status) then
      var detail := match reply.body
        case Json(j) => j.errorMessage
        case NotJson(_) => None;
      Failed(CovalentErrorMessage(reply.status, detail))
    else
      match reply.body
      case NotJson(e) => Failed(e)
      case Json(j) =>
        if j.error then Failed(if Declared(j.errorMessage) then j.errorMessage.value else UnknownCovalentError)
        else Ok(j.data)
  }

  // ---------------------------------------------------------------- Moralis

  /** One entry of a Moralis item's `erc20_transfers`, with the fields the mapping reads. */
  datatype MoralisTransfer = MoralisTransfer(fromAddress: Option<string>, toAddress: Option<string>,
                                             tokenSymbol: Option<string>, symbol: Option<string>,
                                             tokenDecimals: Option<RawValue>, decimals: Option<RawValue>,
                                             value: Option<RawValue>)

  /** One item of a Moralis wallet history. */
  datatype MoralisItem = MoralisItem(hash: Option<string>, transactionHash: Option<string>, txHash: Option<string>,
                                     blockTimestamp: Option<string>, blockSignedAt: Option<string>,
                                     fromAddress: Option<string>, toAddress: Option<string>,
                                     value: Option<RawValue>, valueUsd: Option<RawValue>, valueQuote: Option<RawValue>,
                                     erc20Transfers: Option<seq<MoralisTransfer>>)

  /** The fields of a Moralis response body the code reads. */
  datatype MoralisJson = MoralisJson(result: Option<seq<MoralisItem>>, data: Option<seq<MoralisItem>>,
                                     cursor: Option<string>, next: Option<string>, message: Option<string>)

  /** One wallet-history request (order, `include` and the key header are fixed and left out). */
  datatype MoralisRequest = MoralisRequest(chain: string, address: string, limit: int, cursor: Option<string>, key: string)

  /** The items of one Moralis page and the cursor of the next, if any. */
  datatype MoralisPageResult = MoralisPageResult(items: seq<RawItem>, nextCursor: Option<string>)

  /** The lower-case hexadecimal digits. */
  const HexDigits: string := "0123456789abcdef"

  function HexDigitValue(c: char): nat {
    if '0' <= c <= '9' then c as int - '0' as int
    else if 'a' <= c <= 'f' then c as int - 'a' as int + 10
    else 0
  }

  lemma HexDigitRoundTrip(d: nat)
    requires d < 16
    ensures HexDigitValue(HexDigits[d]) == d && HexDigits[d] != '-'
  {
  }

  /** `n.toString(16)` for a natural number. */
  function NatToHex(n: nat): (r: string)
    ensures |r| >= 1 && '-' !in r
    decreases n
  {
    (if n < 16 then "" else NatToHex(n / 16)) + [HexDigits[n % 16]]
  }

  /** The value of a string of hexadecimal digits. */
  function HexValue(s: string): nat {
    if s == [] then 0 else HexValue(s[..|s| - 1]) * 16 + HexDigitValue(s[|s| - 1])
  }

  /** Reading the digits back gives the number. */
  lemma {:induction false} HexRoundTrip(n: nat)
    ensures HexValue(NatToHex(n)) == n
    decreases n
  {
    var r := NatToHex(n);
    assert r[..|r| - 1] == (if n < 16 then "" else NatToHex(n / 16));
    HexDigitRoundTrip(n % 16);
    if n >= 16 {
      HexRoundTrip(n / 16);
    }
  }

  /** `n.toString(16)`: a minus sign, then the digits of the magnitude. */
  function IntToHex(n: int): (r: string)
    ensures n < 0 ==> r == "-" + NatToHex(-n)
    ensures n >= 0 ==> r == NatToHex(n)
  {
    if n < 0 then "-" + NatToHex(-n) else NatToHex(n)
  }

  /** A hexadecimal form starts with a minus sign exactly when the number is negative. */
  lemma HexSign(n: int)
    ensures |IntToHex(n)| > 0 && (IntToHex(n)[0] == '-' <==> n < 0)
  {
    if n >= 0 {
      assert IntToHex(n)[0] in NatToHex(n);
    }
  }

  /** Different natural numbers have different digit strings. */
  lemma NatToHexInjective(a: nat, b: nat)
    requires NatToHex(a) == NatToHex(b)
    ensures a == b
  {
    HexRoundTrip(a);
    HexRoundTrip(b);
  }

  /** Different numbers have different hexadecimal forms. */
  lemma IntToHexInjective(a: int, b: int)
    requires IntToHex(a) == IntToHex(b)
    ensures a == b
  {
    HexSign(a);
    HexSign(b);
    if a < 0 {
      var s := IntToHex(a);
      assert NatToHex(-a) == s[1..];
      assert NatToHex(-b) == s[1..];
      NatToHexInjective(-a, -b);
    } else {
      NatToHexInjective(a, b);
    }
  }

  /** The chain ids with a Moralis chain name. */
  const NamedChains: set<int> := {1, 56, 137, 10, 42161, 43114}

  /** `moralisChainParam`: the name of a known chain, else `0x` and the id in hexadecimal. */
  function MoralisChainParam(chainId: int): (r: string)
    ensures chainId == 1 ==> r == "eth"
    ensures chainId == 56 ==> r == "bsc"
    ensures chainId == 137 ==> r == "polygon"
    ensures chainId == 10 ==> r == "optimism"
    ensures chainId == 42161 ==> r == "arbitrum"
    ensures chainId == 43114 ==> r == "avalanche"
    ensures chainId !in NamedChains ==> r == "0x" + IntToHex(chainId)
  {
    match chainId
    case 1 => "eth"
    case 56 => "bsc"
    case 137 => "polygon"
    case 10 => "optimism"
    case 42161 => "arbitrum"
    case 43114 => "avalanche"
    case _ => "0x" + IntToHex(chainId)
  }

  /** A chain parameter starts with the digit 0 exactly when it is not a chain name. */
  lemma ChainParamHead(chainId: int)
    ensures |MoralisChainParam(chainId)| > 0
    ensures MoralisChainParam(chainId)[0] == '0' <==> chainId !in NamedChains
  {
  }

  /** No two chain ids share a chain parameter. */
  lemma MoralisChainParamInjective(a: int, b: int)
    requires MoralisChainParam(a) == MoralisChainParam(b)
    ensures a == b
  {
    ChainParamHead(a);
    ChainParamHead(b);
    if a !in NamedChains {
      var s := MoralisChainParam(a);
      assert IntToHex(a) == s[2..] == IntToHex(b);
      IntToHexInjective(a, b);
    }
  }

  /** `Math.min(Math.max(limit, 10), 100)`. */
  function MoralisLimit(limit: int): (r: int)
    ensures 10 <= r <= 100
    ensures 10 <= limit <= 100 ==> r == limit
    ensures limit < 10 ==> r == 10
    ensures limit > 100 ==> r == 100
  {
    Min(Max(limit as real, 10.0), 100.0).Floor
  }

  /** `Number(t.token_decimals ?? t.decimals ?? 18)`; a result that is not a number is NaN. */
  function MoralisDecimals(t: MoralisTransfer): RawValue {
    match NumberOfValue(t.tokenDecimals.GetOr(t.decimals.GetOr(Num(18.0))))
    case Some(n) => Num(n)
    case None => Str("NaN")
  }

  lemma NaNIsNotANumber()
    ensures NumberOfValue(Str("NaN")) == None
  {
    NotANumberStart("NaN");
  }

  /** The ERC-20 entry as the parser reads it. */
  function MoralisTransferItem(t: MoralisTransfer): (e: Erc20Transfer)
    ensures e.fromAddress == t.fromAddress && e.toAddress == t.toAddress && e.value == t.value
    ensures e.tokenSymbol == Or(t.tokenSymbol, t.symbol)
  {
    Erc20Transfer(t.fromAddress, t.toAddress, Or(t.tokenSymbol, t.symbol), Some(MoralisDecimals(t)), t.value)
  }

  /** The parser reads the decimals of a mapped entry as it would read the Moralis field itself. */
  lemma MoralisDecimalsParsed(t: MoralisTransfer)
    ensures var raw := NumberOfValue(t.tokenDecimals.GetOr(t.decimals.GetOr(Num(18.0))));
      Parse.Decimals(MoralisTransferItem(t)) == (if raw.None? || raw == Some(0.0) then 18 else raw.value.Floor)
  {
    NaNIsNotANumber();
  }

  /** One Moralis item in the shape of a Covalent item. */
  function MoralisRawItem(it: MoralisItem): (r: RawItem)
    ensures r.txHash == Or(it.hash, Or(it.transactionHash, it.txHash))
    ensures r.blockSignedAt == Or(it.blockTimestamp, it.blockSignedAt)
    ensures r.fromAddress == it.fromAddress && r.toAddress == it.toAddress && r.value == it.value
    ensures IsNumber(it.valueUsd) ==> r.valueQuote == it.valueUsd
    ensures !IsNumber(it.valueUsd) && IsNumber(it.valueQuote) ==> r.valueQuote == it.valueQuote
    ensures !IsNumber(it.valueUsd) && !IsNumber(it.valueQuote) ==> r.valueQuote == None
    ensures r.gasQuoteRate == None && r.quoteRate == None
    ensures r.erc20Transfers.Some? <==> it.erc20Transfers.Some?
    ensures r.erc20Transfers.Some? ==>
      && |r.erc20Transfers.value| == |it.erc20Transfers.value|
      && forall i :: 0 <= i < |r.erc20Transfers.value| ==>
        r.erc20Transfers.value[i] == MoralisTransferItem(it.erc20Transfers.value[i])
  {
    var transfers := match it.erc20Transfers
      case Some(ts) => (Seqs.MapAt(MoralisTransferItem, ts); Some(Seqs.Map(MoralisTransferItem, ts)))
      case None => None;
    RawItem(
      txHash := Or(Or(it.hash, it.transactionHash), it.txHash),
      blockSignedAt := Or(it.blockTimestamp, it.blockSignedAt),
      fromAddress := it.fromAddress,
      toAddress := it.toAddress,
      value := it.value,
      valueQuote := if IsNumber(it.valueUsd) then it.valueUsd else if IsNumber(it.valueQuote) then it.valueQuote else None,
      gasQuoteRate := None,
      quoteRate := None,
      erc20Transfers := transfers)
  }

  /** `json.result || json.data || []`. */
  function MoralisItems(j: MoralisJson): seq<MoralisItem> {
    if j.result.Some? then j.result.value else if j.data.Some? then j.data.value else []
  }

  /** `json.cursor || json.next || undefined`. */
  function NextCursor(j: MoralisJson): (c: Option<string>)
    ensures c.None? || Declared(c)
    ensures Declared(j.cursor) ==> c == j.cursor
    ensures !Declared(j.cursor) && !Declared(j.next) ==> c.None?
  {
    match Or(j.cursor, j.next)
    case Some(c) => if c != "" then Some(c) else None
    case None => None
  }

  function MoralisRequestOf(chainId: int, address: string, limit: int, cursor: Option<string>, key: string): MoralisRequest {
    MoralisRequest(MoralisChainParam(chainId), address, MoralisLimit(limit), if Declared(cursor) then cursor else None, key)
  }

  /** `fetchMoralisPage`. */
  function MoralisPage(moralis: MoralisRequest -> Reply<MoralisJson>, chainId: int, address: string, limit: int,
                       cursor: Option<string>, key: string): (r: Outcome<MoralisPageResult>)
    ensures var reply := moralis(MoralisRequestOf(chainId, address, limit, cursor, key));
      && (r.Ok? <==> IsOk(reply.status) && reply.body.Json?)
      && (r.Ok? ==> r.value.items == Seqs.Map(MoralisRawItem, MoralisItems(reply.body.json)))
      && (r.Ok? ==> r.value.nextCursor == NextCursor(reply.body.json))
      && (!IsOk(reply.status) ==> r.Failed? && StartsWith(r.message, "Moralis Fehler " + IntToString(reply.status)))
  {
    var reply := moralis(MoralisRequestOf(chainId, address, limit, cursor, key));
    if !IsOk(reply.status) then
      var msg := "Moralis Fehler " + IntToString(reply.status);
      match reply.body
      case Json(j) => Failed(if Declared(j.message) then msg + ": " + j.message.value else msg)
      case NotJson(_) => Failed(msg)
    else
      match reply.body
      case NotJson(e) => Failed(e)
      case Json(j) => Ok(MoralisPageResult(Seqs.Map(MoralisRawItem, MoralisItems(j)), NextCursor(j)))
  }

  // ---------------------------------------------------------------- one page, either provider

  /** What `fetchTransactionsV3` returns: Covalent's `data`, or a Moralis page. */
  datatype V3Result = CovalentData(data: RawData) | MoralisData(page: MoralisPageResult)

  /**
   * `fetchTransactionsV3`: without a key, the missing-key error; otherwise the configured provider's
   * first page (Moralis: `pageSize` entries, 100 by default, no cursor) or that provider's error.
   */
  function FetchTransactionsV3(cfg: Config, covalent: CovalentRequest -> Reply<CovalentJson>,
                               moralis: MoralisRequest -> Reply<MoralisJson>, chainId: int, address: string,
                               params: PageParams): (r: Outcome<V3Result>)
    ensures !Declared(GetKey(cfg)) ==> r == Failed(MissingKey)
    ensures Declared(GetKey(cfg)) && cfg.provider == Covalent ==>
      match CovalentPage(covalent, chainId, address, params, GetKey(cfg).value)
      case Ok(d) => r == Ok(CovalentData(d))
      case Failed(m) => r == Failed(m)
    ensures Declared(GetKey(cfg)) && cfg.provider == Moralis ==>
      match MoralisPage(moralis, chainId, address, params.pageSize.GetOr(100), None, GetKey(cfg).value)
      case Ok(p) => r == Ok(MoralisData(p))
      case Failed(m) => r == Failed(m)
  {
    var key := GetKey(cfg);
    if !Declared(key) then Failed(MissingKey)
    else if cfg.provider == Moralis then
      match MoralisPage(moralis, chainId, address, params.pageSize.GetOr(100), None, key.value)
      case Ok(p) => Ok(MoralisData(p))
      case Failed(m) => Failed(m)
    else
      match CovalentPage(covalent, chainId, address, params, key.value)
      case Ok(d) => Ok(CovalentData(d))
      case Failed(m) => Failed(m)
  }

  /** `Array.isArray(data) ? data : data?.items ?? []` applied to what `fetchTransactionsV3` returned. */
  function V3Items(r: V3Result): seq<RawItem> {
    match r
    case CovalentData(d) => ItemsOf(d)
    case MoralisData(p) => p.items
  }

  // ---------------------------------------------------------------- the page loops

  /** `fetchTransactionsV3(chainId, address, { pageSize, pageNumber })` as a function of the page number. */
  function CovalentPageAt(cfg: Config, covalent: CovalentRequest -> Reply<CovalentJson>,
                          moralis: MoralisRequest -> Reply<MoralisJson>, chainId: int, address: string,
                          pageSize: int): int -> Outcome<V3Result>
  {
    (page: int) => FetchTransactionsV3(cfg, covalent, moralis, chainId, address, PageParams(Some(pageSize), Some(page)))
  }

  /** `fetchMoralisPage(chainId, address, pageSize, cursor, apiKey)` as a function of the cursor. */
  function MoralisPageAt(moralis: MoralisRequest -> Reply<MoralisJson>, chainId: int, address: string,
                         pageSize: int, key: string): Option<string> -> Outcome<MoralisPageResult>
  {
    (cursor: Option<string>) => MoralisPage(moralis, chainId, address, pageSize, cursor, key)
  }

  /** Numbered pages as pages of the loop: the items, and the next page number. */
  function NumberedPages(fetchPage: int -> Outcome<V3Result>): int -> Outcome<Page<int, RawItem>> {
    (page: int) =>
      match fetchPage(page)
      case Ok(data) => Ok(Page(V3Items(data), Some(page + 1)))
      case Failed(m) => Failed(m)
  }

  /** Cursor pages as pages of the loop: the items, and the returned cursor as the next key. */
  function CursorPages(fetchPage: Option<string> -> Outcome<MoralisPageResult>): Option<string> -> Outcome<Page<Option<string>, RawItem>> {
    (cursor: Option<string>) =>
      match fetchPage(cursor)
      case Ok(p) => Ok(Page(p.items, if Declared(p.nextCursor) then Some(p.nextCursor) else None))
      case Failed(m) => Failed(m)
  }

  /** `page < maxPages` holds for `Budget(maxPages)` page numbers. */
  function Budget(maxPages: int): nat {
    if maxPages > 0 then maxPages else 0
  }

  /** `fetchTransactionsV3AllPages`. */
  function AllPages(cfg: Config, covalent: CovalentRequest -> Reply<CovalentJson>,
                    moralis: MoralisRequest -> Reply<MoralisJson>, chainId: int, address: string,
                    pageSize: int, maxPages: int): Outcome<seq<RawItem>>
  {
    if cfg.provider == Moralis then
      var key := GetKey(cfg);
      if !Declared(key) then Failed(MissingKeyShort)
      else Pages(CursorPages(MoralisPageAt(moralis, chainId, address, pageSize, key.value)), None, Budget(maxPages), pageSize)
    else Pages(NumberedPages(CovalentPageAt(cfg, covalent, moralis, chainId, address, pageSize)), 0, Budget(maxPages), pageSize)
  }

  /** The Moralis loop of `fetchTransactionsV3AllPages`, the key already found. */
  method MoralisAllPages(fetchPage: Option<string> -> Outcome<MoralisPageResult>, pageSize: int, maxPages: int)
    returns (r: Outcome<seq<RawItem>>)
    ensures r == Pages(CursorPages(fetchPage), None, Budget(maxPages), pageSize)
  {
    ghost var f := CursorPages(fetchPage);
    ghost var spec := Pages(f, None, Budget(maxPages), pageSize);
    var all: seq<RawItem> := [];
    var cursor: Option<string> := None;
    PrependNothing(spec);
    for page := 0 to Budget(maxPages)
      invariant Prepend(all, Pages(f, cursor, Budget(maxPages) - page, pageSize)) == spec
    {
      var res := fetchPage(cursor);
      PagesStep(f, cursor, Budget(maxPages) - page, pageSize);
      if res.Failed? {
        return Failed(res.message);
      }
      var items, nextCursor := res.value.items, res.value.nextCursor;
      PrependPrepend(all, items, Pages(f, nextCursor, Budget(maxPages) - page - 1, pageSize));
      all := all + items;
      if !Declared(nextCursor) || |items| < pageSize {
        return Ok(all);
      }
      cursor := nextCursor;
    }
    assert all + [] == all;
    return Ok(all);
  }

  /** The Covalent loop of `fetchTransactionsV3AllPages`. */
  method CovalentAllPages(fetchPage: int -> Outcome<V3Result>, pageSize: int, maxPages: int)
    returns (r: Outcome<seq<RawItem>>)
    ensures r == Pages(NumberedPages(fetchPage), 0, Budget(maxPages), pageSize)
  {
    ghost var f := NumberedPages(fetchPage);
    ghost var spec := Pages(f, 0, Budget(maxPages), pageSize);
    var pages: seq<RawItem> := [];
    PrependNothing(spec);
    for page := 0 to Budget(maxPages)
      invariant Prepend(pages, Pages(f, page, Budget(maxPages) - page, pageSize)) == spec
    {
      var data := fetchPage(page);
      PagesStep(f, page, Budget(maxPages) - page, pageSize);
      if data.Failed? {
        return Failed(data.message);
      }
      var items := V3Items(data.value);
      PrependPrepend(pages, items, Pages(f, page + 1, Budget(maxPages) - page - 1, pageSize));
      pages := pages + items;
      if |items| < pageSize {
        return Ok(pages);
      }
    }
    assert pages + [] == pages;
    return Ok(pages);
  }

  /** `fetchTransactionsV3AllPages`. */
  method FetchAllPages(cfg: Config, covalent: CovalentRequest -> Reply<CovalentJson>,
                       moralis: MoralisRequest -> Reply<MoralisJson>, chainId: int, address: string,
                       pageSize: int, maxPages: int)
    returns (r: Outcome<seq<RawItem>>)
    ensures r == AllPages(cfg, covalent, moralis, chainId, address, pageSize, maxPages)
  {
    if cfg.provider == Moralis {
      var apiKey := GetKey(cfg);
      if !Declared(apiKey) {
        return Failed(MissingKeyShort);
      }
      r := MoralisAllPages(MoralisPageAt(moralis, chainId, address, pageSize, apiKey.value), pageSize, maxPages);
    } else {
      r := CovalentAllPages(CovalentPageAt(cfg, covalent, moralis, chainId, address, pageSize), pageSize, maxPages);
    }
  }

  /**
   * Without a key no request is made: the outcome is the same whatever the replies would be. Moralis
   * fails at once; Covalent fails on its first page, and succeeds with nothing when it asks for none.
   */
  lemma MissingKeyFails(cfg: Config, covalent: CovalentRequest -> Reply<CovalentJson>,
                        moralis: MoralisRequest -> Reply<MoralisJson>,
                        covalent2: CovalentRequest -> Reply<CovalentJson>,
                        moralis2: MoralisRequest -> Reply<MoralisJson>,
                        chainId: int, address: string, pageSize: int, maxPages: int)
    requires !Declared(GetKey(cfg))
    ensures AllPages(cfg, covalent, moralis, chainId, address, pageSize, maxPages)
         == AllPages(cfg, covalent2, moralis2, chainId, address, pageSize, maxPages)
    ensures cfg.provider == Moralis ==>
      AllPages(cfg, covalent, moralis, chainId, address, pageSize, maxPages) == Failed(MissingKeyShort)
    ensures cfg.provider == Covalent && maxPages > 0 ==>
      AllPages(cfg, covalent, moralis, chainId, address, pageSize, maxPages) == Failed(MissingKey)
    ensures cfg.provider == Covalent && maxPages <= 0 ==>
      AllPages(cfg, covalent, moralis, chainId, address, pageSize, maxPages) == Ok([])
  {
    var f := NumberedPages(CovalentPageAt(cfg, covalent, moralis, chainId, address, pageSize));
    var f2 := NumberedPages(CovalentPageAt(cfg, covalent2, moralis2, chainId, address, pageSize));
    assert f(0) == f2(0) == Failed(MissingKey);
  }

  function CovalentRequests(cfg: Config, covalent: CovalentRequest -> Reply<CovalentJson>,
                            moralis: MoralisRequest -> Reply<MoralisJson>, chainId: int, address: string,
                            pageSize: int, maxPages: int): seq<int>
  {
    Requests(NumberedPages(CovalentPageAt(cfg, covalent, moralis, chainId, address, pageSize)), 0, Budget(maxPages), pageSize)
  }

  /** Covalent asks for pages 0, 1, 2, ... in order, at most `maxPages` of them. */
  lemma CovalentPageNumbers(cfg: Config, covalent: CovalentRequest -> Reply<CovalentJson>,
                            moralis: MoralisRequest -> Reply<MoralisJson>, chainId: int, address: string,
                            pageSize: int, maxPages: int)
    ensures |CovalentRequests(cfg, covalent, moralis, chainId, address, pageSize, maxPages)| <= Budget(maxPages)
    ensures forall i :: 0 <= i < |CovalentRequests(cfg, covalent, moralis, chainId, address, pageSize, maxPages)| ==>
      CovalentRequests(cfg, covalent, moralis, chainId, address, pageSize, maxPages)[i] == i
  {
    var f := NumberedPages(CovalentPageAt(cfg, covalent, moralis, chainId, address, pageSize));
    var ks := CovalentRequests(cfg, covalent, moralis, chainId, address, pageSize, maxPages);
    RequestsChain(f, 0, Budget(maxPages), pageSize);
    forall i | 0 <= i < |ks| - 1
      ensures ks[i + 1] == ks[i] + 1
    {
      assert f(ks[i]).value.next == Some(ks[i + 1]);
    }
    Consecutive(ks, |ks|);
  }

  lemma {:induction false} Consecutive(ks: seq<int>, n: nat)
    requires n <= |ks|
    requires |ks| > 0 ==> ks[0] == 0
    requires forall i :: 0 <= i < |ks| - 1 ==> ks[i + 1] == ks[i] + 1
    ensures forall i :: 0 <= i < n ==> ks[i] == i
  {
    if n > 1 {
      Consecutive(ks, n - 1);
      assert ks[n - 1] == ks[n - 2] + 1;
    }
  }

  function MoralisRequests(moralis: MoralisRequest -> Reply<MoralisJson>, chainId: int, address: string,
                           pageSize: int, maxPages: int, key: string): seq<Option<string>>
  {
    Requests(CursorPages(MoralisPageAt(moralis, chainId, address, pageSize, key)), None, Budget(maxPages), pageSize)
  }

  /**
   * Moralis asks first without a cursor, then each time with the non-empty cursor of the page before,
   * which was full; at most `maxPages` requests.
   */
  lemma MoralisCursors(moralis: MoralisRequest -> Reply<MoralisJson>, chainId: int, address: string,
                       pageSize: int, maxPages: int, key: string)
    ensures |MoralisRequests(moralis, chainId, address, pageSize, maxPages, key)| <= Budget(maxPages)
    ensures maxPages > 0 ==> MoralisRequests(moralis, chainId, address, pageSize, maxPages, key)[0] == None
    ensures forall i :: 0 <= i < |MoralisRequests(moralis, chainId, address, pageSize, maxPages, key)| - 1 ==>
      var ks := MoralisRequests(moralis, chainId, address, pageSize, maxPages, key);
      var page := MoralisPage(moralis, chainId, address, pageSize, ks[i], key);
      page.Ok? && |page.value.items| >= pageSize && Declared(ks[i + 1]) && ks[i + 1] == page.value.nextCursor
  {
    var f := CursorPages(MoralisPageAt(moralis, chainId, address, pageSize, key));
    var ks := MoralisRequests(moralis, chainId, address, pageSize, maxPages, key);
    RequestsChain(f, None, Budget(maxPages), pageSize);
    forall i | 0 <= i < |ks| - 1
      ensures var page := MoralisPage(moralis, chainId, address, pageSize, ks[i], key);
        page.Ok? && |page.value.items| >= pageSize && Declared(ks[i + 1]) && ks[i + 1] == page.value.nextCursor
    {
      assert f(ks[i]).Ok? && Continues(f(ks[i]).value, pageSize) && f(ks[i]).value.next == Some(ks[i + 1]);
    }
  }

  // ---------------------------------------------------------------- all chains

  /** `\d+` from position `i`: the length of the run of decimal digits there. */
  function DigitRun(m: string, i: nat): (n: nat)
    requires i <= |m|
    ensures i + n <= |m|
    ensures forall j :: i <= j < i + n ==> IsDigit(m[j])
    ensures i + n == |m| || !IsDigit(m[i + n])
    decreases |m| - i
  {
    if i < |m| && IsDigit(m[i]) then 1 + DigitRun(m, i + 1) else 0
  }

  /** `\s*` from position `i`. */
  function SpaceRun(m: string, i: nat): (n: nat)
    requires i <= |m|
    ensures i + n <= |m|
    ensures forall j :: i <= j < i + n ==> IsSpace(m[j])
    ensures i + n == |m| || !IsSpace(m[i + n])
    decreases |m| - i
  {
    if i < |m| && IsSpace(m[i]) then 1 + SpaceRun(m, i + 1) else 0
  }

  /** `chainId`, in any letter case, at position `i`. */
  predicate KeywordAt(m: string, i: nat) {
    i + 7 <= |m| && Lower(m[i..i + 7]) == "chainid"
  }

  /** `\s*(\d+)` from position `i`: the captured digits, when there is at least one. */
  function CapturedDigits(m: string, i: nat): (r: Option<string>)
    requires i <= |m|
    ensures r.Some? ==> r.value != [] && AllDigits(r.value)
  {
    var k := i + SpaceRun(m, i);
    var n := DigitRun(m, k);
    if n > 0 then Some(m[k..k + n]) else None
  }

  /** `\s*[:=]\s*(\d+)` from position `i`. */
  function AfterKeyword(m: string, i: nat): (r: Option<string>)
    requires i <= |m|
    ensures r.Some? ==> r.value != [] && AllDigits(r.value)
  {
    var j := i + SpaceRun(m, i);
    if j < |m| && (m[j] == ':' || m[j] == '=') then CapturedDigits(m, j + 1) else None
  }

  /**
   * `/chainId\s*[:=]\s*(\d+)/i` tried at position `i`: the captured digits when it matches there.
   * Neither `\s*` can give back a character to what follows it, and `\d+` takes every digit.
   */
  function ChainIdAt(m: string, i: nat): (r: Option<string>)
    requires i <= |m|
    ensures r.Some? ==> r.value != [] && AllDigits(r.value)
  {
    if KeywordAt(m, i) then AfterKeyword(m, i + 7) else None
  }

  /** The leftmost position from `i` where the pattern matches, or `|m|`. */
  function FirstMatch(m: string, i: nat): (j: nat)
    requires i <= |m|
    ensures i <= j <= |m|
    ensures j < |m| ==> ChainIdAt(m, j).Some?
    ensures forall l :: i <= l < j ==> ChainIdAt(m, l).None?
    decreases |m| - i
  {
    if i == |m| || ChainIdAt(m, i).Some? then i else FirstMatch(m, i + 1)
  }

  /** `match ? Number(match[1]) : -1`. */
  function RecoveredChainId(m: string): (id: int)
    ensures FirstMatch(m, 0) < |m| ==> id == DigitsValue(ChainIdAt(m, FirstMatch(m, 0)).value)
    ensures FirstMatch(m, 0) == |m| ==> id == -1
  {
    var j := FirstMatch(m, 0);
    if j < |m| then DigitsValue(ChainIdAt(m, j).value) else -1
  }

  /** A message naming a chain as `chainId:<n>` (any letter case, `:` or `=`) gives back `n`. */
  lemma RecoversChainId(w: string, sep: char, n: nat, rest: string)
    requires |w| == 7 && Lower(w) == "chainid"
    requires sep == ':' || sep == '='
    requires rest == [] || !IsDigit(rest[0])
    ensures RecoveredChainId(w + [sep] + NatToString(n) + rest) == n
  {
    var digits := NatToString(n);
    var m := w + [sep] + digits + rest;
    MessageLayout(w, sep, digits, rest);
    DigitsThen(w + [sep], digits, rest);
    MatchAtStart(m, digits);
    assert FirstMatch(m, 0) == 0;
    NatToStringValue(n);
  }

  /** The pattern matches at the start of `chainId:<digits>` and captures all the digits. */
  lemma MatchAtStart(m: string, digits: string)
    requires |m| >= 8 + |digits| && digits != [] && IsDigit(digits[0])
    requires KeywordAt(m, 0)
    requires m[7] == ':' || m[7] == '='
    requires m[8] == digits[0]
    requires DigitRun(m, 8) == |digits| && m[8..8 + |digits|] == digits
    ensures ChainIdAt(m, 0) == Some(digits)
  {
    assert SpaceRun(m, 8) == 0;
    assert CapturedDigits(m, 8) == Some(digits);
    assert SpaceRun(m, 7) == 0;
    assert AfterKeyword(m, 7) == Some(digits);
  }

  lemma MessageLayout(w: string, sep: char, digits: string, rest: string)
    requires |w| == 7 && digits != []
    ensures |w + [sep] + digits + rest| >= 8 + |digits|
    ensures (w + [sep] + digits + rest)[0..7] == w
    ensures Lower(w) == "chainid" ==> KeywordAt(w + [sep] + digits + rest, 0)
    ensures (w + [sep] + digits + rest)[7] == sep
    ensures (w + [sep] + digits + rest)[8] == digits[0]
  {
  }

  /** After a prefix `u`, `\d+` takes exactly the digits that follow it. */
  lemma DigitsThen(u: string, digits: string, rest: string)
    requires AllDigits(digits)
    requires rest == [] || !IsDigit(rest[0])
    ensures DigitRun(u + digits + rest, |u|) == |digits|
    ensures (u + digits + rest)[|u|..|u| + |digits|] == digits
  {
    var m := u + digits + rest;
    forall j | |u| <= j < |u| + |digits|
      ensures IsDigit(m[j])
    {
      assert m[j] == digits[j - |u|];
    }
    if |u| + |digits| < |m| {
      assert m[|u| + |digits|] == rest[0];
    }
    DigitRunAt(m, |u|, |digits|);
  }

  lemma DigitRunAt(m: string, i: nat, n: nat)
    requires i + n <= |m|
    requires forall j :: i <= j < i + n ==> IsDigit(m[j])
    requires i + n == |m| || !IsDigit(m[i + n])
    ensures DigitRun(m, i) == n
    decreases n
  {
    if n > 0 {
      DigitRunAt(m, i + 1, n - 1);
    }
  }

  /** `reason?.message || String(reason || 'unknown error')` for a thrown `Error`. */
  function ReasonText(message: string): string {
    if message != "" then message else "Error"
  }

  /** One settled fetch: its items under the requested id, or no items under the recovered id. */
  function SettledChain(id: int, outcome: Outcome<seq<RawItem>>): (c: ChainItems)
    ensures outcome.Ok? ==> c == ChainItems(id, outcome.value)
    ensures outcome.Failed? ==> c.items == [] && c.chainId == RecoveredChainId(ReasonText(outcome.message))
  {
    match outcome
    case Ok(items) => ChainItems(id, items)
    case Failed(message) => ChainItems(RecoveredChainId(ReasonText(message)), [])
  }

  /** `{ pageSize?, maxPages? }` of `fetchAllChainsTransactions`; concurrency is not modelled. */
  datatype FetchOptions = FetchOptions(pageSize: Option<int>, maxPages: Option<int>)

  /** The default page budget: `VITE_MORALIS_MAX_PAGES ?? 10` for Moralis, 3 for Covalent. */
  function DefaultMaxPages(cfg: Config): int {
    if cfg.provider == Moralis then cfg.moralisMaxPages.GetOr(10) else 3
  }

  /** `Promise.allSettled` over the chains: every chain's fetch, in the order of the ids. */
  method SettleAll(cfg: Config, covalent: CovalentRequest -> Reply<CovalentJson>,
                   moralis: MoralisRequest -> Reply<MoralisJson>, chainIds: seq<int>, address: string,
                   pageSize: int, maxPages: int)
    returns (settled: seq<Outcome<seq<RawItem>>>)
    ensures |settled| == |chainIds|
    ensures forall i :: 0 <= i < |chainIds| ==>
      settled[i] == AllPages(cfg, covalent, moralis, chainIds[i], address, pageSize, maxPages)
  {
    settled := [];
    for i := 0 to |chainIds|
      invariant |settled| == i
      invariant forall j :: 0 <= j < i ==>
        settled[j] == AllPages(cfg, covalent, moralis, chainIds[j], address, pageSize, maxPages)
    {
      var outcome := FetchAllPages(cfg, covalent, moralis, chainIds[i], address, pageSize, maxPages);
      settled := Settle(settled, outcome, AllPages(cfg, covalent, moralis, chainIds[i], address, pageSize, maxPages));
    }
  }

  /** One more settled fetch at the end. */
  function Settle<T>(settled: seq<T>, outcome: T, ghost expected: T): (r: seq<T>)
    requires outcome == expected
    ensures |r| == |settled| + 1 && r[|settled|] == expected
    ensures forall j :: 0 <= j < |settled| ==> r[j] == settled[j]
  {
    settled + [outcome]
  }

  /** The loop over the settled fetches: one result per chain, in order. */
  method CollectSettled(chainIds: seq<int>, settled: seq<Outcome<seq<RawItem>>>) returns (results: seq<ChainItems>)
    requires |settled| == |chainIds|
    ensures |results| == |chainIds|
    ensures forall i :: 0 <= i < |chainIds| ==> results[i] == SettledChain(chainIds[i], settled[i])
    ensures forall i :: 0 <= i < |chainIds| ==> results[i].chainId == chainIds[i] || results[i].items == []
  {
    results := [];
    for i := 0 to |settled|
      invariant |results| == i
      invariant forall j :: 0 <= j < i ==> results[j] == SettledChain(chainIds[j], settled[j])
    {
      var s := settled[i];
      var item: ChainItems;
      if s.Ok? {
        item := ChainItems(chainIds[i], s.value);
      } else {
        var m := ReasonText(s.message);
        var chainId := RecoveredChainId(m);
        item := ChainItems(chainId, []);
      }
      assert item == SettledChain(chainIds[i], s);
      results := results + [item];
    }
  }

  /** `fetchAllChainsTransactions`: every chain is fetched, then each settled fetch gives one result. */
  method FetchAllChains(cfg: Config, covalent: CovalentRequest -> Reply<CovalentJson>,
                        moralis: MoralisRequest -> Reply<MoralisJson>, chainIds: seq<int>, address: string,
                        options: FetchOptions)
    returns (results: seq<ChainItems>)
    ensures |results| == |chainIds|
    ensures forall i :: 0 <= i < |chainIds| ==>
      results[i] == SettledChain(chainIds[i], AllPages(cfg, covalent, moralis, chainIds[i], address,
                                                       options.pageSize.GetOr(100),
                                                       options.maxPages.GetOr(DefaultMaxPages(cfg))))
    ensures forall i :: 0 <= i < |chainIds| ==> results[i].chainId == chainIds[i] || results[i].items == []
  {
    var pageSize := options.pageSize.GetOr(100);
    var maxPages := options.maxPages.GetOr(DefaultMaxPages(cfg));
    var settled := SettleAll(cfg, covalent, moralis, chainIds, address, pageSize, maxPages);
    results := CollectSettled(chainIds, settled);
  }
}
