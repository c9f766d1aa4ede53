# wallet-analyzer, modelled in Dafny

wallet-analyzer turns the transactions of an EVM wallet into a timeline of *activities* and draws
several views of it. This project models the in-memory part of that pipeline and proves what it
promises. The pipeline covers:

- **Fetch orchestration.** Paged fetching from Covalent or Moralis is modelled, with the HTTP layer
  as an oracle. This includes the per-chain settled aggregation, the chain-id recovery from error
  messages, the Moralis chain names and limit clamp, key precedence and error messages.
- **Normalisation.** Provider records are normalised into activities and classified.
- **Etherscan CSV import.** The tolerant importer for Etherscan CSV exports.
- **Results page.** The merge by id, the dedup by transaction hash, the newest-first order, the
  filter predicate and the CSV-import merge.
- **Pass-through collapser.** It pairs a transfer into an address with a matching transfer out of it.
- **Filter-bar helpers.** Set toggles, locale-tolerant number parsing, the minimum-USD clamp and
  reset.
- **View aggregations.** TopFunders, FlowGraph, FlowBubbles (with its 72-hour de-duplication),
  RadialBubbleMap and PathSankey.
- **Address check.** The check on the home page.

One Dafny module stands for each source file. A few shared modules hold the JavaScript behaviour
those files rely on:

- `Text`: `toLowerCase`, `trim`, `split`, `startsWith`, `includes`.
- `JsNumber`: `Number()` on strings, and integer-to-decimal text.
- `Sorting`: the stable `Array.prototype.sort` with a descending comparator, and `slice`.
- `Grouping`: the `Map`-based group-by loops, with their insertion order.
- `Seqs`: `map`, `filter`, `flatMap` and `reduce`.

Each loop of the source is a `method` with a `while`/`for` loop. Its contract ties the result to a
specification function, and the source's promises are proved as lemmas about that function.
Everything else is a function with a named result.

Timestamps are integers in milliseconds. The conversion from ISO text is a parameter `toMillis`,
and the clock (`new Date()`) is a parameter `now`. Amounts are exact `real`s. String keys that the
source builds by concatenation are modelled as tuples.

Behaviour of the code worth noting:

- `from`/`to` keep their case when normalised (`src/utils/parse.ts:45-46`).
- The chain aggregate keeps input order, and a failed chain reports the chain id recovered from
  the message, or -1 (`src/api/covalentRequest.ts:144-156`). So a requested chain id need not
  appear in the output.
- The results page starts with `onlyUsdValued: false` (`src/pages/ResultsPage.tsx:28`), while the
  filter bar's reset sets it to `true`.

## Model

| member | source | states |
|---|---|---|
| Activities.NewestFirst | src/pages/ResultsPage.tsx:43 | the sort by timestamp, newest first, is a permutation whose timestamps do not increase |
| Activities.OldestFirst | src/utils/collapse.ts:13 | the ascending sort by time is a permutation whose timestamps do not decrease |
| Text.Lower | src/components/TopFunders.tsx:9 | lower-casing keeps the length and maps each character on its own |
| Text.LowerIdempotent | src/components/FlowGraph.tsx:27-28 | lower-casing twice is lower-casing once |
| Text.TrimEmptyIffBlank | src/components/FilterBar.tsx:40-41 | a trimmed text is empty exactly when every character is white space |
| Text.Split | src/utils/parseEtherscanCsv.ts:7 | splitting gives at least one piece and no piece holds the separator |
| Text.SplitJoin | src/utils/parseEtherscanCsv.ts:7 | joining the pieces of a split with the separator gives back the text |
| Text.ReplaceFirst | src/components/FilterBar.tsx:49 | only the first occurrence of the character is replaced, and nothing changes without one |
| Text.LastIndexOf | src/components/FilterBar.tsx:45-46 | the index of the last occurrence, or -1 exactly when the character is absent |
| Text.RemoveAll | src/components/FilterBar.tsx:49 | every occurrence of the character is removed |
| Text.RemoveAllKeepsOthers | src/components/FilterBar.tsx:49 | removing a character keeps every other character, in order |
| Text.FilterTrim | src/components/FilterBar.tsx:40-42 | removing characters outside a class gives the same result before or after trimming |
| JsNumber.DigitsNumber | src/components/FilterBar.tsx:53 | `Number` of a string of digits is its decimal value |
| JsNumber.DecimalNumber | src/components/FilterBar.tsx:53 | `Number` of `w.f` with digit strings `w`, `f` is `wf / 10^len(f)` |
| JsNumber.NatToStringValue | src/utils/parse.ts:41 | reading the decimal text of a number gives back the number |
| JsNumber.IntToStringInjective | src/utils/parse.ts:41 | different chain ids have different decimal texts |
| Sorting.SortDesc | src/components/TopFunders.tsx:20 | `sort` with a descending comparator is a permutation of its input |
| Sorting.SortDescSorted | src/components/TopFunders.tsx:20 | the sorted list is ordered by the key, first component then second, descending |
| Sorting.SortDescStable | src/components/FlowGraph.tsx:42-43 | elements with equal keys keep their relative order (a stable sort) |
| Sorting.SortDescHas | src/components/FlowGraph.tsx:42-43 | sorting neither adds nor loses an element |
| Sorting.Slice | src/components/TopFunders.tsx:21 | `slice(0, n)` is a prefix of length `min(n, len)` for `n >= 0` |
| Sorting.TopOf | src/components/TopFunders.tsx:20-21 | the cut sorted list is ordered, at most `n` long, and made of input elements without repeating one |
| Sorting.TopChosen | src/components/TopFunders.tsx:20-21 | the cut sorted list holds exactly `min(n, length)` elements, is a sub-multiset of the input, and no element left out outranks one kept |
| Grouping.Keys | src/utils/collapse.ts:15-22 | the map's keys in first-seen order: distinct, each from a kept element, and every kept element's key present |
| Grouping.GroupSum | src/components/TopFunders.tsx:10-18 | the `get`-or-new, add, `set` loop leaves one entry per key with its sum and count |
| Grouping.GroupEntries | src/components/TopFunders.tsx:19 | `Array.from(map)` lists the groups in insertion order |
| Grouping.GroupAt | src/components/TopFunders.tsx:13-17 | each entry sums and counts exactly the kept elements with its key |
| Grouping.GroupsDistinct | src/components/TopFunders.tsx:17 | no key has two entries |
| Grouping.GroupsCover | src/components/TopFunders.tsx:10-17 | every kept element's key has an entry |
| Grouping.GroupsTotals | src/components/TopFunders.tsx:10-19 | the entry sums add up to the kept total and the counts to the number of kept elements |
| Grouping.GroupList | src/utils/collapse.ts:15-33 | the push loop maps each key to its elements in input order |
| Grouping.MembersAscending | src/utils/collapse.ts:13-21 | the lists built from the time-sorted items ascend in time |
| Grouping.SumOfNonneg | src/components/FlowBubbles.tsx:53-54 | a group of non-negative values has a non-negative sum |
| Classify.ClassifyTransaction | src/utils/classify.ts:5-10 | `transfer` exactly when both addresses are non-empty and a value is present, else `unknown` |
| Classify.ZeroValueIsTransfer | src/utils/classify.ts:7 | a value of 0 or "0" still counts as present |
| Classify.EmptyAddressIsUnknown | src/utils/classify.ts:6 | an empty address gives `unknown` |
| Classify.ClassifyReadsThreeFields | src/utils/classify.ts:5-10 | items agreeing on the two addresses and the value are classified alike |
| CovalentTypes.ItemsOf | src/utils/parse.ts:6-8 | an array is used as is, an object gives its `items` or nothing |
| Parse.FirstSameEnds | src/utils/parse.ts:18 | the first transfer whose addresses equal the item's, ignoring case |
| Parse.ChosenTransfer | src/utils/parse.ts:18 | the first matching ERC-20 transfer, or the first entry when none matches |
| Parse.Decimals | src/utils/parse.ts:19 | decimals default to 18, and 0 or a non-number also become 18 |
| Parse.DecimalsOfNumber | src/utils/parse.ts:19 | any other number of decimals gives its integer part |
| Parse.RawAmount | src/utils/parse.ts:20 | a missing value reads as 0, and a number reads as itself |
| Parse.RawAmountDigits | src/utils/parse.ts:20 | a digit string reads as its value, the same as that number given directly |
| Parse.NormalizeIdentity | src/utils/parse.ts:40-50 | hash defaults to "unknown", id is `chainId:txHash`, time falls back to `now`, addresses keep their case, type comes from the classifier |
| Parse.NormalizeErc20 | src/utils/parse.ts:17-23 | with ERC-20 transfers: symbol or "TOKEN", amount = raw / 10^decimals, absent when the raw value is not a number |
| Parse.NormalizeNative | src/utils/parse.ts:24-29 | without them: value / 10^18 with token "NATIVE", else both absent |
| Parse.NormalizeUsd | src/utils/parse.ts:31-38 | `value_quote` first, else amount × rate (gas rate preferred), else absent |
| Parse.ParseTransactionsV3 | src/utils/parse.ts:5-54 | the loop gives the normalisation of each item, in order |
| Parse.ParseAllPointwise | src/utils/parse.ts:11-51 | exactly one activity per item, at the same position |
| Parse.ParseAllChain | src/utils/parse.ts:42 | every activity carries the requested chain id |
| Parse.ActivityIdInjective | src/utils/parse.ts:41 | equal ids mean equal chain ids and equal hashes |
| Csv.DropCR | src/utils/parseEtherscanCsv.ts:5 | at most one trailing carriage return is removed |
| Csv.SplitLinesRaw | src/utils/parseEtherscanCsv.ts:5 | splitting on `\r?\n` gives one line per `\n`-piece: each piece before the last loses one trailing `\r`, the last is unchanged, and no line holds a line feed |
| Csv.SplitLinesUnix | src/utils/parseEtherscanCsv.ts:5 | without carriage returns the lines are the non-empty pieces between line feeds |
| Csv.StripQuotes | src/utils/parseEtherscanCsv.ts:75 | at most one leading and one trailing quote are removed |
| Csv.StripTrailingQuote | src/utils/parseEtherscanCsv.ts:75 | a final quote is removed and nothing else |
| Csv.ColumnIndex | src/utils/parseEtherscanCsv.ts:8 | the first header starting with the key (both lower-cased), or -1 exactly when there is none |
| Csv.SplitCsvLine | src/utils/parseEtherscanCsv.ts:55-73 | the character loop yields the fields of the line |
| Csv.ScanFacts | src/utils/parseEtherscanCsv.ts:60-71 | the loop's quote flag is the parity of quotes seen, one field is closed per unquoted comma, and no field holds a quote |
| Csv.CsvFieldsFacts | src/utils/parseEtherscanCsv.ts:55-73 | field count = unquoted commas + 1, and the fields joined by `,` are the line without its quotes |
| Csv.QuoteFreeRoundTrip | src/utils/parseEtherscanCsv.ts:55-73 | a quote-free line re-joined with `,` is the original |
| Csv.ToNumberNoDigits | src/utils/parseEtherscanCsv.ts:76 | text without digits, `.` or `-` reads as 0 |
| Csv.ToNumberDigits | src/utils/parseEtherscanCsv.ts:76 | a digit string reads as its value |
| Csv.ToNumberDecimal | src/utils/parseEtherscanCsv.ts:76 | digits around a point read as the decimal fraction they write |
| Csv.ToNumberIgnoresNoise | src/utils/parseEtherscanCsv.ts:76 | characters other than digits, `.` and `-` do not change the value, wherever they stand |
| Csv.MethodType | src/utils/parseEtherscanCsv.ts:29-36 | keyword rules in order, first match wins, otherwise `unknown`; never `bridge` |
| Csv.ParseEtherscanCsv | src/utils/parseEtherscanCsv.ts:4-53 | the importer returns the specified activities |
| Csv.ImportRows | src/utils/parseEtherscanCsv.ts:18-51 | the row loop yields the activities of the data lines in order |
| Csv.ImportRow | src/utils/parseEtherscanCsv.ts:19-50 | one row gives one activity or none |
| Csv.NoDataLines | src/utils/parseEtherscanCsv.ts:6 | one line or fewer gives no activity |
| Csv.RowOutCases | src/utils/parseEtherscanCsv.ts:20-22 | a row is skipped exactly when it has fewer than 5 fields or an empty hash |
| Csv.CollectRowsIsFilterMap | src/utils/parseEtherscanCsv.ts:18-51 | the result is the accepted rows' activities in row order |
| Csv.CollectRowsShape | src/utils/parseEtherscanCsv.ts:39-50 | every activity has id `csv:chainId:hash`, a non-empty hash, a USD value and no token or amount |
| Csv.CollectRowsLength | src/utils/parseEtherscanCsv.ts:18-51 | at most one activity per data line |
| Collapse.WindowMs | src/utils/collapse.ts:9 | the window is at least one minute, one hour by default |
| Collapse.Tolerance | src/utils/collapse.ts:10 | the tolerance is never negative, 0.01 by default |
| Collapse.FirstCandidate | src/utils/collapse.ts:46-64 | the first outbound leg that is not consumed and fits, or none |
| Collapse.FirstCandidateIs | src/utils/collapse.ts:46-63 | a fitting unconsumed leg with none before it is the first candidate |
| Collapse.ScanOuts | src/utils/collapse.ts:43-64 | the scan from the forward-only index `j`, with its `break` past the window, finds exactly the first candidate |
| Collapse.Merge | src/utils/collapse.ts:66-81 | the synthetic record's id, chain, endpoints, time, hash, token and meta; its amount and USD never exceed either leg's |
| Collapse.CollapseGroup | src/utils/collapse.ts:38-83 | the inbound loop of one middle address pairs as the pairing rule says |
| Collapse.KeepUnconsumed | src/utils/collapse.ts:87 | the originals whose ids were not consumed are appended in input order |
| Collapse.PairGroups | src/utils/collapse.ts:36-84 | the loop over middle addresses, in first-seen order |
| Collapse.CollapsePassThrough | src/utils/collapse.ts:8-90 | the whole collapser returns the specified list |
| Collapse.StepInPairs | src/utils/collapse.ts:40-82 | an unconsumed inbound leg pairs with the earliest unconsumed fitting outbound leg of its middle, else nothing changes |
| Collapse.StepInAccounted | src/utils/collapse.ts:65-66 | one pairing step keeps consumed ids equal to the legs of built records |
| Collapse.StepInsAccounted | src/utils/collapse.ts:39-83 | so does one middle address's loop |
| Collapse.StepGroupsAccounted | src/utils/collapse.ts:36-84 | so does the loop over all middle addresses |
| Collapse.PairedAccounted | src/utils/collapse.ts:11-66 | after pairing, the consumed ids are exactly the legs of the built records, and no two built records share a leg id |
| Collapse.PairedFromTransfers | src/utils/collapse.ts:15-33 | every consumed id, and so every leg id of a built record, is the id of a transfer of the input |
| Collapse.PassesThrough | src/utils/collapse.ts:87 | a record whose id is no transfer's id occurs in the result as often as in the input |
| Collapse.NonTransferKept | src/utils/collapse.ts:15-16 | with distinct ids, every non-transfer record is in the result unchanged |
| Collapse.ResultParts | src/utils/collapse.ts:86-89 | result = built records + unconsumed originals, newest first; no original survives beside a record built from it |
| Collapse.LegIdsOf | src/utils/collapse.ts:66 | both legs of every built record are consumed |
| Collapse.PairedFits | src/utils/collapse.ts:36-66 | every built record merges an inbound and an outbound leg of the input through the same middle address that fit each other (same chain, order and window, token, amount tolerance) |
| Collapse.NoCandidate | src/utils/collapse.ts:46-63 | without a fitting outbound leg the scan finds none |
| Collapse.NoTransfersUnchanged | src/utils/collapse.ts:36-89 | when no inbound leg fits an outbound leg through its middle address, nothing is paired (no consumed id, no built record) and the result is the input, newest first |
| Collapse.EmptyCollapse | src/utils/collapse.ts:87-89 | the empty list collapses to the empty list |
| Collapse.EqualAmountsClose | src/utils/collapse.ts:58 | equal non-negative amounts always match |
| Collapse.CloseSymmetric | src/utils/collapse.ts:58 | the amount test does not depend on the order of the legs |
| Collapse.SelfTransferPairsWithItself | src/utils/collapse.ts:40-63 | a self-transfer is both legs of its address and, while unconsumed, a candidate partner of itself |
| ActivityMaps.Put | src/pages/ResultsPage.tsx:60 | `Map.set`: a new key goes last, a present key keeps its place, and the entry is replaced |
| ActivityMaps.ValuesOf | src/pages/ResultsPage.tsx:62 | the entries listed in key order |
| ActivityMaps.Values | src/pages/ResultsPage.tsx:62 | `Array.from(map.values())` lists one entry per key, in insertion order |
| Results.ChainActivitiesCount | src/pages/ResultsPage.tsx:42 | the flattened list has one activity per fetched item |
| Results.ChainActivitiesFacts | src/pages/ResultsPage.tsx:42 | each item is parsed with its own chain's id, and every activity comes from a requested chain |
| Results.ApiActivitiesFacts | src/pages/ResultsPage.tsx:42-43 | the same, sorted newest first |
| Results.IdsMembers | src/pages/ResultsPage.tsx:111 | an id is in the set exactly when some record has it |
| Results.PutAll | src/pages/ResultsPage.tsx:60 | the API loop keeps the map well-formed |
| Results.PutAbsent | src/pages/ResultsPage.tsx:61 | the CSV loop keeps the map well-formed |
| Results.ById | src/pages/ResultsPage.tsx:59-61 | the merged map is well-formed |
| Results.PutAllFacts | src/pages/ResultsPage.tsx:60 | one entry per API id, holding the LAST record with that id |
| Results.PutAbsentFacts | src/pages/ResultsPage.tsx:61 | existing entries are untouched, and a new id holds the FIRST CSV record with it |
| Results.ByIdFacts | src/pages/ResultsPage.tsx:59-61 | the union by id with API records winning, at most `api + csv` entries |
| Results.DedupByHash | src/pages/ResultsPage.tsx:63-75 | the hash loop keeps the map well-formed |
| Results.DedupKeys | src/pages/ResultsPage.tsx:65 | one entry per key (hash, or id when the hash is empty), no more entries than records |
| Results.DedupKept | src/pages/ResultsPage.tsx:70-73 | each entry is the earliest record of its key with the highest USD; absent counts as −∞ and ties keep the first |
| Results.DedupByHashFacts | src/pages/ResultsPage.tsx:63-75 | both of the above together |
| Results.DedupEntries | src/pages/ResultsPage.tsx:66-73 | each entry is a record of the list carrying its own key |
| Results.ByIdFromSources | src/pages/ResultsPage.tsx:59-62 | every by-id record comes from the API or the CSV list |
| Results.DeduplicatedDistinct | src/pages/ResultsPage.tsx:63-76 | merged records have pairwise distinct keys |
| Results.DeduplicatedRepresents | src/pages/ResultsPage.tsx:63-76 | every by-id record is represented by a merged one with its key and no lower USD |
| Results.DeduplicatedSize | src/pages/ResultsPage.tsx:57-76 | at most `api + csv` merged records |
| Results.DeduplicatedFromSources | src/pages/ResultsPage.tsx:57-76 | every merged record comes from one of the sources |
| Results.DeduplicatedFacts | src/pages/ResultsPage.tsx:57-76 | all four of the above together |
| Results.Merged | src/pages/ResultsPage.tsx:76-77 | newest first; without collapsing the deduplicated records newest first, otherwise the collapser's result on them with the page's options |
| Results.MergeWindow | src/pages/ResultsPage.tsx:77 | the page's options give a one-hour window and a 1% tolerance |
| Results.PutApi | src/pages/ResultsPage.tsx:60 | the API loop builds the specified map |
| Results.PutCsv | src/pages/ResultsPage.tsx:61 | the CSV loop builds the specified map |
| Results.PutByHash | src/pages/ResultsPage.tsx:63-75 | the hash loop builds the specified map |
| Results.MergeActivities | src/pages/ResultsPage.tsx:57-78 | the merge memo returns the specified list |
| Results.Keep | src/pages/ResultsPage.tsx:81-91 | kept exactly when chain and type are selected, USD is present if required, and USD ≥ minimum when one is set |
| Results.FilteredFacts | src/pages/ResultsPage.tsx:80-93 | exactly the passing records are kept, as often as they occur, still newest first |
| Results.InitialFilters | src/pages/ResultsPage.tsx:28 | the initial type filter admits every activity type; the initial filters keep exactly the activities on the default chains, and collapsing is on |
| Results.ClearedFilter | src/pages/ResultsPage.tsx:81-91 | after a reset the filter keeps exactly the records on the offered chains and types that have a USD value |
| Results.IdSet | src/pages/ResultsPage.tsx:111 | the id set of the earlier imports |
| Results.ImportCsv | src/pages/ResultsPage.tsx:110-115 | the import merge returns the specified list |
| Results.ImportCsvFile | src/pages/ResultsPage.tsx:109-115 | a file import parses with chain 1 and merges |
| Results.CsvImportFacts | src/pages/ResultsPage.tsx:110-114 | earlier imports are kept; an imported record is added, as often as it occurs, exactly when its id is not among the earlier imports; newest first |
| Paging.PagesStep | src/api/covalentRequest.ts:120-128 | one turn: a failure ends the loop, as does a last or short page; a full page is followed by the rest |
| Paging.Requests | src/api/covalentRequest.ts:120 | at most `maxPages` requests, the first with the starting key |
| Paging.RequestsChain | src/api/covalentRequest.ts:110-113 | every request but the last got a full page naming the next key, which the next request uses |
| Paging.RequestsStop | src/api/covalentRequest.ts:126 | stopping before the budget means a failure, a last page or a short page |
| Paging.PagesOutcome | src/api/covalentRequest.ts:119-129 | fails exactly when a request fails, with its message; otherwise the pages' items in request order |
| Fetch.GetKey | src/api/covalentRequest.ts:22-25 | the runtime key wins, and the provider picks the environment key |
| Fetch.Truthy | src/api/covalentRequest.ts:55-56 | an absent or zero page parameter stays out of the query |
| Fetch.CovalentErrorMessage | src/api/covalentRequest.ts:63-72 | 401/403 give the invalid-key text, else `Covalent Fehler <status>`, plus `: error_message` when present |
| Fetch.CovalentPage | src/api/covalentRequest.ts:52-76 | success exactly for a 2xx JSON body without `error`, and then its `data` |
| Fetch.NatToHex | src/api/covalentRequest.ts:200 | `toString(16)` of a natural gives hex digits |
| Fetch.HexRoundTrip | src/api/covalentRequest.ts:200 | reading the hex digits back gives the number |
| Fetch.IntToHex | src/api/covalentRequest.ts:200 | a negative id gives `-` and the digits of its magnitude |
| Fetch.HexSign | src/api/covalentRequest.ts:200 | the text starts with `-` exactly for a negative number |
| Fetch.NatToHexInjective | src/api/covalentRequest.ts:200 | different naturals have different hex texts |
| Fetch.IntToHexInjective | src/api/covalentRequest.ts:200 | different integers have different hex texts |
| Fetch.MoralisChainParam | src/api/covalentRequest.ts:192-202 | the six named chains, else `0x` and the hex digits |
| Fetch.ChainParamHead | src/api/covalentRequest.ts:192-202 | the parameter starts with `0` exactly for an unnamed chain |
| Fetch.MoralisChainParamInjective | src/api/covalentRequest.ts:192-202 | different chain ids give different chain parameters |
| Fetch.MoralisLimit | src/api/covalentRequest.ts:208 | the limit sent lies in [10, 100] and is the requested one inside that range |
| Fetch.NaNIsNotANumber | src/api/covalentRequest.ts:234 | unparsable decimals are carried as NaN, which reads as no number |
| Fetch.MoralisTransferItem | src/api/covalentRequest.ts:230-238 | transfer fields copied, symbol `token_symbol` or else `symbol` |
| Fetch.MoralisDecimalsParsed | src/api/covalentRequest.ts:234 | the decimals the normaliser then uses: the number given, 18 when absent, zero or NaN |
| Fetch.MoralisRawItem | src/api/covalentRequest.ts:222-239 | the Covalent-like item: hash and time fallbacks, `value_usd` before `value_quote`, transfers mapped one to one |
| Fetch.NextCursor | src/api/covalentRequest.ts:240 | `cursor`, else `next`, else none; never an empty cursor |
| Fetch.MoralisPage | src/api/covalentRequest.ts:204-242 | success exactly for a 2xx JSON body; items mapped, cursor found; failure message `Moralis Fehler <status>…` |
| Fetch.FetchTransactionsV3 | src/api/covalentRequest.ts:40-77 | a missing key fails before any request; Covalent gives its `data` or its error; Moralis gives the first page of `pageSize` (100 by default) entries without a cursor, or its error |
| Fetch.MoralisAllPages | src/api/covalentRequest.ts:104-117 | the cursor loop is the paging specification, starting without a cursor |
| Fetch.CovalentAllPages | src/api/covalentRequest.ts:119-129 | the numbered loop is the paging specification, starting at page 0 |
| Fetch.FetchAllPages | src/api/covalentRequest.ts:98-130 | both dialects' loops, by provider |
| Fetch.MissingKeyFails | src/api/covalentRequest.ts:104-106 | without a key no request is made (the result does not depend on the oracles) and the fetch fails |
| Fetch.CovalentPageNumbers | src/api/covalentRequest.ts:120-121 | Covalent asks for pages 0, 1, 2, … and at most `maxPages` of them |
| Fetch.MoralisCursors | src/api/covalentRequest.ts:108-116 | the first Moralis request has no cursor, each next one uses the cursor returned, at most `maxPages` |
| Fetch.DigitRun | src/api/covalentRequest.ts:151 | `\d+` is greedy: the longest run of digits |
| Fetch.SpaceRun | src/api/covalentRequest.ts:151 | `\s*` is greedy: the longest run of white space |
| Fetch.CapturedDigits | src/api/covalentRequest.ts:151 | the captured group is a non-empty digit string |
| Fetch.AfterKeyword | src/api/covalentRequest.ts:151 | after `chainId`, `\s*[:=]\s*(\d+)` captures digits |
| Fetch.ChainIdAt | src/api/covalentRequest.ts:151 | a match at one position captures digits |
| Fetch.FirstMatch | src/api/covalentRequest.ts:151 | `exec` finds the leftmost match |
| Fetch.RecoveredChainId | src/api/covalentRequest.ts:151-152 | the id from the leftmost match, else -1 |
| Fetch.RecoversChainId | src/api/covalentRequest.ts:151-152 | `chainId:N` or `chainId=N` (any case) at the start of a message gives N |
| Fetch.SettledChain | src/api/covalentRequest.ts:145-154 | a fulfilled chain keeps its items under its id; a failed one has no items and the recovered id |
| Fetch.SettleAll | src/api/covalentRequest.ts:141-143 | one settled outcome per chain id, in order |
| Fetch.CollectSettled | src/api/covalentRequest.ts:144-156 | one result per chain, in input order; a result has the requested id or no items |
| Fetch.FetchAllChains | src/api/covalentRequest.ts:132-157 | the same for the whole aggregate, with the default page size and page budget |
| FilterBar.Dedup | src/components/FilterBar.tsx:24 | `Array.from(new Set(xs))`: the same members, each once |
| FilterBar.DedupDistinct | src/components/FilterBar.tsx:22-24 | a list without repeats comes back unchanged |
| FilterBar.Without | src/components/FilterBar.tsx:23 | `delete` removes the element and nothing else |
| FilterBar.Toggled | src/components/FilterBar.tsx:22-24 | only the toggled element changes membership, and the list has no repeats |
| FilterBar.Toggle | src/components/FilterBar.tsx:22-24 | the set update returns the toggled list |
| FilterBar.ToggleChain | src/components/FilterBar.tsx:21-25 | only `chains` changes |
| FilterBar.ToggleType | src/components/FilterBar.tsx:27-31 | only `types` changes |
| FilterBar.ToggleTwice | src/components/FilterBar.tsx:21-31 | toggling twice restores the membership |
| FilterBar.ToggleDistinct | src/components/FilterBar.tsx:22-24 | on a list without repeats: removal keeps the order, and a new element goes last |
| FilterBar.Separators | src/components/FilterBar.tsx:43-52 | with both separators and `.` last, every `,` is removed; with `,` last, every `.` is removed and the first `,` becomes `.`; a lone `,` before 1–2 final digits has its first `,` made `.`, otherwise every `,` is removed; without `,` nothing changes |
| FilterBar.ParseUserNumber | src/components/FilterBar.tsx:39-55 | blank input gives null |
| FilterBar.BlankIsNull | src/components/FilterBar.tsx:40-41 | white-space-only input gives null |
| FilterBar.OnlyKeptCharactersCount | src/components/FilterBar.tsx:42 | only digits, `,`, `.` and `-` matter |
| FilterBar.ReadClean | src/components/FilterBar.tsx:42-54 | cleaned text is read by `Number` after the separator rules |
| FilterBar.DecimalCommaSeparators | src/components/FilterBar.tsx:51 | `a,b` with 1–2 digits `b` becomes `a.b` |
| FilterBar.DecimalComma | src/components/FilterBar.tsx:50-54 | "1,5" reads as 1.5 |
| FilterBar.ThousandsSeparators | src/components/FilterBar.tsx:51 | `a,bbb` becomes `abbb` |
| FilterBar.ThousandsComma | src/components/FilterBar.tsx:50-54 | "1,000" reads as 1000 |
| FilterBar.GroupedSeparators | src/components/FilterBar.tsx:44-49 | with both separators the earlier one is removed and the later one becomes `.` |
| FilterBar.GroupedDecimal | src/components/FilterBar.tsx:44-54 | "1.000,50" and "1,000.50" both read as 1000.5 |
| FilterBar.MinUsdOf | src/components/FilterBar.tsx:58-59 | null exactly for an unreadable draft, otherwise `max(0.01, n)`: the number itself from 0.01 up, exactly 0.01 below |
| FilterBar.ApplyMinUsd | src/components/FilterBar.tsx:57-61 | only `minUsd` changes, and it is null or ≥ 0.01 |
| FilterBar.Clear | src/components/FilterBar.tsx:63-66 | all chains, all types, no minimum, only-USD on, collapsing on |
| TopFunders.FunderList | src/components/TopFunders.tsx:7-22 | the memo returns the specified list |
| TopFunders.FunderAt | src/components/TopFunders.tsx:13-17 | each entry totals the inbound activities of its sender (absent USD as 0) and counts them all |
| TopFunders.FundersDistinct | src/components/TopFunders.tsx:15-17 | no sender has two entries |
| TopFunders.FundersCover | src/components/TopFunders.tsx:10-17 | every inbound sender has an entry |
| TopFunders.TopListChosen | src/components/TopFunders.tsx:20-21 | the list holds the `max` highest-ranked senders (all when fewer), and no sender left out is ahead of one listed |
| TopFunders.TopListFacts | src/components/TopFunders.tsx:7-24 | ordered by USD then count, at most `max`, no sender twice, sums exact; nothing renders exactly when nothing pays in |
| TopFunders.FunderTotals | src/components/TopFunders.tsx:10-19 | before the cut, counts add up to the inbound activities and sums to their USD |
| FlowGraph.Partition | src/components/FlowGraph.tsx:38-41 | the `forEach` yields the edges into the pivot, and the others out of it |
| FlowGraph.ComputeFlow | src/components/FlowGraph.tsx:22-46 | the memo returns the specified flow |
| FlowGraph.EdgeAt | src/components/FlowGraph.tsx:24-33 | each edge sums and counts exactly the non-zero-USD activities between its lower-cased endpoints |
| FlowGraph.EdgesDistinct | src/components/FlowGraph.tsx:30-33 | no endpoint pair has two edges |
| FlowGraph.EdgeTotals | src/components/FlowGraph.tsx:24-33 | edge sums and counts add up to the counted activities |
| FlowGraph.EdgeLower | src/components/FlowGraph.tsx:27-28 | edge endpoints are lower-case |
| FlowGraph.SideMembers | src/components/FlowGraph.tsx:38-41 | inbound = edges to the pivot; outbound = edges from it that are not to it; a self-loop is inbound only |
| FlowGraph.FlowSorted | src/components/FlowGraph.tsx:42-43 | both lists descend by sum |
| FlowGraph.TopSumBound | src/components/FlowGraph.tsx:44 | the head of a descending list bounds every element |
| FlowGraph.MaxSumBound | src/components/FlowGraph.tsx:44 | `maxSum` ≥ 1 and ≥ every listed sum |
| FlowGraph.NodeCounts | src/components/FlowGraph.tsx:62-63 | at most 20 nodes per side |
| FlowGraph.LeftNodeAt | src/components/FlowGraph.tsx:62 | left node k is inbound edge k's sender; clicking makes that lower-case address the pivot |
| FlowGraph.RightNodeAt | src/components/FlowGraph.tsx:63 | right node k is outbound edge k's recipient, likewise |
| FlowGraph.InitialPivot | src/components/FlowGraph.tsx:20 | the pivot starts, and is reset to, the lower-cased wallet |
| FlowBubbles.Deduplicate | src/components/FlowBubbles.tsx:13-31 | the de-duplication loop yields the specified kept list |
| FlowBubbles.SeenIsLastKept | src/components/FlowBubbles.tsx:25-30 | `seen` holds, per key, the time of the last KEPT activity |
| FlowBubbles.KeptFromInput | src/components/FlowBubbles.tsx:15-30 | kept activities form a sub-multiset of the input, each with positive USD and a direction |
| FlowBubbles.DropRule | src/components/FlowBubbles.tsx:25-30 | an activity is dropped exactly when ineligible or within 72 h of the last kept one with its key |
| FlowBubbles.KeptApart | src/components/FlowBubbles.tsx:25-30 | every kept activity is more than 72 h from the previous kept one with its key |
| FlowBubbles.Aggregate | src/components/FlowBubbles.tsx:32-48 | the loop fills both maps: inbound by raw sender, outbound by raw recipient, with sums and counts |
| FlowBubbles.Summarize | src/components/FlowBubbles.tsx:11-56 | the memo returns the specified summary |
| FlowBubbles.BubbleOf | src/components/FlowBubbles.tsx:38-46 | a bubble sums and counts exactly its address's kept activities |
| FlowBubbles.AddrsDistinct | src/components/FlowBubbles.tsx:49 | no address has two bubbles |
| FlowBubbles.SideChosen | src/components/FlowBubbles.tsx:49-52 | each side holds its 16 largest bubbles (all when fewer), none left out larger than one drawn |
| FlowBubbles.SideFacts | src/components/FlowBubbles.tsx:49-52 | each side descends by sum, has at most 16 distinct addresses, and its sums are exact |
| FlowBubbles.SideTotal | src/components/FlowBubbles.tsx:53-54 | a side's total is at most the side's USD, and equal to it when nothing was cut |
| FlowBubbles.CountSides | src/components/FlowBubbles.tsx:37-47 | every kept activity is counted on exactly one side |
| FlowBubbles.SummaryFacts | src/components/FlowBubbles.tsx:11-56 | the whole summary: bounds, exact sums, totals, sides partition the kept activities |
| Radial.ComputeNodes | src/components/RadialBubbleMap.tsx:14-32 | the memo returns the specified nodes and maximum |
| Radial.MaxUsdBounds | src/components/RadialBubbleMap.tsx:32 | `max` ≥ 1, bounds every node, and is 1 or some node's USD |
| Radial.NodeAt | src/components/RadialBubbleMap.tsx:16-30 | a node sums its group; in = pivot receives (so a self-loop is in), out = pivot only sends |
| Radial.NodesDistinct | src/components/RadialBubbleMap.tsx:22-28 | groups are distinct by (direction, chain, counterparty) |
| Radial.NodesChosen | src/components/RadialBubbleMap.tsx:31-32 | the drawn bubbles are the `topN` largest (all when fewer), none left out larger than one drawn |
| Radial.NodesFacts | src/components/RadialBubbleMap.tsx:31-32 | descending, at most `topN`, from the groups, distinct, max bounds all |
| Radial.NodePositive | src/components/RadialBubbleMap.tsx:17-18 | every group's USD is positive |
| Radial.SumPositive | src/components/RadialBubbleMap.tsx:24 | a group of positive values with a member has a positive sum |
| Sankey.FindParam | src/components/PathSankey.tsx:18-19 | `find`: a parameter with that name from the list, or none when no parameter has it |
| Sankey.BuildEdgesFromLogs | src/components/PathSankey.tsx:11-24 | the log loop yields the specified edges |
| Sankey.EdgesOfConcat | src/components/PathSankey.tsx:14-22 | edges of concatenated logs are the concatenation, so log order is kept |
| Sankey.LogEdgeFacts | src/components/PathSankey.tsx:15-20 | a log gives an edge exactly when decoded as `transfer` (any case) with both params; endpoints lower-case |
| Sankey.EdgesFromLogs | src/components/PathSankey.tsx:14-22 | at most one edge per log, each from some log |
| Sankey.TopChosenFacts | src/components/PathSankey.tsx:34-37 | the queried activities are the `topN` largest positive ones (all when fewer), none left out larger than one kept |
| Sankey.TopFacts | src/components/PathSankey.tsx:34-37 | queried activities have positive USD, come from the input, descend, and are at most `topN` |
| Sankey.TopEmpty | src/components/PathSankey.tsx:34-37 | nothing is queried exactly when no activity has positive USD |
| Sankey.CollectResults | src/components/PathSankey.tsx:38-49 | the query loop yields the specified result edges |
| Sankey.PushShares | src/components/PathSankey.tsx:45 | one result edge per transfer, each with the share |
| Sankey.EqualShares | src/components/PathSankey.tsx:44-45 | `n` equal shares add up to `n` times the share |
| Sankey.SplitEvenly | src/components/PathSankey.tsx:44 | `k` shares of `u / k` add up to `u` |
| Sankey.SharesSum | src/components/PathSankey.tsx:41-45 | an activity's shares add up to its USD, or to 0 after a failed lookup or without edges |
| Sankey.ResultsTotal | src/components/PathSankey.tsx:38-49 | all shares add up to the USD of the activities that produced edges |
| Sankey.Adjacency | src/components/PathSankey.tsx:65-72 | the `forEach` with two independent tests lists both sides and the maximum |
| Sankey.BuildGraph | src/components/PathSankey.tsx:57-76 | the memo returns the specified graph |
| Sankey.AggAt | src/components/PathSankey.tsx:59-63 | each aggregated edge sums the result edges of its pair, and pairs are distinct |
| Sankey.AggTotal | src/components/PathSankey.tsx:59-63 | the aggregated USD equals the USD of the activities that produced edges |
| Sankey.InboundExact | src/components/PathSankey.tsx:70 | exactly the aggregated edges into the pivot are listed inbound, under their senders |
| Sankey.OutboundExact | src/components/PathSankey.tsx:71 | exactly those out of the pivot are listed outbound, so a self-loop is on both sides |
| Sankey.GraphSorted | src/components/PathSankey.tsx:73-74 | both lists descend by USD |
| Sankey.MaxAtFacts | src/components/PathSankey.tsx:67-72 | `max` is 0 without edges at the pivot, else the largest of theirs (when positive) |
| HomePage.HexRunIff | src/pages/HomePage.tsx:9 | `[a-fA-F0-9]{n}$` matches exactly n hex digits and the end |
| HomePage.MatchesIff | src/pages/HomePage.tsx:9 | the regular expression accepts exactly 42 characters: `0x` and 40 hex digits |
| HomePage.SubmitFacts | src/pages/HomePage.tsx:8-14 | navigation happens exactly for a valid address, to `/results/` and the wallet as typed |
| HomePage.CaseRules | src/pages/HomePage.tsx:9 | the case of hex digits does not matter, while `0X` is refused |

## Left out

- Unicode case mapping: `Text.Lower` lower-cases A–Z only. Addresses and the keywords compared are ASCII.
- Floating point. Amounts are exact reals, so rounding in sums, shares and `10^dec` division is not
  modelled. Neither are NaN from arithmetic, `Infinity` overflow, or `Number()` of hex, octal,
  binary and `Infinity` literals; those read as "no number".
- ISO timestamp parsing is the parameter `toMillis`. The clock fallback `new Date().toISOString()`
  is the parameter `now`. An unparsable time, which gives NaN in the source, is not modelled.
- The `pLimit` limiter, the concurrency of `Promise.allSettled`, and the pacing `delay`. Only the
  settled results, in order, are modelled.
- `fetch` is an oracle from request to reply. URLs, headers, the auth mode, the base URLs and the
  `VITE_*` environment are configuration. `localStorage` and `setCovalentKey` are the runtime-key
  field of the configuration.
- `fetchTransactionDetails` (src/api/covalentRequest.ts:160-189) is the lookup parameter of
  PathSankey: a function from chain and hash to a detail or a failure.
- Parse.Decimals: a fractional decimals count is rounded down to an integer, while the source
  divides by `Math.pow(10, 6.5)` and the like; such counts do not occur in token metadata.
- Fetch.FetchAllPages: a non-integer `maxPages` from the environment is not modelled; the page
  budget is an integer.
- String keys joined with `->`: FlowGraph's edge key `${from}->${to}` (src/components/FlowGraph.tsx:30)
  and PathSankey's key with its `k.split('->')` (src/components/PathSankey.tsx:61,69) are modelled as
  the pair they were built from. They differ only for an address containing `->`: in the source
  ("a->b", "c") and ("a", "b->c") share one key and one edge, while the model keeps two.
- FlowGraph's pivot is a parameter. The click handlers and "Zurück zum Wallet" are
  `FlowGraph.ClickNode` and `FlowGraph.InitialPivot`, not a state machine.
- Rendering, SVG layout, the `scale` helpers, BubbleChart packing, RadialBubbleMap placement,
  loading and error UI, navigation side effects, `location.hash` and the `cancelled` flag.
- PathSankey: a `null` entry of `params` is a parameter without a name. `log_events` is always a list.
- ResultsPage: the early return without a key (src/pages/ResultsPage.tsx:38-40) and the reload
  tick are left out; the merge starts from the fetched and imported lists.
- Classify: the `erc20_transfers` the normaliser reads are part of the raw item, and nothing else
  of a provider record is modelled.
