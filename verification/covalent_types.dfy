/**
 * The provider records the parser reads: Covalent `transactions_v3` items, and Moralis history
 * items after they have been mapped into the same shape. Only the fields the parser looks at are
 * kept; an absent JSON field (`undefined` or `null`) is `None`.
 */
module CovalentTypes {
  import opened Wrappers
  import JsNumber

  /** A JSON scalar in a field the parser inspects with `typeof`: a number or a string. */
  datatype RawValue = Num(n: real) | Str(s: string)

  /** `Number(v)` when it is finite. */
  function NumberOfValue(v: RawValue): Option<real> {
    match v
    case Num(n) => Some(n)
    case Str(s) => JsNumber.NumberOf(s)
  }

  /** `typeof v === 'number'`. */
  predicate IsNumber(v: Option<RawValue>) {
    v.Some? && v.value.Num?
  }

  /** One entry of `erc20_transfers`. */
  datatype Erc20Transfer = Erc20Transfer(
    fromAddress: Option<string>,
    toAddress: Option<string>,
    tokenSymbol: Option<string>,
    tokenDecimals: Option<RawValue>,
    value: Option<RawValue>)

  /** One transaction item. */
  datatype RawItem = RawItem(
    txHash: Option<string>,
    blockSignedAt: Option<string>,
    fromAddress: Option<string>,
    toAddress: Option<string>,
    value: Option<RawValue>,
    valueQuote: Option<RawValue>,
    gasQuoteRate: Option<RawValue>,
    quoteRate: Option<RawValue>,
    erc20Transfers: Option<seq<Erc20Transfer>>)

  /** The `data` of a response: an array of items, an object with an optional `items`, or nothing. */
  datatype RawData = ItemArray(items: seq<RawItem>) | Envelope(envelopeItems: Option<seq<RawItem>>) | NoData

  /** `Array.isArray(data) ? data : data?.items ?? []`. */
  function ItemsOf(data: RawData): (r: seq<RawItem>)
    ensures data.ItemArray? ==> r == data.items
    ensures data.Envelope? && data.envelopeItems.Some? ==> r == data.envelopeItems.value
    ensures data.NoData? || (data.Envelope? && data.envelopeItems.None?) ==> r == []
  {
    match data
    case ItemArray(items) => items
    case Envelope(items) => items.GetOr([])
    case NoData => []
  }

  /** One chain's fetched items, `{ chainId, items }`. */
  datatype ChainItems = ChainItems(chainId: int, items: seq<RawItem>)
}
