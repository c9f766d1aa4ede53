/** The conservative transaction classifier. */
module Classify {
  import opened Wrappers
  import opened CovalentTypes
  import opened Activities

  /** Both addresses are non-empty and a value is present. */
  predicate LooksLikeTransfer(item: RawItem) {
    Declared(item.fromAddress) && Declared(item.toAddress) && item.value.Some?
  }

  function ClassifyTransaction(item: RawItem): (r: ActivityType)
    ensures r == Transfer || r == Unknown
    ensures r == Transfer <==> LooksLikeTransfer(item)
  {
    if Declared(item.fromAddress) && Declared(item.toAddress) && item.value != None then Transfer
    else Unknown
  }

  /** A zero value still counts as present. */
  lemma ZeroValueIsTransfer(item: RawItem)
    requires Declared(item.fromAddress) && Declared(item.toAddress)
    requires item.value == Some(Num(0.0)) || item.value == Some(Str("0"))
    ensures ClassifyTransaction(item) == Transfer
  {
  }

  /** An empty address gives `unknown`. */
  lemma EmptyAddressIsUnknown(item: RawItem)
    requires item.fromAddress == Some("") || item.toAddress == Some("")
    ensures ClassifyTransaction(item) == Unknown
  {
  }

  /** The classification reads only the two addresses and the value. */
  lemma ClassifyReadsThreeFields(a: RawItem, b: RawItem)
    requires a.fromAddress == b.fromAddress && a.toAddress == b.toAddress && a.value == b.value
    ensures ClassifyTransaction(a) == ClassifyTransaction(b)
  {
  }
}
