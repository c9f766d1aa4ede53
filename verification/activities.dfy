/**
 * The normalised activity record every part of the pipeline works on (`ParsedActivity`), the chain
 * table, and the two timestamp orders used throughout.
 */
module Activities {
  import opened Wrappers
  import opened Sorting

  datatype ActivityType = Transfer | Swap | Mint | Burn | Bridge | Nft | Unknown

  /** Every activity type, in the order the results page offers them. */
  const AllTypes: seq<ActivityType> := [Transfer, Swap, Mint, Burn, Bridge, Nft, Unknown]

  lemma AllTypesListed()
    ensures forall k: ActivityType :: k in AllTypes
  {
    forall k: ActivityType
      ensures k in AllTypes
    {
      match k
      case Transfer => assert AllTypes[0] == k;
      case Swap => assert AllTypes[1] == k;
      case Mint => assert AllTypes[2] == k;
      case Burn => assert AllTypes[3] == k;
      case Bridge => assert AllTypes[4] == k;
      case Nft => assert AllTypes[5] == k;
      case Unknown => assert AllTypes[6] == k;
    }
  }

  /** The ids of the configured chains: Ethereum, BNB, Polygon, Optimism, Arbitrum, Avalanche. */
  const DefaultChainIds: seq<int> := [1, 56, 137, 10, 42161, 43114]

  /** `meta`: absent, or the record left by the pass-through collapser. */
  datatype Meta = NoMeta | CollapsedMeta(via: string, inId: string, outId: string)

  /**
   * One activity. `timestamp` is the instant in milliseconds that the record's ISO time string
   * denotes; `kind` is the source's `type` field.
   */
  datatype Activity = Activity(
    id: string,
    chainId: int,
    timestamp: int,
    kind: ActivityType,
    from: string,
    to: string,
    token: Option<string>,
    amount: Option<real>,
    amountUSD: Option<real>,
    txHash: string,
    meta: Meta)

  /** `typeof a.amountUSD === 'number' ? a.amountUSD : 0`. */
  function UsdOrZero(a: Activity): real {
    a.amountUSD.GetOr(0.0)
  }

  function NewestKey(a: Activity): Rank {
    By(a.timestamp as real)
  }

  function OldestKey(a: Activity): Rank {
    By(-a.timestamp as real)
  }

  /** Sorted by timestamp, newest first; equal timestamps keep their order. */
  function NewestFirst(s: seq<Activity>): (r: seq<Activity>)
    ensures multiset(r) == multiset(s)
    ensures forall i, j :: 0 <= i < j < |r| ==> r[i].timestamp >= r[j].timestamp
  {
    SortDescSorted(s, NewestKey);
    SortDesc(s, NewestKey)
  }

  /** Sorted by timestamp, oldest first; equal timestamps keep their order. */
  function OldestFirst(s: seq<Activity>): (r: seq<Activity>)
    ensures multiset(r) == multiset(s)
    ensures forall i, j :: 0 <= i < j < |r| ==> r[i].timestamp <= r[j].timestamp
  {
    SortDescSorted(s, OldestKey);
    SortDesc(s, OldestKey)
  }
}
