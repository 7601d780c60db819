/** `chainToCoinMap`: the native coin of each supported blockchain. */
module ChainCoins {
  import opened Wrappers
  import opened Addresses
  import opened Legs

  /** The table as written: it has no entry for Bitcoin. */
  function ChainToCoin(c: Chain): (r: Option<string>)
    ensures r.None? <==> c == Bitcoin
  {
    match c
    case Algorand => Some("ALGO")
    case Ethereum => Some("ETH")
    case Polygon => Some("MATIC")
    case Bitcoin => None
  }

  /** The ticker a leg gets from a table lookup; a missing entry is `undefined`. */
  function TickerOf(o: Option<string>): (r: string)
    ensures o.Some? ==> r == o.value
    ensures o.None? ==> r == UndefinedTicker
  {
    if o.Some? then o.value else UndefinedTicker
  }

  /** The Bitcoin ticker the Blockstream mapper evidently intends. */
  const BitcoinTicker: string := "BTC"

  /** The table with the Bitcoin entry it lacks: every chain has a real ticker. */
  function CorrectedChainToCoin(c: Chain): (r: string)
    ensures c != Bitcoin ==> Some(r) == ChainToCoin(c)
    ensures r != UndefinedTicker
  {
    if c == Bitcoin then BitcoinTicker else ChainToCoin(c).value
  }
}
