/**
 * `EtherscanLikeInternalTransaction`: an internal (contract-initiated) transfer of an EVM
 * chain's coin, as the Etherscan-like explorers list it.
 */
module EtherscanInternalTransactions {
  import opened Wrappers
  import opened Strings
  import opened Addresses
  import opened Records
  import opened Legs
  import opened ChainCoins
  import opened EthereumLikeAddresses

  /**
   * The attributes the mapper reads, with the key set it checks. Numeric fields hold the
   * value of their decimal numeral; `parseInt` is applied by the getters.
   */
  datatype InternalAttributes = InternalAttributes(
    keys: set<string>,
    blockNumber: real,
    timeStamp: real,
    hash: string,
    from: string,
    to: string,
    value: real,
    contractAddress: string,
    input: string,
    txType: string,
    gas: real,
    gasUsed: real,
    isError: string,
    errCode: string)

  datatype InternalTransaction = InternalTransaction(attributes: InternalAttributes, chain: Chain)

  datatype InternalError = MissingAttribute(name: string) | InvalidAddress(reason: AddressError)

  /** `attributesList`, in its order: the constructor reports the first one missing. */
  const AttributesList: seq<string> := ["blockNumber", "timeStamp", "hash", "from", "to", "value",
    "contractAddress", "input", "type", "gas", "gasUsed", "traceId", "isError", "errCode"]

  /** The constructor: every listed attribute must be present; other keys are allowed. */
  function NewInternalTransaction(attributes: InternalAttributes, chain: Chain): (r: Result<InternalTransaction, InternalError>)
    ensures r.Ok? <==> forall i | 0 <= i < |AttributesList| :: AttributesList[i] in attributes.keys
    ensures r.Ok? ==> r.value == InternalTransaction(attributes, chain)
    ensures r.Err? ==> r.error.MissingAttribute? && r.error.name in AttributesList && r.error.name !in attributes.keys
  {
    match FirstMissing(AttributesList, attributes.keys)
    case Some(name) => Err(MissingAttribute(name))
    case None => Ok(InternalTransaction(attributes, chain))
  }

  /** Extra keys never make the constructor throw. */
  lemma ExtraKeysAllowed(attributes: InternalAttributes, extra: set<string>, chain: Chain)
    requires NewInternalTransaction(attributes, chain).Ok?
    ensures NewInternalTransaction(attributes.(keys := attributes.keys + extra), chain).Ok?
  {
  }

  /** `10 ** 18`: wei per coin. */
  const WeiPerCoin: real := 1000000000000000000.0

  function BlockNumber(t: InternalTransaction): int {
    ParseInt(t.attributes.blockNumber)
  }

  /** `timeStamp`: seconds since the epoch, as milliseconds. */
  function TimeStampMs(t: InternalTransaction): (r: int)
    ensures r % 1000 == 0
  {
    ParseInt(t.attributes.timeStamp) * 1000
  }

  function Hash(t: InternalTransaction): string {
    ToLower(t.attributes.hash)
  }

  function From(t: InternalTransaction): string {
    ToLower(t.attributes.from)
  }

  function To(t: InternalTransaction): string {
    ToLower(t.attributes.to)
  }

  function ContractAddress(t: InternalTransaction): string {
    ToLower(t.attributes.contractAddress)
  }

  /** `amount`: the whole number of wei, in coins. */
  function Amount(t: InternalTransaction): (r: real)
    ensures r * WeiPerCoin == ParseInt(t.attributes.value) as real
  {
    ParseInt(t.attributes.value) as real / WeiPerCoin
  }

  function Gas(t: InternalTransaction): int {
    ParseInt(t.attributes.gas)
  }

  function GasUsed(t: InternalTransaction): int {
    ParseInt(t.attributes.gasUsed)
  }

  /** `isError`: every value other than the string "0" is an error. */
  function IsError(t: InternalTransaction): (r: bool)
    ensures r <==> t.attributes.isError != "0"
  {
    t.attributes.isError != "0"
  }

  /** `traceId`: reads the `type` field, not `traceId`. */
  function TraceId(t: InternalTransaction): (r: string)
    ensures r == t.attributes.txType
  {
    t.attributes.txType
  }

  /** The normalising getters return lowercase text: lowercasing them again changes nothing. */
  lemma GettersAreLowercase(t: InternalTransaction)
    ensures ToLower(Hash(t)) == Hash(t) && ToLower(From(t)) == From(t)
    ensures ToLower(To(t)) == To(t) && ToLower(ContractAddress(t)) == ContractAddress(t)
  {
    ToLowerIdempotent(t.attributes.hash);
    ToLowerIdempotent(t.attributes.from);
    ToLowerIdempotent(t.attributes.to);
    ToLowerIdempotent(t.attributes.contractAddress);
  }

  /** `toAtomicTransactions()`: the sender's address is built (and checked) before the receiver's. */
  function PlannedLegs(t: InternalTransaction): Result<seq<Leg>, InternalError> {
    match Validate(From(t))
    case Err(e) => Err(InvalidAddress(e))
    case Ok(from) =>
      match Validate(To(t))
      case Err(e) => Err(InvalidAddress(e))
      case Ok(to) =>
        Ok([Leg(TimeStampMs(t), "---------", TickerOf(ChainToCoin(t.chain)), FreshEthereumLike(t.chain, from),
          FreshEthereumLike(t.chain, to), Amount(t), MissingBundleId)])
  }

  /**
   * A malformed sender or receiver throws, the sender first; otherwise there is one leg in
   * the chain's coin between the two lowercased addresses.
   */
  lemma PlannedLegsSpec(t: InternalTransaction)
    ensures PlannedLegs(t).Ok? <==> Validate(From(t)).Ok? && Validate(To(t)).Ok?
    ensures Validate(From(t)).Err? ==> PlannedLegs(t) == Err(InvalidAddress(Validate(From(t)).error))
    ensures Validate(From(t)).Ok? && Validate(To(t)).Err? ==> PlannedLegs(t) == Err(InvalidAddress(Validate(To(t)).error))
    ensures PlannedLegs(t).Ok? ==>
      var legs := PlannedLegs(t).value;
      |legs| == 1 &&
      legs[0].from == FreshEthereumLike(t.chain, ToLower(t.attributes.from)) &&
      legs[0].to == FreshEthereumLike(t.chain, ToLower(t.attributes.to)) &&
      legs[0].currency == TickerOf(ChainToCoin(t.chain)) &&
      legs[0].amount * WeiPerCoin == ParseInt(t.attributes.value) as real &&
      legs[0].ms == ParseInt(t.attributes.timeStamp) * 1000
  {
    ToLowerIdempotent(t.attributes.from);
    ToLowerIdempotent(t.attributes.to);
  }

  /** On the chains the explorers serve, the leg is in the chain's native coin. */
  lemma LegCurrencyOnEvmChains(t: InternalTransaction)
    requires PlannedLegs(t).Ok?
    ensures t.chain == Ethereum ==> PlannedLegs(t).value[0].currency == "ETH"
    ensures t.chain == Polygon ==> PlannedLegs(t).value[0].currency == "MATIC"
  {
  }
}
