/** The older Algorand `Transaction`: a payment between two Algorand accounts, as one leg. */
module AlgorandTransactions {
  import opened Wrappers
  import opened Strings
  import opened Addresses
  import opened Records
  import opened AtomicTransactions
  import opened Bundles
  import opened Legs
  import opened ChainCoins

  /**
   * The attributes the mapper reads, with the key set it checks. `paymentAmount` is the
   * value of the payment's amount numeral, in microalgos; `roundTime` is in seconds.
   */
  datatype AlgorandAttributes = AlgorandAttributes(
    keys: set<string>,
    id: string,
    sender: string,
    roundTime: int,
    paymentReceiver: string,
    paymentAmount: real)

  datatype AlgorandError = MissingAttribute(name: string)

  /** `attributesList`, in its order: the constructor reports the first one missing. */
  const AttributesList: seq<string> := ["close-rewards", "closing-amount", "confirmed-round", "fee",
    "first-valid", "genesis-hash", "genesis-id", "id", "intra-round-offset", "last-valid",
    "payment-transaction", "receiver-rewards", "round-time", "sender", "sender-rewards", "signature", "tx-type"]

  predicate HasAllAttributes(keys: set<string>) {
    forall i | 0 <= i < |AttributesList| :: AttributesList[i] in keys
  }

  function FromAddress(t: AlgorandAttributes): string {
    ToLower(t.sender)
  }

  function ToAddress(t: AlgorandAttributes): string {
    ToLower(t.paymentReceiver)
  }

  /** `amount`: the whole number of microalgos, in algos. */
  function Amount(t: AlgorandAttributes): (r: real)
    ensures r * 1000000.0 == ParseInt(t.paymentAmount) as real
  {
    ParseInt(t.paymentAmount) as real / 1000000.0
  }

  function TransactionHash(t: AlgorandAttributes): string {
    ToLower(t.id)
  }

  function BundleIdPrefix(): string {
    ChainName(Algorand) + "-"
  }

  function BundleId(t: AlgorandAttributes): string {
    BundleIdPrefix() + TransactionHash(t)
  }

  /** Two transactions share a bundle id exactly when their ids agree up to case. */
  lemma {:induction false} BundleIdIffSameHash(t: AlgorandAttributes, u: AlgorandAttributes)
    ensures BundleId(t) == BundleId(u) <==> ToLower(t.id) == ToLower(u.id)
  {
    var p := BundleIdPrefix();
    if BundleId(t) == BundleId(u) {
      assert TransactionHash(t) == BundleId(t)[|p|..];
      assert TransactionHash(u) == BundleId(u)[|p|..];
    }
  }

  /** `toAtomicTransactions()`: one ALGO leg from the sender to the receiver. */
  function PlannedLegs(t: AlgorandAttributes): seq<Leg> {
    [Leg(t.roundTime * 1000, "---------", TickerOf(ChainToCoin(Algorand)),
      RegisteredDecentralized(Algorand, FromAddress(t)), RegisteredDecentralized(Algorand, ToAddress(t)),
      Amount(t), BundleId(t))]
  }

  /** The single leg, stated on the raw attributes. */
  lemma SingleAlgoLeg(t: AlgorandAttributes)
    ensures var legs := PlannedLegs(t);
      |legs| == 1 && legs[0].currency == "ALGO" &&
      legs[0].from == RegisteredDecentralized(Algorand, ToLower(t.sender)) &&
      legs[0].to == RegisteredDecentralized(Algorand, ToLower(t.paymentReceiver)) &&
      legs[0].amount * 1000000.0 == ParseInt(t.paymentAmount) as real &&
      legs[0].bundleId == "algorand-" + ToLower(t.id) && legs[0].ms == t.roundTime * 1000
  {
  }

  class AlgorandTransaction {
    const attributes: AlgorandAttributes
    var atomicTransactions: Option<seq<AtomicTransaction>>

    constructor (attributes: AlgorandAttributes)
      requires HasAllAttributes(attributes.keys)
      ensures this.attributes == attributes && atomicTransactions == None
    {
      this.attributes := attributes;
      atomicTransactions := None;
    }

    /** `toAtomicTransactions()`, memoised; it never throws. */
    method ToAtomicTransactions(regs: Registries) returns (r: seq<AtomicTransaction>)
      requires regs.Valid()
      modifies this, regs.voids, regs.platforms, regs.decentralized
      ensures regs.Valid()
      ensures old(atomicTransactions).Some? ==>
        r == old(atomicTransactions).value && atomicTransactions == old(atomicTransactions) &&
        unchanged(regs.voids, regs.platforms, regs.decentralized)
      ensures old(atomicTransactions).None? ==>
        regs.Realizes(PlannedLegs(attributes), r) && atomicTransactions == Some(r) &&
        forall i | 0 <= i < |r| :: fresh(r[i].createdAt)
    {
      if atomicTransactions.Some? {
        return atomicTransactions.value;
      }
      r := regs.Realize(PlannedLegs(attributes));
      atomicTransactions := Some(r);
    }

    /** `transactionBundle()`: always incomplete, with the empty action. */
    method Bundle(regs: Registries) returns (b: TransactionBundle)
      requires regs.Valid()
      modifies this, regs.voids, regs.platforms, regs.decentralized
      ensures regs.Valid()
      ensures atomicTransactions.Some?
      ensures b == TransactionBundle(atomicTransactions.value, Unnamed, Incomplete, BundleId(attributes), [])
    {
      var txs := ToAtomicTransactions(regs);
      b := TransactionBundle(txs, Unnamed, Incomplete, BundleId(attributes), []);
    }
  }

  /** `new Transaction(...)`: throws on the first listed attribute that is missing; extra keys are allowed. */
  method NewAlgorandTransaction(attributes: AlgorandAttributes) returns (r: Result<AlgorandTransaction, AlgorandError>)
    ensures r.Ok? <==> HasAllAttributes(attributes.keys)
    ensures r.Err? ==> Some(r.error.name) == FirstMissing(AttributesList, attributes.keys)
    ensures r.Ok? ==> fresh(r.value) && r.value.attributes == attributes && r.value.atomicTransactions == None
  {
    var missing := FirstMissing(AttributesList, attributes.keys);
    if missing.Some? {
      return Err(MissingAttribute(missing.value));
    }
    var transaction := new AlgorandTransaction(attributes);
    return Ok(transaction);
  }
}
