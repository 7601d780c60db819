/**
 * Blockstream Bitcoin `Transaction`: a transaction seen from one controlled address. Every
 * input becomes an outbound leg, the fee a leg to the miner, every output an inbound leg.
 */
module BlockstreamTransactions {
  import opened Wrappers
  import opened Collections
  import opened Addresses
  import opened AtomicTransactions
  import opened Bundles
  import opened Legs
  import opened ChainCoins

  /** An output: its own address is carried but never read. */
  datatype Vout = Vout(scriptpubkeyAddress: string, value: int)

  /** An input, reduced to the output it spends. */
  datatype Vin = Vin(prevout: Vout)

  /** The attributes the mapper reads; values and the fee are in satoshi, `blockTime` in seconds. */
  datatype BlockstreamAttributes = BlockstreamAttributes(
    txid: string,
    vin: seq<Vin>,
    vout: seq<Vout>,
    fee: int,
    blockTime: int)

  /** The `* 1e-8` conversion from satoshi to bitcoin. */
  function Btc(satoshi: int): real {
    satoshi as real / 100000000.0
  }

  /** The clock-skew allowance subtracted from outbound legs' time: one hour in milliseconds. */
  const OneHourMs: int := 60 * 60 * 1000

  /** `createdAt({ minus: 60 * 60 * 1000 })`: outbound and fee legs. */
  function OutboundMs(t: BlockstreamAttributes): int {
    t.blockTime * 1000 - OneHourMs
  }

  /** `createdAt()`: inbound legs. */
  function InboundMs(t: BlockstreamAttributes): int {
    t.blockTime * 1000
  }

  function BundleId(t: BlockstreamAttributes): string {
    ChainName(Bitcoin) + "-transaction-" + t.txid
  }

  /** Bundle ids coincide exactly when the transaction ids do. */
  lemma {:induction false} BundleIdIffSameTxid(t: BlockstreamAttributes, u: BlockstreamAttributes)
    ensures BundleId(t) == BundleId(u) <==> t.txid == u.txid
  {
    var p := ChainName(Bitcoin) + "-transaction-";
    if BundleId(t) == BundleId(u) {
      assert t.txid == BundleId(t)[|p|..];
      assert u.txid == BundleId(u)[|p|..];
    }
  }

  const OtherBtcAddress: Endpoint := RegisteredVoid("Other BTC address")

  const Miner: Endpoint := RegisteredVoid("Miner")

  /** The leg of input `i`: the fee comes off the first input only. */
  function VinLeg(t: BlockstreamAttributes, controlled: Address, ticker: string, i: nat): Leg
    requires i < |t.vin|
  {
    Leg(OutboundMs(t), "----", ticker, Given(controlled), OtherBtcAddress,
      Btc(t.vin[i].prevout.value - (if i == 0 then t.fee else 0)), BundleId(t))
  }

  /** The legs of inputs `i..`. */
  function VinLegs(t: BlockstreamAttributes, controlled: Address, ticker: string, i: nat): (r: seq<Leg>)
    requires i <= |t.vin|
    ensures |r| == |t.vin| - i
    ensures forall k | 0 <= k < |r| :: r[k] == VinLeg(t, controlled, ticker, i + k)
    decreases |t.vin| - i
  {
    if i == |t.vin| then [] else [VinLeg(t, controlled, ticker, i)] + VinLegs(t, controlled, ticker, i + 1)
  }

  function FeeLeg(t: BlockstreamAttributes, controlled: Address, ticker: string): Leg {
    Leg(OutboundMs(t), PAY_FEE, ticker, Given(controlled), Miner, Btc(t.fee), BundleId(t))
  }

  /** The leg of output `j`: it always reaches the controlled address, whatever the output's address. */
  function VoutLeg(t: BlockstreamAttributes, controlled: Address, ticker: string, j: nat): Leg
    requires j < |t.vout|
  {
    Leg(InboundMs(t), "-----", ticker, OtherBtcAddress, Given(controlled), Btc(t.vout[j].value), BundleId(t))
  }

  function VoutLegs(t: BlockstreamAttributes, controlled: Address, ticker: string): (r: seq<Leg>)
    ensures |r| == |t.vout|
    ensures forall j | 0 <= j < |r| :: r[j] == VoutLeg(t, controlled, ticker, j)
  {
    seq(|t.vout|, j requires 0 <= j < |t.vout| => VoutLeg(t, controlled, ticker, j))
  }

  /** The legs of `toAtomicTransactions`, in order: inputs, the fee if there is any input, outputs. */
  function LegsWithTicker(t: BlockstreamAttributes, controlled: Address, ticker: string): seq<Leg> {
    VinLegs(t, controlled, ticker, 0) +
    (if |t.vin| > 0 then [FeeLeg(t, controlled, ticker)] else []) +
    VoutLegs(t, controlled, ticker)
  }

  /** The legs as written: the ticker is `chainToCoinMap[bitcoin]`, which does not exist. */
  function AsWrittenLegs(t: BlockstreamAttributes, controlled: Address): seq<Leg> {
    LegsWithTicker(t, controlled, TickerOf(ChainToCoin(Bitcoin)))
  }

  /** The legs with the Bitcoin ticker the mapper means. */
  function PlannedLegs(t: BlockstreamAttributes, controlled: Address): seq<Leg> {
    LegsWithTicker(t, controlled, CorrectedChainToCoin(Bitcoin))
  }

  lemma {:induction false} LegsWithTickerCurrency(t: BlockstreamAttributes, controlled: Address, ticker: string)
    ensures forall l | l in LegsWithTicker(t, controlled, ticker) :: l.currency == ticker
  {
    var legs := LegsWithTicker(t, controlled, ticker);
    var vins := VinLegs(t, controlled, ticker, 0);
    var fee: seq<Leg> := if |t.vin| > 0 then [FeeLeg(t, controlled, ticker)] else [];
    var vouts := VoutLegs(t, controlled, ticker);
    forall l | l in legs ensures l.currency == ticker {
      if l in vins {
        var k :| 0 <= k < |vins| && vins[k] == l;
      } else if l in vouts {
        var k :| 0 <= k < |vouts| && vouts[k] == l;
      }
    }
  }

  /** As written, no Bitcoin leg carries a ticker: every one is filed under `undefined`. */
  lemma AsWrittenLegsHaveNoTicker(t: BlockstreamAttributes, controlled: Address)
    ensures forall l | l in AsWrittenLegs(t, controlled) :: l.currency == UndefinedTicker && l.currency != BitcoinTicker
  {
    LegsWithTickerCurrency(t, controlled, TickerOf(ChainToCoin(Bitcoin)));
  }

  /** Every leg of the corrected mapper is in bitcoin. */
  lemma PlannedLegsAreBitcoin(t: BlockstreamAttributes, controlled: Address)
    ensures forall l | l in PlannedLegs(t, controlled) :: l.currency == BitcoinTicker
  {
    LegsWithTickerCurrency(t, controlled, CorrectedChainToCoin(Bitcoin));
  }

  /**
   * The layout of the legs: one outbound leg per input, stamped an hour early; the fee leg
   * to the miner exactly when there is an input; one inbound leg per output.
   */
  lemma LegLayout(t: BlockstreamAttributes, controlled: Address)
    ensures var legs := PlannedLegs(t, controlled);
      var f := if |t.vin| > 0 then 1 else 0;
      |legs| == |t.vin| + f + |t.vout| &&
      (forall i | 0 <= i < |t.vin| ::
        legs[i].from == Given(controlled) && legs[i].to == OtherBtcAddress && legs[i].ms == OutboundMs(t) &&
        legs[i].action != PAY_FEE) &&
      (|t.vin| > 0 ==>
        legs[|t.vin|].action == PAY_FEE && legs[|t.vin|].from == Given(controlled) && legs[|t.vin|].to == Miner &&
        legs[|t.vin|].amount == Btc(t.fee) && legs[|t.vin|].ms == OutboundMs(t)) &&
      (forall j | 0 <= j < |t.vout| ::
        legs[|t.vin| + f + j].from == OtherBtcAddress && legs[|t.vin| + f + j].to == Given(controlled) &&
        legs[|t.vin| + f + j].amount == Btc(t.vout[j].value) && legs[|t.vin| + f + j].ms == InboundMs(t) &&
        legs[|t.vin| + f + j].action != PAY_FEE) &&
      (forall l | l in legs :: l.bundleId == BundleId(t))
  {
    LegParts(t, controlled);
    InputLegs(t, controlled);
    FeeLegLayout(t, controlled);
    OutputLegs(t, controlled);
    LegsShareBundleId(t, controlled);
  }

  lemma LegParts(t: BlockstreamAttributes, controlled: Address)
    ensures var ticker := CorrectedChainToCoin(Bitcoin);
      var fee: seq<Leg> := if |t.vin| > 0 then [FeeLeg(t, controlled, ticker)] else [];
      PlannedLegs(t, controlled) == VinLegs(t, controlled, ticker, 0) + fee + VoutLegs(t, controlled, ticker)
  {
  }

  lemma InputLegs(t: BlockstreamAttributes, controlled: Address)
    ensures var legs := PlannedLegs(t, controlled);
      |legs| >= |t.vin| &&
      forall i | 0 <= i < |t.vin| ::
        legs[i].from == Given(controlled) && legs[i].to == OtherBtcAddress && legs[i].ms == OutboundMs(t) &&
        legs[i].action != PAY_FEE
  {
    LegParts(t, controlled);
    var ticker := CorrectedChainToCoin(Bitcoin);
    var legs := PlannedLegs(t, controlled);
    var vins := VinLegs(t, controlled, ticker, 0);
    forall i | 0 <= i < |t.vin| ensures legs[i] == vins[i] {
    }
  }

  lemma FeeLegLayout(t: BlockstreamAttributes, controlled: Address)
    ensures var legs := PlannedLegs(t, controlled);
      |t.vin| > 0 ==>
        |legs| > |t.vin| &&
        legs[|t.vin|].action == PAY_FEE && legs[|t.vin|].from == Given(controlled) && legs[|t.vin|].to == Miner &&
        legs[|t.vin|].amount == Btc(t.fee) && legs[|t.vin|].ms == OutboundMs(t)
  {
    OutputLegsAt(t, controlled);
  }

  lemma OutputLegs(t: BlockstreamAttributes, controlled: Address)
    ensures var legs := PlannedLegs(t, controlled);
      var f := if |t.vin| > 0 then 1 else 0;
      |legs| == |t.vin| + f + |t.vout| &&
      forall j | 0 <= j < |t.vout| ::
        legs[|t.vin| + f + j].from == OtherBtcAddress && legs[|t.vin| + f + j].to == Given(controlled) &&
        legs[|t.vin| + f + j].amount == Btc(t.vout[j].value) && legs[|t.vin| + f + j].ms == InboundMs(t) &&
        legs[|t.vin| + f + j].action != PAY_FEE
  {
    OutputLegsAt(t, controlled);
    var legs := PlannedLegs(t, controlled);
    var f := if |t.vin| > 0 then 1 else 0;
    forall j | 0 <= j < |t.vout|
      ensures legs[|t.vin| + f + j].from == OtherBtcAddress && legs[|t.vin| + f + j].to == Given(controlled) &&
        legs[|t.vin| + f + j].amount == Btc(t.vout[j].value) && legs[|t.vin| + f + j].ms == InboundMs(t) &&
        legs[|t.vin| + f + j].action != PAY_FEE
    {
      OutputLeg(t, controlled, j, legs[|t.vin| + f + j]);
    }
  }

  lemma OutputLeg(t: BlockstreamAttributes, controlled: Address, j: nat, l: Leg)
    requires j < |t.vout| && l == VoutLeg(t, controlled, CorrectedChainToCoin(Bitcoin), j)
    ensures l.from == OtherBtcAddress && l.to == Given(controlled) && l.amount == Btc(t.vout[j].value) &&
      l.ms == InboundMs(t) && l.action != PAY_FEE
  {
    assert l.action == "-----";
  }

  lemma OutputLegsAt(t: BlockstreamAttributes, controlled: Address)
    ensures var ticker := CorrectedChainToCoin(Bitcoin);
      var legs := PlannedLegs(t, controlled);
      var f := if |t.vin| > 0 then 1 else 0;
      |legs| == |t.vin| + f + |t.vout| &&
      (|t.vin| > 0 ==> legs[|t.vin|] == FeeLeg(t, controlled, ticker)) &&
      (forall j | 0 <= j < |t.vout| :: legs[|t.vin| + f + j] == VoutLeg(t, controlled, ticker, j))
  {
    TickerLegsAt(t, controlled, CorrectedChainToCoin(Bitcoin));
  }

  /** Where the fee leg and the output legs sit, whatever the ticker. */
  lemma TickerLegsAt(t: BlockstreamAttributes, controlled: Address, ticker: string)
    ensures var legs := LegsWithTicker(t, controlled, ticker);
      var f := if |t.vin| > 0 then 1 else 0;
      |legs| == |t.vin| + f + |t.vout| &&
      (|t.vin| > 0 ==> legs[|t.vin|] == FeeLeg(t, controlled, ticker)) &&
      (forall j | 0 <= j < |t.vout| :: legs[|t.vin| + f + j] == VoutLeg(t, controlled, ticker, j))
  {
    TickerFeeAt(t, controlled, ticker);
    TickerVoutsAt(t, controlled, ticker);
  }

  lemma TickerFeeAt(t: BlockstreamAttributes, controlled: Address, ticker: string)
    ensures var legs := LegsWithTicker(t, controlled, ticker);
      |legs| == |t.vin| + (if |t.vin| > 0 then 1 else 0) + |t.vout| &&
      (|t.vin| > 0 ==> legs[|t.vin|] == FeeLeg(t, controlled, ticker))
  {
    var fee: seq<Leg> := if |t.vin| > 0 then [FeeLeg(t, controlled, ticker)] else [];
    ConcatMiddle(VinLegs(t, controlled, ticker, 0), fee, VoutLegs(t, controlled, ticker), |t.vin|, |fee|);
  }

  lemma TickerVoutsAt(t: BlockstreamAttributes, controlled: Address, ticker: string)
    ensures forall j | 0 <= j < |t.vout| ::
      LegsWithTicker(t, controlled, ticker)[|t.vin| + FeeCount(t) + j] == VoutLeg(t, controlled, ticker, j)
  {
    var fee: seq<Leg> := if |t.vin| > 0 then [FeeLeg(t, controlled, ticker)] else [];
    ConcatLast(VinLegs(t, controlled, ticker, 0), fee, VoutLegs(t, controlled, ticker), |t.vin|, FeeCount(t));
  }

  /** The number of fee legs: one when there is an input. */
  function FeeCount(t: BlockstreamAttributes): nat {
    if |t.vin| > 0 then 1 else 0
  }

  lemma LegsShareBundleId(t: BlockstreamAttributes, controlled: Address)
    ensures forall l | l in PlannedLegs(t, controlled) :: l.bundleId == BundleId(t)
  {
    LegParts(t, controlled);
    var ticker := CorrectedChainToCoin(Bitcoin);
    var vins := VinLegs(t, controlled, ticker, 0);
    var vouts := VoutLegs(t, controlled, ticker);
    forall l | l in PlannedLegs(t, controlled) ensures l.bundleId == BundleId(t) {
      if l in vins {
        var k :| 0 <= k < |vins| && vins[k] == l;
      } else if l in vouts {
        var k :| 0 <= k < |vouts| && vouts[k] == l;
      }
    }
  }

  /** Total of the values spent by inputs `i..`. */
  function SpentFrom(vin: seq<Vin>, i: nat): int
    requires i <= |vin|
    decreases |vin| - i
  {
    if i == |vin| then 0 else vin[i].prevout.value + SpentFrom(vin, i + 1)
  }

  lemma {:induction false} VinLegsTotal(t: BlockstreamAttributes, controlled: Address, ticker: string, i: nat)
    requires i <= |t.vin|
    ensures LegAmounts(VinLegs(t, controlled, ticker, i)) == Btc(SpentFrom(t.vin, i) - (if i == 0 && i < |t.vin| then t.fee else 0))
    decreases |t.vin| - i
  {
    if i < |t.vin| {
      var legs := VinLegs(t, controlled, ticker, i);
      VinLegsTotal(t, controlled, ticker, i + 1);
      assert legs[1..] == VinLegs(t, controlled, ticker, i + 1);
    }
  }

  /** The outbound legs and the fee leg together move exactly the value the inputs spend. */
  lemma OutboundAndFeeTotal(t: BlockstreamAttributes, controlled: Address)
    requires |t.vin| > 0
    ensures var ticker := CorrectedChainToCoin(Bitcoin);
      LegAmounts(VinLegs(t, controlled, ticker, 0) + [FeeLeg(t, controlled, ticker)]) == Btc(SpentFrom(t.vin, 0))
  {
    var ticker := CorrectedChainToCoin(Bitcoin);
    VinLegsTotal(t, controlled, ticker, 0);
    LegAmountsAppend(VinLegs(t, controlled, ticker, 0), [FeeLeg(t, controlled, ticker)]);
    assert LegAmounts([FeeLeg(t, controlled, ticker)]) == Btc(t.fee);
  }

  /** Output addresses play no part: two transactions that differ only there have the same legs. */
  lemma OutputAddressesIgnored(t: BlockstreamAttributes, u: BlockstreamAttributes, controlled: Address)
    requires t.txid == u.txid && t.vin == u.vin && t.fee == u.fee && t.blockTime == u.blockTime
    requires |t.vout| == |u.vout| && forall j | 0 <= j < |t.vout| :: t.vout[j].value == u.vout[j].value
    ensures PlannedLegs(t, controlled) == PlannedLegs(u, controlled)
  {
    var ticker := CorrectedChainToCoin(Bitcoin);
    assert VoutLegs(t, controlled, ticker) == VoutLegs(u, controlled, ticker);
    assert VinLegs(t, controlled, ticker, 0) == VinLegs(u, controlled, ticker, 0);
  }

  predicate NonZeroAmount(a: AtomicTransaction) {
    a.amount != 0.0
  }

  class BlockstreamTransaction {
    const attributes: BlockstreamAttributes
    const controlledAddress: Address
    var atomicTransactions: Option<seq<AtomicTransaction>>

    constructor (attributes: BlockstreamAttributes, controlledAddress: Address)
      ensures this.attributes == attributes && this.controlledAddress == controlledAddress
      ensures atomicTransactions == None
    {
      this.attributes := attributes;
      this.controlledAddress := controlledAddress;
      atomicTransactions := None;
    }

    /** `toAtomicTransactions()`, memoised; it never throws. */
    method ToAtomicTransactions(regs: Registries) returns (r: seq<AtomicTransaction>)
      requires regs.Valid()
      modifies this, regs.voids, regs.platforms, regs.decentralized
      ensures regs.Valid()
      ensures old(atomicTransactions).Some? ==>
        r == old(atomicTransactions).value && atomicTransactions == old(atomicTransactions) &&
        unchanged(regs.voids, regs.platforms, regs.decentralized)
      ensures old(atomicTransactions).None? ==>
        regs.Realizes(PlannedLegs(attributes, controlledAddress), r) && atomicTransactions == Some(r) &&
        forall i | 0 <= i < |r| :: fresh(r[i].createdAt)
    {
      if atomicTransactions.Some? {
        return atomicTransactions.value;
      }
      r := regs.Realize(PlannedLegs(attributes, controlledAddress));
      atomicTransactions := Some(r);
    }

    /** `transactionBundle()`: the legs without the zero-amount ones, transfer/incomplete. */
    method Bundle(regs: Registries) returns (b: TransactionBundle)
      requires regs.Valid()
      modifies this, regs.voids, regs.platforms, regs.decentralized
      ensures regs.Valid()
      ensures atomicTransactions.Some?
      ensures b == TransactionBundle(Filter(atomicTransactions.value, NonZeroAmount), Transfer, Incomplete, BundleId(attributes), [])
      ensures forall i | 0 <= i < |b.atomicTransactions| :: b.atomicTransactions[i].amount != 0.0
    {
      var txs := ToAtomicTransactions(regs);
      b := TransactionBundle(Filter(txs, NonZeroAmount), Transfer, Incomplete, BundleId(attributes), []);
    }
  }
}
