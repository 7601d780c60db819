/**
 * AlgoExplorer `Transaction`: an Algorand transaction. Payments and asset transfers give a
 * value leg between the sender and the receiver; every transaction gives a fee leg to the miner.
 */
module AlgoExplorerTransactions {
  import opened Wrappers
  import opened Strings
  import opened Addresses
  import opened AtomicTransactions
  import opened Bundles
  import opened Legs
  import opened ChainCoins

  datatype Payment = Payment(amount: int, receiver: string)

  datatype AssetTransfer = AssetTransfer(amount: int, assetId: int, receiver: string)

  /** The attributes the mapper reads; `fee` and payment amounts are in microalgos. */
  datatype AlgoAttributes = AlgoAttributes(
    id: string,
    fee: int,
    sender: string,
    roundTime: int,
    txType: string,
    payment: Option<Payment>,
    assetTransfer: Option<AssetTransfer>)

  /** What the mapper asks of an asset: its display name and its number of decimals. */
  datatype AssetInfo = AssetInfo(name: string, decimals: nat)

  datatype AlgoError = ReceiverNotFound | AssetNotFound | CurrencyNotFound | AmountNotFound

  /** The transaction types that move value. */
  const ValueTypes: set<string> := {"pay", "axfer"}

  function Pow10(n: nat): (r: real)
    ensures r >= 1.0
  {
    if n == 0 then 1.0 else 10.0 * Pow10(n - 1)
  }

  /** `Asset.toDecimal`: the amount in base units scaled down by the asset's decimals. */
  function ToDecimal(asset: AssetInfo, amount: int): (r: real)
    ensures r * Pow10(asset.decimals) == amount as real
  {
    amount as real / Pow10(asset.decimals)
  }

  /** Microalgos to algos (`* 1e-6`). */
  function Algos(micro: int): (r: real)
    ensures r * 1000000.0 == micro as real
  {
    micro as real / 1000000.0
  }

  function AlgoTicker(): string {
    TickerOf(ChainToCoin(Algorand))
  }

  /** The receiver field `toAddress` finds: the payment's, else the asset transfer's, if non-empty. */
  function Receiver(t: AlgoAttributes): (r: Option<string>)
    ensures r.Some? ==> r.value != ""
    ensures r.None? <==>
      (t.payment.None? || t.payment.value.receiver == "") &&
      (t.assetTransfer.None? || t.assetTransfer.value.receiver == "")
    ensures t.payment.Some? && t.payment.value.receiver != "" ==> r == Some(t.payment.value.receiver)
  {
    if t.payment.Some? && t.payment.value.receiver != "" then Some(t.payment.value.receiver)
    else if t.assetTransfer.Some? && t.assetTransfer.value.receiver != "" then Some(t.assetTransfer.value.receiver)
    else None
  }

  /** `toAddress`: the lowercased receiver; throws when there is none. */
  function ToAddress(t: AlgoAttributes): (r: Result<string, AlgoError>)
    ensures r.Err? <==> Receiver(t).None?
    ensures r.Err? ==> r.error == ReceiverNotFound
    ensures r.Ok? ==> r.value == ToLower(Receiver(t).value)
  {
    match Receiver(t)
    case None => Err(ReceiverNotFound)
    case Some(receiver) => Ok(ToLower(receiver))
  }

  function FromAddress(t: AlgoAttributes): string {
    ToLower(t.sender)
  }

  /** `currency`: ALGO for a payment, the asset's name for an asset transfer. */
  function Currency(t: AlgoAttributes, assets: map<int, AssetInfo>): (r: Result<string, AlgoError>)
    ensures t.payment.Some? ==> r == Ok("ALGO")
    ensures t.payment.None? && t.assetTransfer.Some? ==>
      if t.assetTransfer.value.assetId in assets then r == Ok(assets[t.assetTransfer.value.assetId].name)
      else r == Err(AssetNotFound)
    ensures t.payment.None? && t.assetTransfer.None? ==> r == Err(CurrencyNotFound)
  {
    if t.payment.Some? then Ok(AlgoTicker())
    else if t.assetTransfer.Some? then
      if t.assetTransfer.value.assetId in assets then Ok(assets[t.assetTransfer.value.assetId].name)
      else Err(AssetNotFound)
    else Err(CurrencyNotFound)
  }

  /** `amount`: the payment in algos, or the asset transfer in the asset's units. */
  function Amount(t: AlgoAttributes, assets: map<int, AssetInfo>): (r: Result<real, AlgoError>)
    ensures t.payment.Some? ==> r.Ok? && r.value * 1000000.0 == t.payment.value.amount as real
    ensures t.payment.None? && t.assetTransfer.Some? ==>
      if t.assetTransfer.value.assetId in assets then
        r.Ok? && r.value * Pow10(assets[t.assetTransfer.value.assetId].decimals) == t.assetTransfer.value.amount as real
      else r == Err(AssetNotFound)
    ensures t.payment.None? && t.assetTransfer.None? ==> r == Err(AmountNotFound)
  {
    if t.payment.Some? then Ok(Algos(t.payment.value.amount))
    else if t.assetTransfer.Some? then
      if t.assetTransfer.value.assetId in assets then
        Ok(ToDecimal(assets[t.assetTransfer.value.assetId], t.assetTransfer.value.amount))
      else Err(AssetNotFound)
    else Err(AmountNotFound)
  }

  /** `amount` is read after `currency`, so its own errors can never surface. */
  lemma AmountAfterCurrency(t: AlgoAttributes, assets: map<int, AssetInfo>)
    ensures Currency(t, assets).Ok? ==> Amount(t, assets).Ok?
    ensures Currency(t, assets).Err? ==> Amount(t, assets) == Err(if t.payment.None? && t.assetTransfer.None? then AmountNotFound else AssetNotFound)
  {
  }

  function BundleId(t: AlgoAttributes): string {
    ChainName(Algorand) + "-" + t.id
  }

  /** Bundle ids coincide exactly when the raw ids do: no lowercasing, unlike the Algorand mapper. */
  lemma {:induction false} BundleIdIffSameId(t: AlgoAttributes, u: AlgoAttributes)
    ensures BundleId(t) == BundleId(u) <==> t.id == u.id
  {
    var p := ChainName(Algorand) + "-";
    if BundleId(t) == BundleId(u) {
      assert t.id == BundleId(t)[|p|..];
      assert u.id == BundleId(u)[|p|..];
    }
  }

  function CreatedAtMs(t: AlgoAttributes): int {
    t.roundTime * 1000
  }

  function FeeLeg(t: AlgoAttributes): Leg {
    Leg(CreatedAtMs(t), PAY_FEE, AlgoTicker(), RegisteredDecentralized(Algorand, FromAddress(t)),
      FreshVoid("Miner"), Algos(t.fee), BundleId(t))
  }

  /** The legs of `toAtomicTransactions`; the value leg reads currency, then receiver, then amount. */
  function PlannedLegs(t: AlgoAttributes, assets: map<int, AssetInfo>): Result<seq<Leg>, AlgoError> {
    if t.txType in ValueTypes then
      var currency :- Currency(t, assets);
      var to :- ToAddress(t);
      var amount :- Amount(t, assets);
      Ok([Leg(CreatedAtMs(t), "---------", currency, RegisteredDecentralized(Algorand, FromAddress(t)),
        RegisteredDecentralized(Algorand, to), amount, BundleId(t)), FeeLeg(t)])
    else
      Ok([FeeLeg(t)])
  }

  /** Only value-moving types can fail, and they fail on the first missing piece. */
  lemma PlannedLegsErrors(t: AlgoAttributes, assets: map<int, AssetInfo>)
    ensures PlannedLegs(t, assets).Err? <==>
      t.txType in ValueTypes && (Currency(t, assets).Err? || Receiver(t).None?)
    ensures PlannedLegs(t, assets).Err? ==>
      PlannedLegs(t, assets).error == (if Currency(t, assets).Err? then Currency(t, assets).error else ReceiverNotFound)
  {
    AmountAfterCurrency(t, assets);
  }

  /**
   * A successful plan: the fee leg comes last, in ALGO from the sender to a new miner
   * address; before it there is exactly one value leg when the type moves value.
   */
  lemma PlannedLegsLayout(t: AlgoAttributes, assets: map<int, AssetInfo>)
    requires PlannedLegs(t, assets).Ok?
    ensures var legs := PlannedLegs(t, assets).value;
      |legs| == (if t.txType in ValueTypes then 2 else 1) &&
      legs[|legs| - 1].action == PAY_FEE && legs[|legs| - 1].currency == "ALGO" &&
      legs[|legs| - 1].from == RegisteredDecentralized(Algorand, ToLower(t.sender)) &&
      legs[|legs| - 1].to == FreshVoid("Miner") &&
      legs[|legs| - 1].amount * 1000000.0 == t.fee as real &&
      (forall l | l in legs :: l.bundleId == BundleId(t) && l.ms == t.roundTime * 1000)
  {
  }

  /** The value leg goes from the sender to the receiver, in the currency and amount the record gives. */
  lemma ValueLeg(t: AlgoAttributes, assets: map<int, AssetInfo>)
    requires PlannedLegs(t, assets).Ok? && t.txType in ValueTypes
    ensures var l := PlannedLegs(t, assets).value[0];
      l.action != PAY_FEE &&
      l.from == RegisteredDecentralized(Algorand, ToLower(t.sender)) &&
      Receiver(t).Some? && l.to == RegisteredDecentralized(Algorand, ToLower(Receiver(t).value)) &&
      Ok(l.currency) == Currency(t, assets) && Ok(l.amount) == Amount(t, assets)
  {
  }

  /**
   * The status of `transactionBundle`: complete exactly for a transaction from a wallet to
   * itself (an asset opt-in); reading the receiver throws first if there is none.
   */
  function Status(t: AlgoAttributes): (r: Result<BundleStatus, AlgoError>)
    ensures r.Err? <==> Receiver(t).None?
    ensures r.Ok? ==> (r.value == Complete <==> ToLower(t.sender) == ToLower(Receiver(t).value))
  {
    var to :- ToAddress(t);
    Ok(if FromAddress(t) == to then Complete else Incomplete)
  }

  class AlgoExplorerTransaction {
    const attributes: AlgoAttributes
    const assetIndexToAssetMap: map<int, AssetInfo>
    var atomicTransactions: Option<seq<AtomicTransaction>>

    constructor (attributes: AlgoAttributes, assetIndexToAssetMap: map<int, AssetInfo>)
      ensures this.attributes == attributes && this.assetIndexToAssetMap == assetIndexToAssetMap
      ensures atomicTransactions == None
    {
      this.attributes := attributes;
      this.assetIndexToAssetMap := assetIndexToAssetMap;
      atomicTransactions := None;
    }

    /** `toAtomicTransactions()`, memoised. */
    method ToAtomicTransactions(regs: Registries) returns (r: Result<seq<AtomicTransaction>, AlgoError>)
      requires regs.Valid()
      modifies this, regs.voids, regs.platforms, regs.decentralized
      ensures regs.Valid()
      ensures old(atomicTransactions).Some? ==>
        r == Ok(old(atomicTransactions).value) && atomicTransactions == old(atomicTransactions) &&
        unchanged(regs.voids, regs.platforms, regs.decentralized)
      ensures old(atomicTransactions).None? && PlannedLegs(attributes, assetIndexToAssetMap).Err? ==>
        r == Err(PlannedLegs(attributes, assetIndexToAssetMap).error) && atomicTransactions == None
      ensures old(atomicTransactions).None? && PlannedLegs(attributes, assetIndexToAssetMap).Ok? ==>
        r.Ok? && regs.Realizes(PlannedLegs(attributes, assetIndexToAssetMap).value, r.value) &&
        atomicTransactions == Some(r.value) &&
        forall i | 0 <= i < |r.value| :: fresh(r.value[i].createdAt)
    {
      if atomicTransactions.Some? {
        return Ok(atomicTransactions.value);
      }
      var plan := PlannedLegs(attributes, assetIndexToAssetMap);
      if plan.Err? {
        return Err(plan.error);
      }
      var txs := regs.Realize(plan.value);
      atomicTransactions := Some(txs);
      return Ok(txs);
    }

    /** `transactionBundle()`: the status (and so the receiver) first, then the legs. */
    method Bundle(regs: Registries) returns (r: Result<TransactionBundle, AlgoError>)
      requires regs.Valid()
      modifies this, regs.voids, regs.platforms, regs.decentralized
      ensures regs.Valid()
      ensures Status(attributes).Err? ==>
        r == Err(ReceiverNotFound) && atomicTransactions == old(atomicTransactions)
      ensures r.Ok? ==>
        atomicTransactions.Some? && Status(attributes).Ok? &&
        r.value == TransactionBundle(atomicTransactions.value, Transfer, Status(attributes).value, BundleId(attributes), [])
      ensures old(atomicTransactions).None? && Status(attributes).Ok? ==>
        (r.Ok? <==> PlannedLegs(attributes, assetIndexToAssetMap).Ok?)
    {
      var status := Status(attributes);
      if status.Err? {
        return Err(status.error);
      }
      var txs := ToAtomicTransactions(regs);
      if txs.Err? {
        return Err(txs.error);
      }
      return Ok(TransactionBundle(txs.value, Transfer, status.value, BundleId(attributes), []));
    }
  }
}
