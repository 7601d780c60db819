/**
 * KuCoin `LedgerEntry`: one line of the account ledger. Its `bizType` decides the bundle's
 * action and status, the correlation `bundleId`, which directions and fees are allowed, and
 * which legs the entry stands for.
 */
module KucoinLedger {
  import opened Wrappers
  import opened Records
  import opened Addresses
  import opened AtomicTransactions
  import opened Bundles
  import opened Legs

  /** The parsed `context` JSON; a missing or empty id is JavaScript-falsy. */
  datatype Context = Context(tradeId: Option<string>, smallCurrencyExchangeId: Option<string>)

  /**
   * The raw attributes: `keys` is `Object.keys(attributes)`; `amount` and `fee` are the
   * values `parseFloat` reads from their strings; `createdAt` is epoch milliseconds.
   */
  datatype LedgerAttributes = LedgerAttributes(
    keys: set<string>,
    id: string,
    currency: string,
    amount: real,
    fee: real,
    bizType: string,
    direction: string,
    createdAt: int,
    context: Option<Context>)

  /** The `throw`s of the entry, one per distinct condition. */
  datatype KucoinError =
    | UnexpectedKeys
    | ZeroAmount
    | MissingTradeId
    | MissingSmallCurrencyExchangeId
    | UnexpectedBizType
    | WrongDirection
    | UnexpectedFee

  const RequiredKeys: set<string> :=
    {"id", "currency", "amount", "fee", "balance", "accountType", "bizType", "direction", "createdAt", "context"}

  /** The bizTypes the entry knows; every other one throws. */
  const KnownBizTypes: set<string> :=
    {"Exchange", "Convert to KCS", "Soft Staking Profits", "Staking Profits", "Rewards",
     "Deposit", "Withdrawal", "Redemption", "Staking", "Transfer"}

  /** The bizTypes whose entries move nothing out of the user's custody. */
  const NoLegBizTypes: set<string> := {"Redemption", "Staking", "Transfer"}

  /** The bizTypes with a single income leg: three source builders with one behaviour. */
  const IncomeBizTypes: set<string> := {"Rewards", "Soft Staking Profits", "Staking Profits"}

  /** The user's KuCoin account, registered without a `controlled` flag. */
  function Account(nickname: string): Endpoint {
    RegisteredPlatform(KuCoin, nickname)
  }

  /** `VoidAddress.getInstance({ note: 'Kucoin' })`: the exchange itself. */
  const KucoinVoid: Endpoint := RegisteredVoid("Kucoin")

  /** The outside world for deposits and withdrawals of a currency. */
  function OtherAddress(currency: string): Endpoint {
    RegisteredVoid("Other " + currency + " address")
  }

  predicate HasTradeId(e: LedgerAttributes) {
    e.context.Some? && Present(e.context.value.tradeId)
  }

  predicate HasSmallCurrencyExchangeId(e: LedgerAttributes) {
    e.context.Some? && Present(e.context.value.smallCurrencyExchangeId)
  }

  /** The `bundleId` getter: a prefix chosen by bizType, then the correlated id. */
  function BundleId(e: LedgerAttributes): Result<string, KucoinError> {
    if e.bizType == "Exchange" then
      if !HasTradeId(e) then Err(MissingTradeId)
      else Ok(BundleIdPrefix(e.bizType) + e.context.value.tradeId.value)
    else if e.bizType == "Convert to KCS" then
      if !HasSmallCurrencyExchangeId(e) then Err(MissingSmallCurrencyExchangeId)
      else Ok(BundleIdPrefix(e.bizType) + e.context.value.smallCurrencyExchangeId.value)
    else Ok(BundleIdPrefix(e.bizType) + e.id)
  }

  /** What a `bundleId` correlates: a trade, a small-currency exchange, or the entry alone. */
  datatype Correlation = ByTrade(tradeId: string) | BySmallExchange(exchangeId: string) | ByEntry(entryId: string)

  function CorrelationOf(e: LedgerAttributes): Correlation {
    if e.bizType == "Exchange" then ByTrade(if HasTradeId(e) then e.context.value.tradeId.value else "")
    else if e.bizType == "Convert to KCS" then
      BySmallExchange(if HasSmallCurrencyExchangeId(e) then e.context.value.smallCurrencyExchangeId.value else "")
    else ByEntry(e.id)
  }

  lemma {:induction false} StripPrefix(p: string, a: string, b: string)
    requires p + a == p + b
    ensures a == b
  {
    assert (p + a)[|p|..] == a;
    assert (p + b)[|p|..] == b;
  }

  /** The fixed part of the entry's `bundleId`, chosen by its bizType. */
  function BundleIdPrefix(bizType: string): string {
    if bizType == "Exchange" then PlatformName(KuCoin) + "-trade_id-"
    else if bizType == "Convert to KCS" then PlatformName(KuCoin) + "-small_currency_exchange_id-"
    else PlatformName(KuCoin) + "-ledger_entry_id-"
  }

  function CorrelationKey(c: Correlation): string {
    match c
    case ByTrade(k) => k
    case BySmallExchange(k) => k
    case ByEntry(k) => k
  }

  lemma BundleIdSplits(e: LedgerAttributes)
    requires BundleId(e).Ok?
    ensures BundleId(e).value == BundleIdPrefix(e.bizType) + CorrelationKey(CorrelationOf(e))
  {
  }

  /** Character 7 of the prefix tells the three kinds of `bundleId` apart. */
  lemma PrefixTag(bizType: string)
    ensures |BundleIdPrefix(bizType)| > 7
    ensures BundleIdPrefix(bizType)[7] == 't' <==> bizType == "Exchange"
    ensures BundleIdPrefix(bizType)[7] == 's' <==> bizType == "Convert to KCS"
  {
  }

  /**
   * Two entries get the same `bundleId` only when they correlate the same thing: the three
   * prefixes never collide, and each id is recoverable from its `bundleId`.
   */
  lemma BundleIdIdentifiesCorrelation(a: LedgerAttributes, b: LedgerAttributes)
    requires BundleId(a).Ok? && BundleId(a) == BundleId(b)
    ensures CorrelationOf(a) == CorrelationOf(b)
  {
    var pa, pb := BundleIdPrefix(a.bizType), BundleIdPrefix(b.bizType);
    BundleIdSplits(a);
    BundleIdSplits(b);
    PrefixTag(a.bizType);
    PrefixTag(b.bizType);
    var s := BundleId(a).value;
    assert s[7] == pa[7] && s[7] == pb[7];
    assert pa == pb;
    StripPrefix(pa, CorrelationKey(CorrelationOf(a)), CorrelationKey(CorrelationOf(b)));
  }

  /** The `transactionBundle` switch: action and status per bizType. */
  function BundleShape(bizType: string): Result<(BundleAction, BundleStatus), KucoinError> {
    if bizType == "Exchange" || bizType == "Convert to KCS" then Ok((Trade, Incomplete))
    else if bizType in IncomeBizTypes then Ok((GetFree, Complete))
    else if bizType == "Deposit" || bizType == "Withdrawal" then Ok((Transfer, Incomplete))
    else if bizType in NoLegBizTypes then Ok((NoOp, Complete))
    else Err(UnexpectedBizType)
  }

  /** One leg of the entry: `this.amount` (which throws on 0) then `this.bundleId`. */
  function EntryLeg(e: LedgerAttributes, action: string, from: Endpoint, to: Endpoint): Result<Leg, KucoinError> {
    if e.amount == 0.0 then Err(ZeroAmount)
    else
      var id := BundleId(e);
      if id.Err? then Err(id.error)
      else Ok(Leg(e.createdAt, action, e.currency, from, to, e.amount, id.value))
  }

  /** The optional fee leg and a main leg, in that order; the fee leg is built, and may throw, first. */
  function WithFee(e: LedgerAttributes, nickname: string, main: Result<Leg, KucoinError>): Result<seq<Leg>, KucoinError> {
    var fee := EntryLeg(e, PAY_FEE, Account(nickname), KucoinVoid);
    if e.fee > 0.0 && fee.Err? then Err(fee.error)
    else if main.Err? then Err(main.error)
    else Ok((if e.fee > 0.0 then [fee.value] else []) + [main.value])
  }

  /** `exchange()`: the fee leg carries `this.amount`, not `this.fee`. */
  function Exchange(e: LedgerAttributes, nickname: string): Result<seq<Leg>, KucoinError> {
    // `this.context.tradeId` on a null context throws as well.
    if !HasTradeId(e) then Err(MissingTradeId)
    else if e.direction == "in" then WithFee(e, nickname, EntryLeg(e, "----------", KucoinVoid, Account(nickname)))
    else WithFee(e, nickname, EntryLeg(e, "----------", Account(nickname), KucoinVoid))
  }

  /** `withdrawal()`. */
  function Withdrawal(e: LedgerAttributes, nickname: string): Result<seq<Leg>, KucoinError> {
    if e.direction == "in" then Err(WrongDirection)
    else WithFee(e, nickname, EntryLeg(e, "--------", Account(nickname), OtherAddress(e.currency)))
  }

  /** `deposit()`. */
  function Deposit(e: LedgerAttributes, nickname: string): Result<seq<Leg>, KucoinError> {
    if e.direction == "out" then Err(WrongDirection)
    else if e.fee > 0.0 then Err(UnexpectedFee)
    else
      var leg := EntryLeg(e, "--------", OtherAddress(e.currency), Account(nickname));
      if leg.Err? then Err(leg.error) else Ok([leg.value])
  }

  /** `convertToKCS()`: the fee is checked before anything else; no direction is refused. */
  function ConvertToKcs(e: LedgerAttributes, nickname: string): Result<seq<Leg>, KucoinError> {
    if e.fee > 0.0 then Err(UnexpectedFee)
    else
      var leg := if e.direction == "in" then EntryLeg(e, "--------", KucoinVoid, Account(nickname))
        else EntryLeg(e, "--------", Account(nickname), KucoinVoid);
      if leg.Err? then Err(leg.error) else Ok([leg.value])
  }

  /** `rewards()`, `softStakingProfits()` and `stakingProfits()`. */
  function Income(e: LedgerAttributes, nickname: string): Result<seq<Leg>, KucoinError> {
    if e.direction == "out" then Err(WrongDirection)
    else if e.fee > 0.0 then Err(UnexpectedFee)
    else
      var leg := EntryLeg(e, "----------", KucoinVoid, Account(nickname));
      if leg.Err? then Err(leg.error) else Ok([leg.value])
  }

  /** `redemption()`, `staking()` and `transfer()`: guards only, no legs. */
  function NoLegs(e: LedgerAttributes): Result<seq<Leg>, KucoinError> {
    if e.bizType == "Redemption" && e.direction == "out" then Err(WrongDirection)
    else if e.bizType == "Staking" && e.direction == "in" then Err(WrongDirection)
    else if e.fee > 0.0 then Err(UnexpectedFee)
    else Ok([])
  }

  /** The planned legs of `toAtomicTransactions`, dispatched on `bizType`. */
  function PlannedLegs(e: LedgerAttributes, nickname: string): Result<seq<Leg>, KucoinError> {
    if e.bizType == "Convert to KCS" then ConvertToKcs(e, nickname)
    else if e.bizType == "Deposit" then Deposit(e, nickname)
    else if e.bizType == "Exchange" then Exchange(e, nickname)
    else if e.bizType in IncomeBizTypes then Income(e, nickname)
    else if e.bizType in NoLegBizTypes then NoLegs(e)
    else if e.bizType == "Withdrawal" then Withdrawal(e, nickname)
    else Err(UnexpectedBizType)
  }

  /** The action/status table of `transactionBundle`, each row in both directions. */
  lemma ShapeTable(bizType: string)
    ensures BundleShape(bizType) == Ok((Trade, Incomplete)) <==> bizType in {"Exchange", "Convert to KCS"}
    ensures BundleShape(bizType) == Ok((GetFree, Complete)) <==> bizType in IncomeBizTypes
    ensures BundleShape(bizType) == Ok((Transfer, Incomplete)) <==> bizType in {"Deposit", "Withdrawal"}
    ensures BundleShape(bizType) == Ok((NoOp, Complete)) <==> bizType in NoLegBizTypes
    ensures BundleShape(bizType).Err? <==> bizType !in KnownBizTypes
  {
  }

  /** The bundle switch and the legs switch refuse exactly the same bizTypes. */
  lemma ShapeAndLegsAgree(e: LedgerAttributes, nickname: string)
    ensures BundleShape(e.bizType).Err? <==> PlannedLegs(e, nickname) == Err(UnexpectedBizType)
  {
  }

  /** Which directions each bizType refuses. */
  lemma DirectionGuards(e: LedgerAttributes, nickname: string)
    ensures e.bizType in IncomeBizTypes + {"Deposit", "Redemption"} && e.direction == "out" ==>
      PlannedLegs(e, nickname) == Err(WrongDirection)
    ensures e.bizType in {"Staking", "Withdrawal"} && e.direction == "in" ==>
      PlannedLegs(e, nickname) == Err(WrongDirection)
    ensures PlannedLegs(e, nickname) == Err(WrongDirection) ==>
      (e.bizType in IncomeBizTypes + {"Deposit", "Redemption"} && e.direction == "out") ||
      (e.bizType in {"Staking", "Withdrawal"} && e.direction == "in")
  {
  }

  /** The direction guard of the entry's bizType lets it through. */
  predicate DirectionAllowed(e: LedgerAttributes) {
    !(e.bizType in IncomeBizTypes + {"Deposit", "Redemption"} && e.direction == "out") &&
    !(e.bizType in {"Staking", "Withdrawal"} && e.direction == "in")
  }

  /** A positive fee is refused for every known bizType but Exchange and Withdrawal. */
  lemma FeeGuard(e: LedgerAttributes, nickname: string)
    requires e.fee > 0.0 && e.bizType in KnownBizTypes - {"Exchange", "Withdrawal"}
    requires DirectionAllowed(e)
    ensures PlannedLegs(e, nickname) == Err(UnexpectedFee)
  {
  }

  /** Exactly Redemption, Staking and Transfer produce no legs. */
  lemma NoLegsExactly(e: LedgerAttributes, nickname: string)
    requires PlannedLegs(e, nickname).Ok?
    ensures PlannedLegs(e, nickname).value == [] <==> e.bizType in NoLegBizTypes
  {
  }

  /** Every leg carries the entry's instant, currency, non-zero amount and `bundleId`. */
  lemma LegsDescribeEntry(e: LedgerAttributes, nickname: string)
    requires PlannedLegs(e, nickname).Ok?
    ensures BundleId(e).Ok?
    ensures forall l | l in PlannedLegs(e, nickname).value ::
      l.ms == e.createdAt && l.currency == e.currency && l.amount == e.amount && l.amount != 0.0 &&
      l.bundleId == BundleId(e).value
  {
  }

  /**
   * Exchange and Withdrawal entries with a positive fee start with a fee leg from the
   * account to the exchange, whose amount is the entry's amount, not its fee; no other
   * leg of any entry is a fee payment.
   */
  lemma FeeLegFirst(e: LedgerAttributes, nickname: string)
    requires PlannedLegs(e, nickname).Ok?
    ensures var legs := PlannedLegs(e, nickname).value;
      (e.bizType in {"Exchange", "Withdrawal"} && e.fee > 0.0 ==>
        |legs| == 2 && legs[0].action == PAY_FEE && legs[0].from == Account(nickname) &&
        legs[0].to == KucoinVoid && legs[0].amount == e.amount) &&
      (e.bizType in {"Exchange", "Withdrawal"} && e.fee <= 0.0 ==> |legs| == 1) &&
      (e.bizType !in NoLegBizTypes ==> legs[|legs| - 1].action != PAY_FEE) &&
      (e.bizType !in {"Exchange", "Withdrawal"} ==> |legs| <= 1 && forall l | l in legs :: l.action != PAY_FEE)
  {
  }

  /** With direction `in` or `out`, the main leg enters the account exactly when the direction is `in`. */
  lemma MainLegOrientation(e: LedgerAttributes, nickname: string)
    requires PlannedLegs(e, nickname).Ok? && PlannedLegs(e, nickname).value != []
    requires e.direction == "in" || e.direction == "out"
    ensures var legs := PlannedLegs(e, nickname).value;
      (legs[|legs| - 1].to == Account(nickname) <==> e.direction == "in") &&
      (legs[|legs| - 1].from == Account(nickname) <==> e.direction == "out")
  {
  }

  /** A successful plan never leaves the `bundleId` getter to throw afterwards. */
  lemma PlannedLegsFixBundleId(e: LedgerAttributes, nickname: string)
    requires PlannedLegs(e, nickname).Ok?
    ensures BundleId(e).Ok?
  {
  }

  class LedgerEntry {
    const attributes: LedgerAttributes
    const accountNickname: string
    /** The memo `toAtomicTransactions` fills; `None` is `null`. */
    var atomicTransactions: Option<seq<AtomicTransaction>>

    constructor (attributes: LedgerAttributes, accountNickname: string)
      requires KeysMatch(attributes.keys, RequiredKeys)
      ensures this.attributes == attributes && this.accountNickname == accountNickname
      ensures atomicTransactions == None
    {
      this.attributes := attributes;
      this.accountNickname := accountNickname;
      atomicTransactions := None;
    }

    /** `toAtomicTransactions()`: the stored array if there is one, else the plan built and stored. */
    method ToAtomicTransactions(regs: Registries) returns (r: Result<seq<AtomicTransaction>, KucoinError>)
      requires regs.Valid()
      modifies this, regs.voids, regs.platforms, regs.decentralized
      ensures regs.Valid()
      ensures old(atomicTransactions).Some? ==>
        r == Ok(old(atomicTransactions).value) && atomicTransactions == old(atomicTransactions) &&
        unchanged(regs.voids, regs.platforms, regs.decentralized)
      ensures old(atomicTransactions).None? && PlannedLegs(attributes, accountNickname).Err? ==>
        r == Err(PlannedLegs(attributes, accountNickname).error) && atomicTransactions == None
      ensures old(atomicTransactions).None? && PlannedLegs(attributes, accountNickname).Ok? ==>
        r.Ok? && regs.Realizes(PlannedLegs(attributes, accountNickname).value, r.value) &&
        atomicTransactions == Some(r.value) &&
        forall i | 0 <= i < |r.value| :: fresh(r.value[i].createdAt)
    {
      if atomicTransactions.Some? {
        return Ok(atomicTransactions.value);
      }
      var plan := PlannedLegs(attributes, accountNickname);
      if plan.Err? {
        return Err(plan.error);
      }
      var txs := regs.Realize(plan.value);
      atomicTransactions := Some(txs);
      return Ok(txs);
    }

    /** `transactionBundle()`: the bizType switch runs first, then the legs, then `bundleId`. */
    method Bundle(regs: Registries) returns (r: Result<TransactionBundle, KucoinError>)
      requires regs.Valid()
      modifies this, regs.voids, regs.platforms, regs.decentralized
      ensures regs.Valid()
      ensures BundleShape(attributes.bizType).Err? ==>
        r == Err(UnexpectedBizType) && atomicTransactions == old(atomicTransactions)
      ensures r.Ok? ==>
        atomicTransactions.Some? && BundleId(attributes).Ok? &&
        r.value == TransactionBundle(atomicTransactions.value, BundleShape(attributes.bizType).value.0,
          BundleShape(attributes.bizType).value.1, BundleId(attributes).value, [])
      ensures old(atomicTransactions).None? && BundleShape(attributes.bizType).Ok? ==>
        (r.Ok? <==> PlannedLegs(attributes, accountNickname).Ok?)
    {
      var shape := BundleShape(attributes.bizType);
      if shape.Err? {
        return Err(shape.error);
      }
      var txs := ToAtomicTransactions(regs);
      if txs.Err? {
        return Err(txs.error);
      }
      var id := BundleId(attributes);
      if id.Err? {
        return Err(id.error);
      }
      return Ok(TransactionBundle(txs.value, shape.value.0, shape.value.1, id.value, []));
    }
  }

  /** `new LedgerEntry(...)`: throws unless the attribute keys are exactly the ten required. */
  method NewLedgerEntry(attributes: LedgerAttributes, accountNickname: string) returns (r: Result<LedgerEntry, KucoinError>)
    ensures r.Err? <==> attributes.keys != RequiredKeys
    ensures r.Err? ==> r.error == UnexpectedKeys
    ensures r.Ok? ==>
      fresh(r.value) && r.value.attributes == attributes &&
      r.value.accountNickname == accountNickname && r.value.atomicTransactions == None
  {
    KeysMatchIff(attributes.keys, RequiredKeys);
    if !KeysMatch(attributes.keys, RequiredKeys) {
      return Err(UnexpectedKeys);
    }
    var entry := new LedgerEntry(attributes, accountNickname);
    return Ok(entry);
  }
}
