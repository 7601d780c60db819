/**
 * `getTaxableEvents` (the US implementation): per bundle action, the cost-basis operations
 * it performs on the shared master tracker and the summary it returns.
 *
 * The pure functions below say what a call returns and which lots every tracker holds
 * afterwards; the methods perform the same steps on a `MasterCostBasisTracker` object.
 * The bundle code calls `getPrice` on a leg's currency and `getCost` on the fee leg. Neither
 * is defined on the source's currency or atomic transaction; both would come from remote
 * price feeds, so the model takes a price and a fee cost as parameters.
 */
module TaxableEvents {
  import opened Wrappers
  import opened Numbers
  import opened Collections
  import opened Addresses
  import opened AtomicTransactions
  import opened Currencies
  import opened Bundles
  import opened Heaps
  import opened CostBasis
  import opened MasterCostBasis

  /** The price of a ticker at an instant (`None`: the invalid date of an empty bundle). */
  type PriceFeed = (string, Option<int>) -> real
  /** The fiat cost of a fee leg. */
  type FeeCost = AtomicTransaction -> real

  /** The five summary shapes; currencies are tickers. */
  datatype Summary =
    | TransferToSelfSummary(timestamp: Option<int>, currency: string, amount: real,
        from: Address, to: Address, feeAmount: real, feeCurrency: string,
        feeDestructionHistory: seq<Update>, transactionIds: seq<string>)
    | BuySummary(timestamp: Option<int>, currency: string, amount: real,
        fiatAmount: real, fiatCurrency: string, transactionIds: seq<string>, to: Address,
        feeAmount: real, feeCurrency: string, feeConsumptionHistory: seq<Update>)
    | SellSummary(timestamp: Option<int>, currency: string, amount: real,
        fiatAmount: real, fiatCurrency: string, transactionIds: seq<string>, from: Address,
        feeAmount: real, feeCurrency: string, feeConsumptionHistory: seq<Update>,
        consumptions: seq<Update>, benefit: real)
    | SwapSummary(timestamp: Option<int>, currencyOut: string, amountOut: real,
        currencyIn: string, amountIn: real, transactionIds: seq<string>, from: Address, to: Address,
        feeAmount: real, feeCurrency: string, feeConsumptionHistory: seq<Update>,
        consumptions: seq<Update>, benefit: real)
    | GetFreeSummary(timestamp: Option<int>, gain: seq<CurrencyAmount>, transactionIds: seq<string>,
        to: Address, benefit: real, feeDestructionHistory: seq<Update>)

  /** Every way `getTaxableEvents` throws (the `catch` logs the bundle and rethrows). */
  datatype TaxError =
    | BundleFault(cause: BundleError)   // from the `feeTransaction` getter
    | TransferLegCount                  // more than one outbound or inbound currency
    | TransferLegMissing
    | TransferCurrencyMismatch
    | TransferAmountMismatch            // amounts differ by more than the relative tolerance
    | TransferEndpointsMissing
    | TradeLegCount
    | TradeLegMissing                   // the `TypeError` of reading `.currency` of `undefined`
    | TradeSameCurrency
    | TradeBetweenFiat
    | BuyRecipientMissing
    | SellSenderMissing
    | SwapEndpointsMissing
    | GetFreeOutbound
    | GetFreeRecipientMissing

  /** The `from` of the first leg sent from a controlled address: `find((t) => t.from.controlled)?.from`. */
  function FirstFrom(txs: seq<AtomicTransaction>): (r: Option<Address>)
    ensures r.Some? <==> exists i | 0 <= i < |txs| :: txs[i].from.controlled
    ensures r.Some? ==> r.value.controlled && exists i | 0 <= i < |txs| :: txs[i].from == r.value
  {
    if txs == [] then None
    else if txs[0].from.controlled then Some(txs[0].from)
    else FirstFrom(txs[1..])
  }

  /** The `to` of the first leg received by a controlled address. */
  function FirstTo(txs: seq<AtomicTransaction>): (r: Option<Address>)
    ensures r.Some? <==> exists i | 0 <= i < |txs| :: txs[i].to.controlled
    ensures r.Some? ==> r.value.controlled && exists i | 0 <= i < |txs| :: txs[i].to == r.value
  {
    if txs == [] then None
    else if txs[0].to.controlled then Some(txs[0].to)
    else FirstTo(txs[1..])
  }

  /**
   * The transfer-to-self amount check: `|in - out| / ((in + out) / 2) > 1e-6`. A zero mean
   * gives `NaN` (no error) when the amounts agree and `Infinity` (an error) when they do not.
   */
  predicate AmountsDisagree(inAmount: real, outAmount: real) {
    var mean := (inAmount + outAmount) / 2.0;
    var diff := Abs(inAmount - outAmount);
    if mean == 0.0 then diff > 0.0 else diff / mean > Tolerance
  }

  /** Equal amounts always pass, and the check does not depend on which side is inbound. */
  lemma AmountsDisagreeSymmetric(inAmount: real, outAmount: real)
    ensures !AmountsDisagree(inAmount, inAmount)
    ensures AmountsDisagree(inAmount, outAmount) == AmountsDisagree(outAmount, inAmount)
  {
    assert Abs(inAmount - outAmount) == Abs(outAmount - inAmount);
    assert (inAmount + outAmount) / 2.0 == (outAmount + inAmount) / 2.0;
  }

  /** For positive amounts the check is a bound on the difference relative to the mean. */
  lemma AmountsDisagreePositive(inAmount: real, outAmount: real)
    requires inAmount > 0.0 && outAmount > 0.0
    ensures AmountsDisagree(inAmount, outAmount) <==>
      Abs(inAmount - outAmount) > Tolerance * ((inAmount + outAmount) / 2.0)
  {
    DivExceeds(Abs(inAmount - outAmount), Tolerance, (inAmount + outAmount) / 2.0);
  }

  lemma DivExceeds(diff: real, t: real, mean: real)
    requires mean > 0.0
    ensures diff / mean > t <==> diff > t * mean
  {
    var q := diff / mean;
    assert q * mean == diff;
    if q > t {
      assert (q - t) * mean > 0.0;
      assert q * mean - t * mean > 0.0;
    } else {
      assert (t - q) * mean >= 0.0;
      assert t * mean - q * mean >= 0.0;
    }
  }

  /** `fee && !fee.currency.isFiat`: the fee consumption of a trade. */
  function ConsumeFee(m: Lots, fee: Option<AtomicTransaction>): (seq<Update>, Lots) {
    if fee.Some? && !IsFiat(fee.value.currency) then ConsumeIn(m, fee.value.currency, fee.value.amount)
    else ([], m)
  }

  /** `fee ? await fee.getCost() : 0`. */
  function FeeCostOf(fee: Option<AtomicTransaction>, getCost: FeeCost): real {
    if fee.Some? then getCost(fee.value) else 0.0
  }

  /** `fee?.amount || 0`. */
  function FeeAmount(fee: Option<AtomicTransaction>): real {
    if fee.Some? then fee.value.amount else 0.0
  }

  /** `fee?.currency || Currency.getInstance({ ticker: 'USD' })`. */
  function FeeCurrency(fee: Option<AtomicTransaction>): string {
    if fee.Some? then fee.value.currency else "USD"
  }

  /**
   * The bundle getters the branches read. They are pure, so reading each once gives the
   * values the repeated reads in the source give.
   */
  datatype View = View(
    outs: seq<CurrencyAmount>,         // amountsOutPerCurrency
    ins: seq<CurrencyAmount>,          // amountsInPerCurrency
    fee: Option<AtomicTransaction>,    // feeTransaction, when it does not throw
    timestamp: Option<int>,
    ids: seq<string>,                  // transactionIds
    anyFrom: Option<Address>,          // atomicTransactions.find(from controlled)?.from
    anyTo: Option<Address>,            // atomicTransactions.find(to controlled)?.to
    nonFeeFrom: Option<Address>,       // nonFeeTransactions.find(from controlled)?.from
    nonFeeTo: Option<Address>)         // nonFeeTransactions.find(to controlled)?.to

  function ViewOf(b: TransactionBundle, fee: Option<AtomicTransaction>): View {
    var nf := NonFee(b.atomicTransactions);
    View(AmountsOut(b), AmountsIn(b), fee, Timestamp(b), TransactionIds(b),
      FirstFrom(b.atomicTransactions), FirstTo(b.atomicTransactions), FirstFrom(nf), FirstTo(nf))
  }

  /** The `transferToSelf` branch. */
  function TransferToSelfEvent(m: Lots, v: View): (Result<Option<Summary>, TaxError>, Lots) {
    if |v.outs| > 1 || |v.ins| > 1 then (Err(TransferLegCount), m)
    else if |v.outs| == 0 || |v.ins| == 0 then (Err(TransferLegMissing), m)
    else if v.ins[0].ticker != v.outs[0].ticker then (Err(TransferCurrencyMismatch), m)
    else if AmountsDisagree(v.ins[0].amount, v.outs[0].amount) then (Err(TransferAmountMismatch), m)
    else if v.fee.None? then (Ok(None), m)
    else
      var amount := (v.ins[0].amount + v.outs[0].amount) / 2.0;
      var destroyed := DestroyIn(m, v.fee.value.currency, v.fee.value.amount);
      if v.nonFeeFrom.None? || v.nonFeeTo.None? then (Err(TransferEndpointsMissing), destroyed.1)
      else
        (Ok(Some(TransferToSelfSummary(v.timestamp, v.ins[0].ticker, amount, v.nonFeeFrom.value,
           v.nonFeeTo.value, v.fee.value.amount, v.fee.value.currency, destroyed.0, v.ids))), destroyed.1)
  }

  /** The price a purchase records: fiat paid plus the fee's cost, per unit received. */
  function PurchasePrice(o: CurrencyAmount, i: CurrencyAmount, feeCost: real): real {
    Div(o.amount + feeCost, i.amount)
  }

  /** The purchase branch of a trade: fiat out, crypto in. */
  function PurchaseEvent(b: TransactionBundle, m: Lots, v: View, feeCost: real)
    : (Result<Option<Summary>, TaxError>, Lots)
    requires |v.outs| > 0 && |v.ins| > 0
  {
    var o := v.outs[0];
    var i := v.ins[0];
    var accrued := AccrueIn(m, i.ticker, i.amount, PurchasePrice(o, i, feeCost), b).1;
    var fees := ConsumeFee(accrued, v.fee);
    if v.anyTo.None? then (Err(BuyRecipientMissing), fees.1)
    else
      (Ok(Some(BuySummary(v.timestamp, i.ticker, i.amount, o.amount, o.ticker, v.ids, v.anyTo.value,
         FeeAmount(v.fee), FeeCurrency(v.fee), fees.0))), fees.1)
  }

  /** The sale branch of a trade: crypto out, fiat in. */
  function SaleEvent(m: Lots, v: View, feeCost: real): (Result<Option<Summary>, TaxError>, Lots)
    requires |v.outs| > 0 && |v.ins| > 0
  {
    var o := v.outs[0];
    var i := v.ins[0];
    var sold := ConsumeIn(m, o.ticker, o.amount);
    var fees := ConsumeFee(sold.1, v.fee);
    if v.anyFrom.None? then (Err(SellSenderMissing), fees.1)
    else
      (Ok(Some(SellSummary(v.timestamp, o.ticker, o.amount, i.amount, i.ticker, v.ids, v.anyFrom.value,
         FeeAmount(v.fee), FeeCurrency(v.fee), fees.0, sold.0, i.amount - CostOf(sold.0) - feeCost))), fees.1)
  }

  /**
   * The tracker updates of a swap, in the source's order: accrue the inbound coin at
   * `price`, consume the outbound coin, then consume the fee. Yields the consumptions of
   * the outbound coin, those of the fee, and the lots afterwards.
   */
  function SwapMoves(b: TransactionBundle, m: Lots, o: CurrencyAmount, i: CurrencyAmount, price: real,
                     fee: Option<AtomicTransaction>): (seq<Update>, seq<Update>, Lots)
  {
    var accrued := AccrueIn(m, i.ticker, i.amount, price, b).1;
    var sold := ConsumeIn(accrued, o.ticker, o.amount);
    var fees := ConsumeFee(sold.1, fee);
    (sold.0, fees.0, fees.1)
  }

  /** The swap branch of a trade: crypto for crypto; the acquired coin is valued at its market price. */
  function SwapEvent(b: TransactionBundle, m: Lots, v: View, feeCost: real, getPrice: PriceFeed)
    : (Result<Option<Summary>, TaxError>, Lots)
    requires |v.outs| > 0 && |v.ins| > 0
  {
    var o := v.outs[0];
    var i := v.ins[0];
    if v.nonFeeTo.None? || v.nonFeeFrom.None? then (Err(SwapEndpointsMissing), m)
    else
      var moves := SwapMoves(b, m, o, i, getPrice(i.ticker, v.timestamp), v.fee);
      (Ok(Some(SwapSummary(v.timestamp, o.ticker, o.amount, i.ticker, i.amount, v.ids, v.nonFeeFrom.value,
         v.nonFeeTo.value, FeeAmount(v.fee), FeeCurrency(v.fee), moves.1, moves.0,
         MarketValue(i, getPrice, v.timestamp) - CostOf(moves.0) - feeCost))), moves.2)
  }

  /** The `trade` branch. */
  function TradeEvent(b: TransactionBundle, m: Lots, v: View, getPrice: PriceFeed, getCost: FeeCost)
    : (Result<Option<Summary>, TaxError>, Lots)
  {
    if |v.outs| > 1 || |v.ins| > 1 then (Err(TradeLegCount), m)
    else if |v.outs| == 0 || |v.ins| == 0 then (Err(TradeLegMissing), m)
    else if v.ins[0].ticker == v.outs[0].ticker then (Err(TradeSameCurrency), m)
    else if IsFiat(v.outs[0].ticker) && IsFiat(v.ins[0].ticker) then (Err(TradeBetweenFiat), m)
    else
      var feeCost := FeeCostOf(v.fee, getCost);
      if IsFiat(v.outs[0].ticker) then PurchaseEvent(b, m, v, feeCost)
      else if IsFiat(v.ins[0].ticker) then SaleEvent(m, v, feeCost)
      else SwapEvent(b, m, v, feeCost, getPrice)
  }

  /** The lots after accruing every entry of `ins` at price 0, in order. */
  function AccrueAll(m: Lots, ins: seq<CurrencyAmount>, b: TransactionBundle): Lots
    decreases |ins|
  {
    if ins == [] then m
    else
      var last := ins[|ins| - 1];
      AccrueIn(AccrueAll(m, ins[..|ins| - 1], b), last.ticker, last.amount, 0.0, b).1
  }

  /** `getPrice(ticker, at) × amount`. */
  function MarketValue(c: CurrencyAmount, getPrice: PriceFeed, at: Option<int>): real {
    getPrice(c.ticker, at) * c.amount
  }

  /** The market value of every entry of `ins`, summed left to right. */
  function GainValue(ins: seq<CurrencyAmount>, getPrice: PriceFeed, at: Option<int>): real
    decreases |ins|
  {
    if ins == [] then 0.0
    else GainValue(ins[..|ins| - 1], getPrice, at) + MarketValue(ins[|ins| - 1], getPrice, at)
  }

  /** `destroy` of the fee, when there is one. */
  function DestroyFee(m: Lots, fee: Option<AtomicTransaction>): (seq<Update>, Lots) {
    if fee.Some? then DestroyIn(m, fee.value.currency, fee.value.amount) else ([], m)
  }

  /** The `getFree` branch. */
  function GetFreeEvent(b: TransactionBundle, m: Lots, v: View, getPrice: PriceFeed, getCost: FeeCost)
    : (Result<Option<Summary>, TaxError>, Lots)
  {
    if |v.outs| > 0 then (Err(GetFreeOutbound), m)
    else if v.nonFeeTo.None? then (Err(GetFreeRecipientMissing), m)
    else
      var destroyed := DestroyFee(m, v.fee);
      var benefit := GainValue(v.ins, getPrice, v.timestamp) - FeeCostOf(v.fee, getCost);
      (Ok(Some(GetFreeSummary(v.timestamp, v.ins, v.ids, v.nonFeeTo.value, benefit, destroyed.0))),
       AccrueAll(destroyed.1, v.ins, b))
  }

  /** The branches by action, once the fee getter has succeeded. */
  function ActionEvent(b: TransactionBundle, m: Lots, v: View, getPrice: PriceFeed, getCost: FeeCost)
    : (Result<Option<Summary>, TaxError>, Lots)
  {
    match b.action
    case TransferToSelf => TransferToSelfEvent(m, v)
    case Trade => TradeEvent(b, m, v, getPrice, getCost)
    case GetFree => GetFreeEvent(b, m, v, getPrice, getCost)
    case _ => (Ok(None), m)
  }

  /** `getTaxableEvents()`: the result and the lots the master tracker holds afterwards. */
  function TaxSpec(b: TransactionBundle, m: Lots, getPrice: PriceFeed, getCost: FeeCost)
    : (Result<Option<Summary>, TaxError>, Lots)
  {
    var feeResult := FeeTransaction(b);
    if feeResult.Err? then (Err(BundleFault(feeResult.error)), m)
    else ActionEvent(b, m, ViewOf(b, feeResult.value), getPrice, getCost)
  }

  // ---------------------------------------------------------------------------------------
  // Properties

  /** The finds a branch needs succeed whenever there is an entry on the matching side. */
  predicate EndpointsPresent(v: View) {
    (|v.outs| > 0 ==> v.anyFrom.Some? && v.nonFeeFrom.Some?) &&
    (|v.ins| > 0 ==> v.anyTo.Some? && v.nonFeeTo.Some?)
  }

  /** An outbound (inbound) entry comes from a non-fee leg sent from (received by) a controlled address. */
  lemma EntriesHaveLegs(b: TransactionBundle, fee: Option<AtomicTransaction>)
    ensures EndpointsPresent(ViewOf(b, fee))
  {
    var txs := b.atomicTransactions;
    if |AmountsOut(b)| > 0 {
      OutboundLegFound(txs, AmountsOut(b)[0].ticker);
    }
    if |AmountsIn(b)| > 0 {
      InboundLegFound(txs, AmountsIn(b)[0].ticker);
    }
  }

  /** An outbound amount comes from a non-fee leg sent from a controlled address. */
  lemma OutboundLegFound(txs: seq<AtomicTransaction>, ticker: string)
    requires |WithKey(Filter(NonFee(txs), FromIsControlled), TxCurrency, ticker)| > 0
    ensures FirstFrom(NonFee(txs)).Some? && FirstFrom(txs).Some?
  {
    var l := KeyedLeg(Filter(NonFee(txs), FromIsControlled), ticker);
    assert l in NonFee(txs) && l.from.controlled;
    var j :| 0 <= j < |NonFee(txs)| && NonFee(txs)[j] == l;
    assert l in txs;
    ControlledSenderFound(NonFee(txs), l);
    ControlledSenderFound(txs, l);
  }

  /** An inbound amount comes from a non-fee leg received by a controlled address. */
  lemma InboundLegFound(txs: seq<AtomicTransaction>, ticker: string)
    requires |WithKey(Filter(NonFee(txs), ToIsControlled), TxCurrency, ticker)| > 0
    ensures FirstTo(NonFee(txs)).Some? && FirstTo(txs).Some?
  {
    var l := KeyedLeg(Filter(NonFee(txs), ToIsControlled), ticker);
    assert l in NonFee(txs) && l.to.controlled;
    var j :| 0 <= j < |NonFee(txs)| && NonFee(txs)[j] == l;
    assert l in txs;
    ControlledRecipientFound(NonFee(txs), l);
    ControlledRecipientFound(txs, l);
  }

  lemma KeyedLeg(legs: seq<AtomicTransaction>, ticker: string) returns (l: AtomicTransaction)
    requires |WithKey(legs, TxCurrency, ticker)| > 0
    ensures l in legs
  {
    KeyOccurs(legs, TxCurrency, ticker);
    var k :| 0 <= k < |legs| && TxCurrency(legs[k]) == ticker;
    l := legs[k];
  }

  lemma ControlledSenderFound(txs: seq<AtomicTransaction>, l: AtomicTransaction)
    requires l in txs && l.from.controlled
    ensures FirstFrom(txs).Some?
  {
    var i :| 0 <= i < |txs| && txs[i] == l;
  }

  lemma ControlledRecipientFound(txs: seq<AtomicTransaction>, l: AtomicTransaction)
    requires l in txs && l.to.controlled
    ensures FirstTo(txs).Some?
  {
    var i :| 0 <= i < |txs| && txs[i] == l;
  }

  /** Errors a branch raises only after changing a tracker; none of them can occur. */
  predicate LateError(e: TaxError) {
    e.TransferEndpointsMissing? || e.BuyRecipientMissing? || e.SellSenderMissing? || e.SwapEndpointsMissing?
  }

  lemma ActionErrorsLeaveLotsUnchanged(b: TransactionBundle, m: Lots, v: View, getPrice: PriceFeed, getCost: FeeCost)
    requires EndpointsPresent(v)
    ensures var (r, m') := ActionEvent(b, m, v, getPrice, getCost);
      r.Err? ==> m' == m && !LateError(r.error)
  {
  }

  /**
   * The errors thrown after the tracker was already changed (a missing sender or
   * recipient once the legs were checked) can never happen, so a thrown error always
   * leaves every tracker as it was.
   */
  lemma ErrorsLeaveLotsUnchanged(b: TransactionBundle, m: Lots, getPrice: PriceFeed, getCost: FeeCost)
    ensures var (r, m') := TaxSpec(b, m, getPrice, getCost);
      r.Err? ==> m' == m && !LateError(r.error)
  {
    var feeResult := FeeTransaction(b);
    if feeResult.Ok? {
      EntriesHaveLegs(b, feeResult.value);
      ActionErrorsLeaveLotsUnchanged(b, m, ViewOf(b, feeResult.value), getPrice, getCost);
    }
  }

  /** The branch `TaxSpec` takes once the fee getter has succeeded. */
  lemma TaxSpecDispatch(b: TransactionBundle, m: Lots, getPrice: PriceFeed, getCost: FeeCost)
    requires FeeTransaction(b).Ok?
    ensures TaxSpec(b, m, getPrice, getCost) == ActionEvent(b, m, ViewOf(b, FeeTransaction(b).value), getPrice, getCost)
    ensures EndpointsPresent(ViewOf(b, FeeTransaction(b).value))
  {
    EntriesHaveLegs(b, FeeTransaction(b).value);
  }

  /**
   * Which transfers to self are rejected, and why. Without a fee nothing is reported and no
   * tracker changes; with one, the fee is treated as destroyed.
   */
  lemma TransferToSelfOutcome(m: Lots, v: View)
    requires EndpointsPresent(v)
    ensures var (r, m') := TransferToSelfEvent(m, v);
      (r == Err(TransferLegCount) <==> |v.outs| > 1 || |v.ins| > 1) &&
      (r == Err(TransferLegMissing) <==> |v.outs| <= 1 && |v.ins| <= 1 && (|v.outs| == 0 || |v.ins| == 0)) &&
      (r == Err(TransferCurrencyMismatch) <==>
        |v.outs| == 1 && |v.ins| == 1 && v.ins[0].ticker != v.outs[0].ticker) &&
      (r == Err(TransferAmountMismatch) <==>
        |v.outs| == 1 && |v.ins| == 1 && v.ins[0].ticker == v.outs[0].ticker &&
        AmountsDisagree(v.ins[0].amount, v.outs[0].amount)) &&
      (v.fee.None? ==> m' == m && (r.Ok? ==> r.value.None?)) &&
      (r.Ok? && v.fee.Some? ==>
        r.value.Some? && r.value.value.amount == (v.ins[0].amount + v.outs[0].amount) / 2.0 &&
        SumUpdates(r.value.value.feeDestructionHistory) == v.fee.value.amount &&
        m' == DestroyIn(m, v.fee.value.currency, v.fee.value.amount).1)
  {
    if v.fee.Some? {
      DestroyReportsRequestedAmount(LotsOf(m, v.fee.value.currency), v.fee.value.amount, 0.0);
    }
  }

  /**
   * A purchase records the coin at the fiat paid plus the fee's cost per unit (the lot's
   * total cost is exactly what was spent), and a fee paid in a crypto is consumed only
   * after that accrual.
   */
  lemma PurchaseCostBasis(b: TransactionBundle, m: Lots, v: View, feeCost: real)
    requires |v.outs| > 0 && |v.ins| > 0 && EndpointsPresent(v)
    ensures var o := v.outs[0];
      var i := v.ins[0];
      var price := PurchasePrice(o, i, feeCost);
      var (r, m') := PurchaseEvent(b, m, v, feeCost);
      (i.amount != 0.0 ==> price * i.amount == o.amount + feeCost) &&
      r.Ok? && r.value.Some? && r.value.value.BuySummary? &&
      m' == ConsumeFee(AccrueIn(m, i.ticker, i.amount, price, b).1, v.fee).1
  {
  }

  /**
   * A sale consumes exactly the amount sold from the coin's lots, and its benefit is the
   * fiat received minus the cost basis of what was consumed minus the fee's cost.
   */
  lemma SaleBenefit(m: Lots, v: View, feeCost: real)
    requires |v.outs| > 0 && |v.ins| > 0 && EndpointsPresent(v)
    ensures var o := v.outs[0];
      var consumed := ConsumeFrom(LotsOf(m, o.ticker), o.amount).0;
      var r := SaleEvent(m, v, feeCost).0;
      r.Ok? && r.value.Some? && r.value.value.SellSummary? &&
      r.value.value.consumptions == consumed &&
      SumUpdates(consumed) == o.amount &&
      r.value.value.benefit == v.ins[0].amount - CostOf(consumed) - feeCost
  {
    ConsumeReportsRequestedAmount(LotsOf(m, v.outs[0].ticker), v.outs[0].amount);
  }

  /**
   * A swap acquires the inbound coin at its market price and consumes exactly the amount
   * given up from that coin's own lots; the benefit is the market value received minus
   * the cost basis of what was given up minus the fee's cost (the fee cost is not also
   * added to the new coin's basis).
   */
  lemma SwapBenefit(b: TransactionBundle, m: Lots, v: View, feeCost: real, getPrice: PriceFeed)
    requires |v.outs| > 0 && |v.ins| > 0 && EndpointsPresent(v)
    requires v.outs[0].ticker != v.ins[0].ticker
    ensures var o := v.outs[0];
      var i := v.ins[0];
      var price := getPrice(i.ticker, v.timestamp);
      var consumed := ConsumeFrom(LotsOf(m, o.ticker), o.amount).0;
      var r := SwapEvent(b, m, v, feeCost, getPrice).0;
      r.Ok? && r.value.Some? && r.value.value.SwapSummary? &&
      r.value.value.consumptions == consumed &&
      SumUpdates(consumed) == o.amount &&
      r.value.value.benefit == price * i.amount - CostOf(consumed) - feeCost
  {
    var o := v.outs[0];
    var i := v.ins[0];
    var price := getPrice(i.ticker, v.timestamp);
    var accrued := AccrueIn(m, i.ticker, i.amount, price, b).1;
    assert LotsOf(accrued, o.ticker) == LotsOf(m, o.ticker);
    ConsumeReportsRequestedAmount(LotsOf(m, o.ticker), o.amount);
  }

  /**
   * Accruing a list whose tickers are distinct pushes each entry, at price 0, onto the
   * heap of its own ticker, and leaves every other ticker's heap alone.
   */
  lemma AccrueAllPushesEach(m: Lots, ins: seq<CurrencyAmount>, b: TransactionBundle)
    requires forall i, j | 0 <= i < j < |ins| :: ins[i].ticker != ins[j].ticker
    ensures forall j | 0 <= j < |ins| ::
      LotsOf(AccrueAll(m, ins, b), ins[j].ticker) ==
      Push(LotsOf(m, ins[j].ticker), Keyed(0.0, Lot(ins[j].amount, 0.0, b)))
    ensures forall c | Lacks(ins, c) :: LotsOf(AccrueAll(m, ins, b), c) == LotsOf(m, c)
  {
    forall j | 0 <= j < |ins|
      ensures LotsOf(AccrueAll(m, ins, b), ins[j].ticker) ==
              Push(LotsOf(m, ins[j].ticker), Keyed(0.0, Lot(ins[j].amount, 0.0, b)))
    {
      AccrueAllAt(m, ins, b, j);
    }
    forall c | Lacks(ins, c) ensures LotsOf(AccrueAll(m, ins, b), c) == LotsOf(m, c) {
      AccrueAllOther(m, ins, b, c);
    }
  }

  /** No entry of `ins` is in currency `c`. */
  predicate Lacks(ins: seq<CurrencyAmount>, c: string) {
    forall j | 0 <= j < |ins| :: ins[j].ticker != c
  }

  /** Accruing a non-empty list is accruing all but its last entry, then the last one. */
  lemma AccrueAllSnoc(m: Lots, ins: seq<CurrencyAmount>, b: TransactionBundle, c: string)
    requires |ins| > 0
    ensures var last := ins[|ins| - 1];
      var before := AccrueAll(m, ins[..|ins| - 1], b);
      LotsOf(AccrueAll(m, ins, b), c) ==
        if c == last.ticker then Push(LotsOf(before, c), Keyed(0.0, Lot(last.amount, 0.0, b)))
        else LotsOf(before, c)
  {
  }

  /** A ticker that is not in the list keeps its lots. */
  lemma {:induction false} AccrueAllOther(m: Lots, ins: seq<CurrencyAmount>, b: TransactionBundle, c: string)
    requires Lacks(ins, c)
    ensures LotsOf(AccrueAll(m, ins, b), c) == LotsOf(m, c)
    decreases |ins|
  {
    if ins != [] {
      var init := ins[..|ins| - 1];
      assert c != ins[|ins| - 1].ticker;
      assert Lacks(init, c) by {
        forall j | 0 <= j < |init| ensures init[j].ticker != c {
          assert init[j] == ins[j];
        }
      }
      AccrueAllSnoc(m, ins, b, c);
      AccrueAllOther(m, init, b, c);
    }
  }

  /** The `j`-th entry is pushed, at price 0, onto the lots of its ticker. */
  lemma {:induction false} AccrueAllAt(m: Lots, ins: seq<CurrencyAmount>, b: TransactionBundle, j: nat)
    requires forall i, k | 0 <= i < k < |ins| :: ins[i].ticker != ins[k].ticker
    requires j < |ins|
    ensures LotsOf(AccrueAll(m, ins, b), ins[j].ticker) ==
            Push(LotsOf(m, ins[j].ticker), Keyed(0.0, Lot(ins[j].amount, 0.0, b)))
    decreases |ins|
  {
    var init := ins[..|ins| - 1];
    var last := ins[|ins| - 1];
    AccrueAllSnoc(m, ins, b, ins[j].ticker);
    if j == |ins| - 1 {
      assert Lacks(init, last.ticker) by {
        forall i | 0 <= i < |init| ensures init[i].ticker != last.ticker {
          assert init[i] == ins[i];
        }
      }
      AccrueAllOther(m, init, b, last.ticker);
    } else {
      assert init[j] == ins[j];
      assert ins[j].ticker != last.ticker;
      AccrueAllAt(m, init, b, j);
    }
  }

  /**
   * `getFree`: nothing goes out, every inbound amount is accrued at price 0 on top of the
   * lots the fee destruction left, and the benefit is the market value received minus the
   * fee's cost.
   */
  lemma GetFreeAccruesAtZero(b: TransactionBundle, m: Lots, v: View, getPrice: PriceFeed, getCost: FeeCost)
    requires |v.outs| == 0 && |v.ins| > 0 && EndpointsPresent(v)
    requires forall i, j | 0 <= i < j < |v.ins| :: v.ins[i].ticker != v.ins[j].ticker
    ensures var m1 := DestroyFee(m, v.fee).1;
      var (r, m') := GetFreeEvent(b, m, v, getPrice, getCost);
      r.Ok? && r.value.Some? && r.value.value.GetFreeSummary? &&
      r.value.value.gain == v.ins &&
      r.value.value.benefit == GainValue(v.ins, getPrice, v.timestamp) - FeeCostOf(v.fee, getCost) &&
      forall j | 0 <= j < |v.ins| ::
        LotsOf(m', v.ins[j].ticker) == Push(LotsOf(m1, v.ins[j].ticker), Keyed(0.0, Lot(v.ins[j].amount, 0.0, b)))
  {
    AccrueAllPushesEach(DestroyFee(m, v.fee).1, v.ins, b);
  }

  /** Every other action reports nothing and changes no tracker (unless the fee getter throws). */
  lemma OtherActionsReportNothing(b: TransactionBundle, m: Lots, getPrice: PriceFeed, getCost: FeeCost)
    requires b.action !in {TransferToSelf, Trade, GetFree}
    ensures TaxSpec(b, m, getPrice, getCost).1 == m
    ensures FeeTransaction(b).Ok? <==> TaxSpec(b, m, getPrice, getCost).0 == Ok(None)
  {
  }

  /**
   * A worked sale: 1 coin bought at 1000 and sold for 6000 with no fee gives a benefit of
   * 5000 and leaves the coin's lot at zero.
   */
  lemma SaleExample(acquired: TransactionBundle, me: Address, bank: Address, ts: Option<int>, ids: seq<string>)
    ensures var v := View([CurrencyAmount("ETH", 1.0)], [CurrencyAmount("USD", 6000.0)], None, ts, ids,
                          Some(me), Some(bank), Some(me), Some(bank));
      var m := map["ETH" := [Keyed(1000.0, Lot(1.0, 1000.0, acquired))]];
      var (r, m') := SaleEvent(m, v, 0.0);
      r.Ok? && r.value.Some? && r.value.value.SellSummary? &&
      r.value.value.benefit == 5000.0 &&
      r.value.value.consumptions == [Update(1.0, 1000.0, [], Some(acquired), Consumption)] &&
      m'["ETH"] == [Keyed(1000.0, Lot(0.0, 1000.0, acquired))]
  {
    var us := [Update(1.0, 1000.0, [], Some(acquired), Consumption)];
    assert CostOf(us) == CostOf([]) + 1.0 * 1000.0;
  }

  // ---------------------------------------------------------------------------------------
  // The tracker-driving implementation

  /** The running `cost += consumption.amount * consumption.price` loop. */
  method SumCost(consumptions: seq<Update>) returns (cost: real)
    ensures cost == CostOf(consumptions)
  {
    cost := 0.0;
    for i := 0 to |consumptions|
      invariant cost == CostOf(consumptions[..i])
    {
      assert consumptions[..i + 1][..i] == consumptions[..i];
      cost := cost + consumptions[i].amount * consumptions[i].price;
    }
    assert consumptions[..|consumptions|] == consumptions;
  }

  /** The fee consumption step on the tracker. */
  method ConsumeFeeOn(tracker: MasterCostBasisTracker, fee: Option<AtomicTransaction>)
    returns (feeConsumptions: seq<Update>)
    requires tracker.Valid()
    modifies tracker, tracker.Repr
    ensures tracker.Valid() && fresh(tracker.Repr - old(tracker.Repr))
    ensures (feeConsumptions, tracker.lots) == ConsumeFee(old(tracker.lots), fee)
  {
    feeConsumptions := [];
    if fee.Some? && !IsFiat(fee.value.currency) {
      feeConsumptions := tracker.Consume(fee.value.currency, fee.value.amount);
    }
  }

  method TransferToSelfOn(tracker: MasterCostBasisTracker, v: View) returns (r: Result<Option<Summary>, TaxError>)
    requires tracker.Valid()
    modifies tracker, tracker.Repr
    ensures tracker.Valid() && fresh(tracker.Repr - old(tracker.Repr))
    ensures (r, tracker.lots) == TransferToSelfEvent(old(tracker.lots), v)
  {
    if |v.outs| > 1 || |v.ins| > 1 {
      return Err(TransferLegCount);
    }
    if |v.outs| == 0 || |v.ins| == 0 {
      return Err(TransferLegMissing);
    }
    if v.ins[0].ticker != v.outs[0].ticker {
      return Err(TransferCurrencyMismatch);
    }
    if AmountsDisagree(v.ins[0].amount, v.outs[0].amount) {
      return Err(TransferAmountMismatch);
    }
    var amount := (v.ins[0].amount + v.outs[0].amount) / 2.0;
    if v.fee.Some? {
      var destructions := tracker.Destroy(v.fee.value.currency, v.fee.value.amount);
      if v.nonFeeFrom.None? || v.nonFeeTo.None? {
        return Err(TransferEndpointsMissing);
      }
      return Ok(Some(TransferToSelfSummary(v.timestamp, v.ins[0].ticker, amount, v.nonFeeFrom.value,
        v.nonFeeTo.value, v.fee.value.amount, v.fee.value.currency, destructions, v.ids)));
    }
    return Ok(None);
  }

  method PurchaseOn(b: TransactionBundle, tracker: MasterCostBasisTracker, v: View, feeCost: real)
    returns (r: Result<Option<Summary>, TaxError>)
    requires |v.outs| > 0 && |v.ins| > 0
    requires tracker.Valid()
    modifies tracker, tracker.Repr
    ensures tracker.Valid() && fresh(tracker.Repr - old(tracker.Repr))
    ensures (r, tracker.lots) == PurchaseEvent(b, old(tracker.lots), v, feeCost)
  {
    var o := v.outs[0];
    var i := v.ins[0];
    var _ := tracker.Accrue(i.ticker, i.amount, PurchasePrice(o, i, feeCost), b);
    var feeConsumptions := ConsumeFeeOn(tracker, v.fee);
    if v.anyTo.None? {
      return Err(BuyRecipientMissing);
    }
    return Ok(Some(BuySummary(v.timestamp, i.ticker, i.amount, o.amount, o.ticker, v.ids, v.anyTo.value,
      FeeAmount(v.fee), FeeCurrency(v.fee), feeConsumptions)));
  }

  method SaleOn(tracker: MasterCostBasisTracker, v: View, feeCost: real)
    returns (r: Result<Option<Summary>, TaxError>)
    requires |v.outs| > 0 && |v.ins| > 0
    requires tracker.Valid()
    modifies tracker, tracker.Repr
    ensures tracker.Valid() && fresh(tracker.Repr - old(tracker.Repr))
    ensures (r, tracker.lots) == SaleEvent(old(tracker.lots), v, feeCost)
  {
    var o := v.outs[0];
    var i := v.ins[0];
    var consumptions := tracker.Consume(o.ticker, o.amount);
    var feeConsumptions := ConsumeFeeOn(tracker, v.fee);
    if v.anyFrom.None? {
      return Err(SellSenderMissing);
    }
    var cost := SumCost(consumptions);
    return Ok(Some(SellSummary(v.timestamp, o.ticker, o.amount, i.amount, i.ticker, v.ids, v.anyFrom.value,
      FeeAmount(v.fee), FeeCurrency(v.fee), feeConsumptions, consumptions, i.amount - cost - feeCost)));
  }

  method SwapMovesOn(b: TransactionBundle, tracker: MasterCostBasisTracker, o: CurrencyAmount, i: CurrencyAmount,
                     price: real, fee: Option<AtomicTransaction>)
    returns (consumptions: seq<Update>, feeConsumptions: seq<Update>)
    requires tracker.Valid()
    modifies tracker, tracker.Repr
    ensures tracker.Valid() && fresh(tracker.Repr - old(tracker.Repr))
    ensures (consumptions, feeConsumptions, tracker.lots) == SwapMoves(b, old(tracker.lots), o, i, price, fee)
  {
    var _ := tracker.Accrue(i.ticker, i.amount, price, b);
    consumptions := tracker.Consume(o.ticker, o.amount);
    feeConsumptions := ConsumeFeeOn(tracker, fee);
  }

  method SwapOn(b: TransactionBundle, tracker: MasterCostBasisTracker, v: View, feeCost: real, getPrice: PriceFeed)
    returns (r: Result<Option<Summary>, TaxError>)
    requires |v.outs| > 0 && |v.ins| > 0
    requires tracker.Valid()
    modifies tracker, tracker.Repr
    ensures tracker.Valid() && fresh(tracker.Repr - old(tracker.Repr))
    ensures (r, tracker.lots) == SwapEvent(b, old(tracker.lots), v, feeCost, getPrice)
  {
    var o := v.outs[0];
    var i := v.ins[0];
    if v.nonFeeTo.None? || v.nonFeeFrom.None? {
      return Err(SwapEndpointsMissing);
    }
    var consumptions, feeConsumptions := SwapMovesOn(b, tracker, o, i, getPrice(i.ticker, v.timestamp), v.fee);
    var cost := SumCost(consumptions);
    return Ok(Some(SwapSummary(v.timestamp, o.ticker, o.amount, i.ticker, i.amount, v.ids, v.nonFeeFrom.value,
      v.nonFeeTo.value, FeeAmount(v.fee), FeeCurrency(v.fee), feeConsumptions, consumptions,
      MarketValue(i, getPrice, v.timestamp) - cost - feeCost)));
  }

  method TradeOn(b: TransactionBundle, tracker: MasterCostBasisTracker, v: View, getPrice: PriceFeed, getCost: FeeCost)
    returns (r: Result<Option<Summary>, TaxError>)
    requires tracker.Valid()
    modifies tracker, tracker.Repr
    ensures tracker.Valid() && fresh(tracker.Repr - old(tracker.Repr))
    ensures (r, tracker.lots) == TradeEvent(b, old(tracker.lots), v, getPrice, getCost)
  {
    if |v.outs| > 1 || |v.ins| > 1 {
      return Err(TradeLegCount);
    }
    if |v.outs| == 0 || |v.ins| == 0 {
      return Err(TradeLegMissing);
    }
    if v.ins[0].ticker == v.outs[0].ticker {
      return Err(TradeSameCurrency);
    }
    if IsFiat(v.outs[0].ticker) && IsFiat(v.ins[0].ticker) {
      return Err(TradeBetweenFiat);
    }
    var feeCost := if v.fee.Some? then getCost(v.fee.value) else 0.0;
    if IsFiat(v.outs[0].ticker) {
      r := PurchaseOn(b, tracker, v, feeCost);
    } else if IsFiat(v.ins[0].ticker) {
      r := SaleOn(tracker, v, feeCost);
    } else {
      r := SwapOn(b, tracker, v, feeCost, getPrice);
    }
  }

  /** The `for (const amount of inboundAmounts)` loop of `getFree`: accrue each at price 0, sum the market value. */
  method AccrueAllOn(b: TransactionBundle, tracker: MasterCostBasisTracker, ins: seq<CurrencyAmount>,
                     getPrice: PriceFeed, at: Option<int>)
    returns (benefit: real)
    requires tracker.Valid()
    modifies tracker, tracker.Repr
    ensures tracker.Valid() && fresh(tracker.Repr - old(tracker.Repr))
    ensures tracker.lots == AccrueAll(old(tracker.lots), ins, b)
    ensures benefit == GainValue(ins, getPrice, at)
  {
    ghost var m0 := tracker.lots;
    benefit := 0.0;
    for i := 0 to |ins|
      invariant tracker.Valid() && fresh(tracker.Repr - old(tracker.Repr))
      invariant tracker.lots == AccrueAll(m0, ins[..i], b)
      invariant benefit == GainValue(ins[..i], getPrice, at)
    {
      assert ins[..i + 1][..i] == ins[..i];
      ghost var before := tracker.lots;
      var _ := tracker.Accrue(ins[i].ticker, ins[i].amount, 0.0, b);
      assert tracker.lots == AccrueIn(before, ins[i].ticker, ins[i].amount, 0.0, b).1;
      assert AccrueAll(m0, ins[..i + 1], b) == AccrueIn(AccrueAll(m0, ins[..i], b), ins[i].ticker, ins[i].amount, 0.0, b).1;
      benefit := benefit + getPrice(ins[i].ticker, at) * ins[i].amount;
      assert GainValue(ins[..i + 1], getPrice, at) == GainValue(ins[..i], getPrice, at) + MarketValue(ins[i], getPrice, at);
    }
    assert ins[..|ins|] == ins;
  }

  method GetFreeOn(b: TransactionBundle, tracker: MasterCostBasisTracker, v: View, getPrice: PriceFeed, getCost: FeeCost)
    returns (r: Result<Option<Summary>, TaxError>)
    requires tracker.Valid()
    modifies tracker, tracker.Repr
    ensures tracker.Valid() && fresh(tracker.Repr - old(tracker.Repr))
    ensures (r, tracker.lots) == GetFreeEvent(b, old(tracker.lots), v, getPrice, getCost)
  {
    if |v.outs| > 0 {
      return Err(GetFreeOutbound);
    }
    if v.nonFeeTo.None? {
      return Err(GetFreeRecipientMissing);
    }
    var feeCost := 0.0;
    var feeDestructionHistory := [];
    if v.fee.Some? {
      feeCost := getCost(v.fee.value);
      feeDestructionHistory := tracker.Destroy(v.fee.value.currency, v.fee.value.amount);
    }
    var benefit := AccrueAllOn(b, tracker, v.ins, getPrice, v.timestamp);
    return Ok(Some(GetFreeSummary(v.timestamp, v.ins, v.ids, v.nonFeeTo.value, benefit - feeCost,
      feeDestructionHistory)));
  }

  /** `getTaxableEvents()` on the shared master tracker. */
  method GetTaxableEvents(b: TransactionBundle, tracker: MasterCostBasisTracker,
                          getPrice: PriceFeed, getCost: FeeCost)
    returns (r: Result<Option<Summary>, TaxError>)
    requires tracker.Valid()
    modifies tracker, tracker.Repr
    ensures tracker.Valid() && fresh(tracker.Repr - old(tracker.Repr))
    ensures (r, tracker.lots) == TaxSpec(b, old(tracker.lots), getPrice, getCost)
  {
    var feeResult := FeeTransaction(b);
    if feeResult.Err? {
      return Err(BundleFault(feeResult.error));
    }
    var v := ViewOf(b, feeResult.value);
    match b.action {
      case TransferToSelf =>
        r := TransferToSelfOn(tracker, v);
      case Trade =>
        r := TradeOn(b, tracker, v, getPrice, getCost);
      case GetFree =>
        r := GetFreeOn(b, tracker, v, getPrice, getCost);
      case _ =>
        r := Ok(None);
    }
  }
}
