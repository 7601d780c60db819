/**
 * `TransactionBundle`: the atomic transactions that make up one economic event, with the
 * derived predicates and aggregates the consolidator and the tax engine read.
 */
module Bundles {
  import opened Wrappers
  import opened Collections
  import opened Addresses
  import opened AtomicTransactions

  datatype BundleStatus = Complete | Incomplete

  /** `BundleAction`; `Unnamed` is the empty action string the older Algorand mapper passes. */
  datatype BundleAction =
    | Transfer | TransferToSelf | Trade | GetFree | ToBeDetermined | NoOp | PureFeePayment | Unnamed

  /** The constructor's fields; `notes` defaults to the empty list. */
  datatype TransactionBundle = TransactionBundle(
    atomicTransactions: seq<AtomicTransaction>,
    action: BundleAction,
    status: BundleStatus,
    id: string,
    notes: seq<string>)

  datatype BundleError = NotSynthetizable | FeeReceived | SeveralFees

  predicate IsComplete(b: TransactionBundle) {
    b.status == Complete
  }

  /** `isPureFee`. */
  predicate IsPureFee(b: TransactionBundle) {
    |b.atomicTransactions| == 1 && IsFeePayment(b.atomicTransactions[0])
  }

  predicate FromIsControlled(t: AtomicTransaction) { t.from.controlled }
  predicate ToIsControlled(t: AtomicTransaction) { t.to.controlled }
  predicate NotFeePayment(t: AtomicTransaction) { !IsFeePayment(t) }

  /** `atomicTransactions.some((t) => t.from.controlled)`. */
  function AnyFromControlled(txs: seq<AtomicTransaction>): (r: bool)
    ensures r <==> exists i | 0 <= i < |txs| :: txs[i].from.controlled
  {
    if txs == [] then false else txs[0].from.controlled || AnyFromControlled(txs[1..])
  }

  /** `atomicTransactions.some((t) => t.to.controlled)`. */
  function AnyToControlled(txs: seq<AtomicTransaction>): (r: bool)
    ensures r <==> exists i | 0 <= i < |txs| :: txs[i].to.controlled
  {
    if txs == [] then false else txs[0].to.controlled || AnyToControlled(txs[1..])
  }

  predicate FromControlled(b: TransactionBundle) { AnyFromControlled(b.atomicTransactions) }
  predicate ToControlled(b: TransactionBundle) { AnyToControlled(b.atomicTransactions) }

  /** `atomicTransactions.every((t) => t.amount === 0)`. */
  function AllAmountsZero(txs: seq<AtomicTransaction>): (r: bool)
    ensures r <==> forall i | 0 <= i < |txs| :: txs[i].amount == 0.0
  {
    if txs == [] then true else txs[0].amount == 0.0 && AllAmountsZero(txs[1..])
  }

  /** `isEmpty`: no transactions, or nothing but zero amounts. */
  predicate IsEmpty(b: TransactionBundle) {
    |b.atomicTransactions| == 0 || AllAmountsZero(b.atomicTransactions)
  }

  /** A bundle that is not empty moves a non-zero amount somewhere. */
  lemma NonEmptyMovesSomething(b: TransactionBundle)
    requires !IsEmpty(b)
    ensures exists i | 0 <= i < |b.atomicTransactions| :: b.atomicTransactions[i].amount != 0.0
  {
  }

  /** Smallest `createdAt` instant of a non-empty list. */
  function MinCreatedAt(txs: seq<AtomicTransaction>): (m: int)
    requires |txs| > 0
    ensures forall i | 0 <= i < |txs| :: m <= txs[i].createdAt.ms
    ensures exists i | 0 <= i < |txs| :: m == txs[i].createdAt.ms
  {
    if |txs| == 1 then txs[0].createdAt.ms
    else
      var rest := MinCreatedAt(txs[1..]);
      if txs[0].createdAt.ms <= rest then txs[0].createdAt.ms else rest
  }

  /** `timestamp`: a new `Date` at the earliest instant; `None` is the invalid date of an empty bundle. */
  function Timestamp(b: TransactionBundle): Option<int> {
    if |b.atomicTransactions| == 0 then None else Some(MinCreatedAt(b.atomicTransactions))
  }

  /** `nonFeeTransactions`: the list without its fee legs, in order. */
  function NonFee(txs: seq<AtomicTransaction>): (r: seq<AtomicTransaction>)
    ensures forall i | 0 <= i < |r| :: !IsFeePayment(r[i]) && r[i] in txs
    ensures forall i | 0 <= i < |txs| :: !IsFeePayment(txs[i]) ==> txs[i] in r
  {
    Filter(txs, NotFeePayment)
  }

  function FromSet(txs: seq<AtomicTransaction>): set<Address> { set i | 0 <= i < |txs| :: txs[i].from }
  function ToSet(txs: seq<AtomicTransaction>): set<Address> { set i | 0 <= i < |txs| :: txs[i].to }
  function CurrencySet(txs: seq<AtomicTransaction>): set<string> { set i | 0 <= i < |txs| :: txs[i].currency }

  /**
   * `synthetizable`: some non-fee leg exists and the non-fee legs' `from` objects, `to`
   * objects and currencies each form a one-element set. The repository also collects
   * `createdAt.valueOf`, the method itself rather than its value: that set always has one
   * element, so timestamps never make a bundle unsynthetizable, and the model leaves it out.
   */
  predicate Synthetizable(b: TransactionBundle) {
    var nf := NonFee(b.atomicTransactions);
    |nf| > 0 && |FromSet(nf)| == 1 && |ToSet(nf)| == 1 && |CurrencySet(nf)| == 1
  }

  predicate SameEndpointsAndCurrency(nf: seq<AtomicTransaction>)
    requires |nf| > 0
  {
    forall i | 0 <= i < |nf| :: nf[i].from == nf[0].from && nf[i].to == nf[0].to && nf[i].currency == nf[0].currency
  }

  lemma {:induction false} SingletonSet<T>(s: set<T>, x: T)
    requires x in s
    ensures |s| == 1 <==> s == {x}
  {
    if |s| == 1 {
      var rest := s - {x};
      assert |rest| == 0;
      assert rest == {};
    }
  }

  /** A bundle is synthetizable iff its non-fee legs share one `from`, one `to` and one currency. */
  lemma SynthetizableIff(b: TransactionBundle)
    ensures var nf := NonFee(b.atomicTransactions);
      Synthetizable(b) <==> |nf| > 0 && SameEndpointsAndCurrency(nf)
  {
    var nf := NonFee(b.atomicTransactions);
    if |nf| > 0 {
      assert nf[0].from in FromSet(nf) && nf[0].to in ToSet(nf) && nf[0].currency in CurrencySet(nf);
      SingletonSet(FromSet(nf), nf[0].from);
      SingletonSet(ToSet(nf), nf[0].to);
      SingletonSet(CurrencySet(nf), nf[0].currency);
      if SameEndpointsAndCurrency(nf) {
        assert FromSet(nf) == {nf[0].from};
        assert ToSet(nf) == {nf[0].to};
        assert CurrencySet(nf) == {nf[0].currency};
      }
      if Synthetizable(b) {
        forall i | 0 <= i < |nf|
          ensures nf[i].from == nf[0].from && nf[i].to == nf[0].to && nf[i].currency == nf[0].currency
        {
          assert nf[i].from in FromSet(nf) && nf[i].to in ToSet(nf) && nf[i].currency in CurrencySet(nf);
        }
      }
    }
  }

  function SumAmounts(txs: seq<AtomicTransaction>): real {
    if txs == [] then 0.0 else txs[0].amount + SumAmounts(txs[1..])
  }

  /** `syntheticTransaction`: the bundle's legs folded into one, or the error it throws. */
  function SyntheticTransaction(b: TransactionBundle): (r: Result<AtomicTransaction, BundleError>)
    ensures r.Ok? <==> Synthetizable(b)
    ensures r.Err? ==> r.error == NotSynthetizable
    ensures r.Ok? ==> var nf := NonFee(b.atomicTransactions);
      r.value.action == "--------" && r.value.amount == SumAmounts(nf) &&
      r.value.createdAt == nf[0].createdAt && r.value.bundleId == nf[0].bundleId &&
      forall i | 0 <= i < |nf| ::
        nf[i].from == r.value.from && nf[i].to == r.value.to && nf[i].currency == r.value.currency
  {
    if !Synthetizable(b) then Err(NotSynthetizable)
    else
      var nf := NonFee(b.atomicTransactions);
      SynthetizableIff(b);
      Ok(AtomicTransaction(nf[0].createdAt, "--------", nf[0].currency, nf[0].from, nf[0].to,
        nf[0].bundleId, SumAmounts(nf)))
  }

  /** One entry of `amountsOutPerCurrency` / `amountsInPerCurrency`. */
  datatype CurrencyAmount = CurrencyAmount(ticker: string, amount: real)

  function TxCurrency(t: AtomicTransaction): string { t.currency }
  function TxBundleId(t: AtomicTransaction): string { t.bundleId }

  /** Totals per ticker, tickers in order of first appearance. */
  function PerCurrency(txs: seq<AtomicTransaction>): (r: seq<CurrencyAmount>)
    ensures forall i | 0 <= i < |r| :: r[i].amount == SumAmounts(WithKey(txs, TxCurrency, r[i].ticker))
    ensures forall i, j | 0 <= i < j < |r| :: r[i].ticker != r[j].ticker
    ensures forall i | 0 <= i < |r| :: |WithKey(txs, TxCurrency, r[i].ticker)| > 0
    ensures forall k | 0 <= k < |txs| :: exists i | 0 <= i < |r| :: r[i].ticker == TxCurrency(txs[k])
  {
    var ks := DistinctKeys(txs, TxCurrency);
    var r := Totals(txs, ks);
    DistinctKeysCover(txs, TxCurrency);
    assert forall i | 0 <= i < |r| :: r[i].ticker == ks[i];
    r
  }

  function Totals(txs: seq<AtomicTransaction>, ks: seq<string>): (r: seq<CurrencyAmount>)
    ensures |r| == |ks|
    ensures forall i | 0 <= i < |r| ::
      r[i].ticker == ks[i] && r[i].amount == SumAmounts(WithKey(txs, TxCurrency, ks[i]))
  {
    if ks == [] then []
    else [CurrencyAmount(ks[0], SumAmounts(WithKey(txs, TxCurrency, ks[0])))] + Totals(txs, ks[1..])
  }

  /** `amountsOutPerCurrency`: non-fee legs leaving a controlled address, summed per ticker. */
  function AmountsOut(b: TransactionBundle): seq<CurrencyAmount> {
    PerCurrency(Filter(NonFee(b.atomicTransactions), FromIsControlled))
  }

  /** `amountsInPerCurrency`: non-fee legs reaching a controlled address, summed per ticker. */
  function AmountsIn(b: TransactionBundle): seq<CurrencyAmount> {
    PerCurrency(Filter(NonFee(b.atomicTransactions), ToIsControlled))
  }

  /** Each outbound entry totals exactly the outbound non-fee legs of its ticker; fee legs add nothing. */
  lemma AmountsOutMeaning(b: TransactionBundle)
    ensures var out := Filter(NonFee(b.atomicTransactions), FromIsControlled);
      (forall i | 0 <= i < |AmountsOut(b)| ::
        AmountsOut(b)[i].amount == SumAmounts(WithKey(out, TxCurrency, AmountsOut(b)[i].ticker))) &&
      (forall k | 0 <= k < |out| :: !IsFeePayment(out[k]) && out[k].from.controlled && out[k] in b.atomicTransactions)
  {
  }

  /** Each inbound entry totals exactly the inbound non-fee legs of its ticker; fee legs add nothing. */
  lemma AmountsInMeaning(b: TransactionBundle)
    ensures var inc := Filter(NonFee(b.atomicTransactions), ToIsControlled);
      (forall i | 0 <= i < |AmountsIn(b)| ::
        AmountsIn(b)[i].amount == SumAmounts(WithKey(inc, TxCurrency, AmountsIn(b)[i].ticker))) &&
      (forall k | 0 <= k < |inc| :: !IsFeePayment(inc[k]) && inc[k].to.controlled && inc[k] in b.atomicTransactions)
  {
  }

  /** `transactionIds`: the distinct leg bundle ids, in order of first appearance. */
  function TransactionIds(b: TransactionBundle): (r: seq<string>)
    ensures forall i, j | 0 <= i < j < |r| :: r[i] != r[j]
    ensures forall k | 0 <= k < |b.atomicTransactions| :: b.atomicTransactions[k].bundleId in r
    ensures forall i | 0 <= i < |r| :: |WithKey(b.atomicTransactions, TxBundleId, r[i])| > 0
  {
    var r := DistinctKeys(b.atomicTransactions, TxBundleId);
    DistinctKeysCover(b.atomicTransactions, TxBundleId);
    assert forall k | 0 <= k < |b.atomicTransactions| :: TxBundleId(b.atomicTransactions[k]) in r;
    r
  }

  /** A fee leg sent from a controlled address. */
  predicate OutboundFee(t: AtomicTransaction) {
    IsFeePayment(t) && t.from.controlled
  }

  /** The two filters of `feeTransaction` keep exactly the outbound fee legs, in order. */
  lemma {:induction false} OutboundFees(s: seq<AtomicTransaction>)
    ensures Filter(Filter(s, IsFeePayment), FromIsControlled) == Filter(s, OutboundFee)
  {
    if s != [] {
      OutboundFees(s[1..]);
      var rest := Filter(s[1..], IsFeePayment);
      if IsFeePayment(s[0]) {
        assert Filter(s, IsFeePayment) == [s[0]] + rest;
        assert ([s[0]] + rest)[0] == s[0] && ([s[0]] + rest)[1..] == rest;
      } else {
        assert Filter(s, IsFeePayment) == rest;
      }
    }
  }

  /** Some fee leg is received by a controlled address. */
  predicate FeeToControlled(s: seq<AtomicTransaction>) {
    exists i | 0 <= i < |s| :: IsFeePayment(s[i]) && s[i].to.controlled
  }

  /** Two positions hold outbound fee legs. */
  predicate SeveralOutboundFees(s: seq<AtomicTransaction>) {
    TwoSatisfy(s, OutboundFee)
  }

  /** What the filters of `feeTransaction` say about the legs themselves. */
  lemma FeeFilters(s: seq<AtomicTransaction>)
    ensures AnyToControlled(Filter(s, IsFeePayment)) <==> FeeToControlled(s)
    ensures |Filter(Filter(s, IsFeePayment), FromIsControlled)| > 1 <==> SeveralOutboundFees(s)
    ensures |Filter(Filter(s, IsFeePayment), FromIsControlled)| == 0 ==>
      forall i | 0 <= i < |s| :: !OutboundFee(s[i])
    ensures |Filter(Filter(s, IsFeePayment), FromIsControlled)| == 1 ==>
      var fee := Filter(Filter(s, IsFeePayment), FromIsControlled)[0];
      fee in s && OutboundFee(fee) && forall i | 0 <= i < |s| && OutboundFee(s[i]) :: s[i] == fee
  {
    var fees := Filter(s, IsFeePayment);
    if FeeToControlled(s) {
      var i :| 0 <= i < |s| && IsFeePayment(s[i]) && s[i].to.controlled;
      assert s[i] in fees;
    }
    OutboundFees(s);
    FilterSeveral(s, OutboundFee);
    var outbound := Filter(s, OutboundFee);
    forall i | 0 <= i < |s| && OutboundFee(s[i])
      ensures s[i] in outbound
    {
    }
    if |outbound| == 1 {
      assert outbound[0] in outbound;
    }
  }

  /**
   * `feeTransaction`: a received fee throws first; then two outbound fees throw; otherwise the
   * one outbound fee leg, or nothing.
   */
  function FeeTransaction(b: TransactionBundle): (r: Result<Option<AtomicTransaction>, BundleError>)
    ensures r == Err(FeeReceived) <==> FeeToControlled(b.atomicTransactions)
    ensures r == Err(SeveralFees) <==>
      !FeeToControlled(b.atomicTransactions) && SeveralOutboundFees(b.atomicTransactions)
    ensures r.Err? ==> r.error == FeeReceived || r.error == SeveralFees
    ensures r.Ok? && r.value.Some? ==> r.value.value in b.atomicTransactions && OutboundFee(r.value.value)
    ensures r.Ok? && r.value.Some? ==>
      forall i | 0 <= i < |b.atomicTransactions| && OutboundFee(b.atomicTransactions[i]) ::
        b.atomicTransactions[i] == r.value.value
    ensures r.Ok? && r.value.None? ==>
      forall i | 0 <= i < |b.atomicTransactions| :: !OutboundFee(b.atomicTransactions[i])
  {
    FeeFilters(b.atomicTransactions);
    var fees := Filter(b.atomicTransactions, IsFeePayment);
    if AnyToControlled(fees) then Err(FeeReceived)
    else
      var outbound := Filter(fees, FromIsControlled);
      if |outbound| > 1 then Err(SeveralFees)
      else if |outbound| == 1 then Ok(Some(outbound[0]))
      else Ok(None)
  }

  /** `complete()`: same transactions, action and id; status complete; notes back to empty. */
  function CompleteBundle(b: TransactionBundle): TransactionBundle {
    TransactionBundle(b.atomicTransactions, b.action, Complete, b.id, [])
  }

  /** `some((t) => target.equal(t))`. */
  function HasEqual(target: AtomicTransaction, txs: seq<AtomicTransaction>): (r: bool)
    ensures r <==> exists j | 0 <= j < |txs| :: Equal(target, txs[j])
  {
    if txs == [] then false else Equal(target, txs[0]) || HasEqual(target, txs[1..])
  }

  /** `every((transaction) => other.some(...))`. */
  function EveryHasEqual(xs: seq<AtomicTransaction>, ys: seq<AtomicTransaction>): (r: bool)
    ensures r <==> forall i | 0 <= i < |xs| :: exists j | 0 <= j < |ys| :: Equal(xs[i], ys[j])
  {
    if xs == [] then true else HasEqual(xs[0], ys) && EveryHasEqual(xs[1..], ys)
  }

  /** `equal(other)`: equal lengths, and each of this bundle's legs has an equal leg in the other. */
  predicate BundleEqual(a: TransactionBundle, b: TransactionBundle) {
    |a.atomicTransactions| == |b.atomicTransactions| &&
    EveryHasEqual(a.atomicTransactions, b.atomicTransactions)
  }

  lemma BundleEqualReflexive(b: TransactionBundle)
    ensures BundleEqual(b, b)
  {
    var txs := b.atomicTransactions;
    assert forall i | 0 <= i < |txs| :: Equal(txs[i], txs[i]);
  }

  /** `equal` is containment, not symmetric: `[x, x]` equals `[x, y]` but not the reverse. */
  lemma BundleEqualNotSymmetric(x: AtomicTransaction, y: AtomicTransaction, action: BundleAction,
                                status: BundleStatus, id: string)
    requires !Equal(y, x)
    ensures var a := TransactionBundle([x, x], action, status, id, []);
      var b := TransactionBundle([x, y], action, status, id, []);
      BundleEqual(a, b) && !BundleEqual(b, a)
  {
    var a := TransactionBundle([x, x], action, status, id, []);
    var b := TransactionBundle([x, y], action, status, id, []);
    EqualIsEquivalence(x, y, x);
    assert Equal(a.atomicTransactions[0], b.atomicTransactions[0]);
    assert Equal(a.atomicTransactions[1], b.atomicTransactions[0]);
    assert !Equal(b.atomicTransactions[1], a.atomicTransactions[0]);
    assert !Equal(b.atomicTransactions[1], a.atomicTransactions[1]);
    assert !HasEqual(b.atomicTransactions[1], a.atomicTransactions);
  }

  /** `complete()` keeps the transactions, so the completed bundle and the original are `equal` both ways. */
  lemma CompleteKeepsContent(b: TransactionBundle)
    ensures var c := CompleteBundle(b);
      c.atomicTransactions == b.atomicTransactions && c.action == b.action && c.id == b.id &&
      IsComplete(c) && c.notes == [] && BundleEqual(c, b) && BundleEqual(b, c)
  {
    BundleEqualReflexive(b);
  }

  /** Completing a bundle changes neither whether it is empty nor whether it is synthetizable. */
  lemma CompleteKeepsClassification(b: TransactionBundle)
    ensures IsEmpty(CompleteBundle(b)) <==> IsEmpty(b)
    ensures Synthetizable(CompleteBundle(b)) <==> Synthetizable(b)
  {
    assert CompleteBundle(b).atomicTransactions == b.atomicTransactions;
  }

  /**
   * The memo fields `privateNonFeeTransactions` and `privateSynthetizable`. The getters fill
   * them on first use; the values they cache are those of `NonFee` and `Synthetizable`.
   */
  class MemoizedBundle {
    const bundle: TransactionBundle
    var privateNonFeeTransactions: Option<seq<AtomicTransaction>>
    var privateSynthetizable: Option<bool>

    ghost predicate Valid()
      reads this
    {
      (privateNonFeeTransactions.Some? ==> privateNonFeeTransactions.value == NonFee(bundle.atomicTransactions)) &&
      (privateSynthetizable.Some? ==> privateSynthetizable.value == Synthetizable(bundle))
    }

    constructor (b: TransactionBundle)
      ensures Valid() && bundle == b
      ensures privateNonFeeTransactions == None && privateSynthetizable == None
    {
      bundle := b;
      privateNonFeeTransactions := None;
      privateSynthetizable := None;
    }

    /** `get nonFeeTransactions`: filter once, then serve the stored list. */
    method NonFeeTransactions() returns (r: seq<AtomicTransaction>)
      requires Valid()
      modifies this`privateNonFeeTransactions
      ensures Valid()
      ensures r == NonFee(bundle.atomicTransactions)
      ensures privateNonFeeTransactions == Some(r)
    {
      if privateNonFeeTransactions.None? {
        privateNonFeeTransactions := Some(Filter(bundle.atomicTransactions, NotFeePayment));
      }
      r := privateNonFeeTransactions.value;
    }

    /** `get synthetizable`: computed from the sets once, then served from the memo. */
    method GetSynthetizable() returns (r: bool)
      requires Valid()
      modifies this
      ensures Valid()
      ensures r == Synthetizable(bundle)
      ensures privateSynthetizable == Some(r)
      ensures old(privateSynthetizable).Some? ==> privateNonFeeTransactions == old(privateNonFeeTransactions)
    {
      if privateSynthetizable.Some? {
        return privateSynthetizable.value;
      }
      var nf := NonFeeTransactions();
      if |nf| == 0 {
        privateSynthetizable := Some(false);
      } else {
        privateSynthetizable :=
          Some(|FromSet(nf)| == 1 && |ToSet(nf)| == 1 && |CurrencySet(nf)| == 1);
      }
      r := privateSynthetizable.value;
    }
  }
}
