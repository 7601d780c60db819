/**
 * `AtomicTransaction`: one directed, single-currency movement. Its `createdAt` is a `Date`
 * object, and `equal` compares it by identity, so `Date` is a class here too.
 */
module AtomicTransactions {
  import opened Addresses

  /** A JavaScript `Date`: an object around an epoch-millisecond value. */
  class Date {
    const ms: int

    constructor (ms: int)
      ensures this.ms == ms
    {
      this.ms := ms;
    }
  }

  /** The constructor stores its seven arguments as they are. */
  datatype AtomicTransaction = AtomicTransaction(
    createdAt: Date,
    action: string,
    currency: string,
    from: Address,
    to: Address,
    bundleId: string,
    amount: real)

  /**
   * The fee-leg action label. The mappers import `PAY_FEE` from the atomic transaction's
   * module, which does not define it; the model supplies a label distinct from the mappers'
   * other actions.
   */
  const PAY_FEE: string := "payFee"

  /**
   * `isFeePayment`, read by the bundle but not defined on the source's atomic transaction:
   * the model takes it to mean the fee-leg action.
   */
  predicate IsFeePayment(t: AtomicTransaction) {
    t.action == PAY_FEE
  }

  /** `equal`: same `Date` object, same scalars, same textual endpoints. */
  predicate Equal(a: AtomicTransaction, b: AtomicTransaction) {
    a.createdAt == b.createdAt
    && a.action == b.action
    && a.currency == b.currency
    && a.bundleId == b.bundleId
    && a.amount == b.amount
    && AddressString(a.to) == AddressString(b.to)
    && AddressString(a.from) == AddressString(b.from)
  }

  /** The object `toJson()` returns. */
  datatype TransactionJson = TransactionJson(
    createdAt: Date,
    action: string,
    currency: string,
    bundleId: string,
    amount: real,
    to: string,
    from: string)

  function ToJson(t: AtomicTransaction): (j: TransactionJson)
    ensures j.to == AddressString(t.to) && j.from == AddressString(t.from)
    ensures j.createdAt == t.createdAt && j.amount == t.amount && j.bundleId == t.bundleId
    ensures j.action == t.action && j.currency == t.currency
  {
    TransactionJson(t.createdAt, t.action, t.currency, t.bundleId, t.amount,
      AddressString(t.to), AddressString(t.from))
  }

  /** `equal` compares exactly what `toJson` exposes. */
  lemma EqualIffSameJson(a: AtomicTransaction, b: AtomicTransaction)
    ensures Equal(a, b) <==> ToJson(a) == ToJson(b)
  {
  }

  /** Amounts are never NaN here, so `equal` is reflexive; it is symmetric as a conjunction of equalities. */
  lemma EqualIsEquivalence(a: AtomicTransaction, b: AtomicTransaction, c: AtomicTransaction)
    ensures Equal(a, a)
    ensures Equal(a, b) ==> Equal(b, a)
    ensures Equal(a, b) && Equal(b, c) ==> Equal(a, c)
  {
  }

  /** Two transactions stamped with distinct `Date` objects are never equal, even at the same instant. */
  lemma DistinctDatesNeverEqual(a: AtomicTransaction, b: AtomicTransaction)
    requires a.createdAt != b.createdAt && a.createdAt.ms == b.createdAt.ms
    ensures !Equal(a, b)
  {
  }
}
