/**
 * `MasterCostBasisTracker`: one `CostBasisTracker` per currency key, created on first use.
 * The module's single shared instance is an object the caller passes in.
 */
module MasterCostBasis {
  import opened Wrappers
  import opened Heaps
  import opened Bundles
  import opened CostBasis

  /** The lots of every tracker, by currency key. */
  type Lots = map<string, LotHeap>

  /** The lots under `currency`; a tracker that does not exist yet holds none. */
  function LotsOf(m: Lots, currency: string): LotHeap {
    if currency in m then m[currency] else []
  }

  predicate AllSorted(m: Lots) {
    forall c | c in m :: SortedDesc(m[c])
  }

  /** `accrue({ currency, entry })` on the lots of every currency. */
  function AccrueIn(m: Lots, currency: string, amount: real, price: real, b: TransactionBundle): (Update, Lots) {
    (Update(amount, price, [], Some(b), Accrual),
     m[currency := Push(LotsOf(m, currency), Keyed(price, Lot(amount, price, b)))])
  }

  /** `consume({ currency, amount })` on the lots of every currency. */
  function ConsumeIn(m: Lots, currency: string, amount: real): (seq<Update>, Lots) {
    var r := ConsumeFrom(LotsOf(m, currency), amount);
    (r.0, m[currency := r.1])
  }

  /** `destroy({ currency, amount })` on the lots of every currency. */
  function DestroyIn(m: Lots, currency: string, amount: real): (seq<Update>, Lots) {
    var r := DestroyFrom(LotsOf(m, currency), amount, 0.0);
    (r.0, m[currency := r.1])
  }

  /** Each operation touches the tracker of its own currency and no other, and creates it if needed. */
  lemma OtherCurrenciesUnchanged(m: Lots, currency: string, amount: real, price: real, b: TransactionBundle)
    ensures forall m' | m' in {AccrueIn(m, currency, amount, price, b).1, ConsumeIn(m, currency, amount).1,
                                DestroyIn(m, currency, amount).1} ::
      m'.Keys == m.Keys + {currency} && forall d | d in m && d != currency :: m'[d] == m[d]
  {
  }

  /** Every operation keeps every tracker's heap in key order. */
  lemma AccrueKeepsOrder(m: Lots, currency: string, amount: real, price: real, b: TransactionBundle)
    requires AllSorted(m)
    ensures AllSorted(AccrueIn(m, currency, amount, price, b).1)
  {
  }

  lemma ConsumeKeepsOrderIn(m: Lots, currency: string, amount: real)
    requires AllSorted(m)
    ensures AllSorted(ConsumeIn(m, currency, amount).1)
  {
    ConsumeKeepsOrder(LotsOf(m, currency), amount);
  }

  lemma DestroyKeepsOrderIn(m: Lots, currency: string, amount: real)
    requires AllSorted(m)
    ensures AllSorted(DestroyIn(m, currency, amount).1)
  {
    DestroyKeepsOrder(LotsOf(m, currency), amount, 0.0);
  }

  /** Consuming or destroying a currency never accrued yields one zero-price shortfall entry. */
  lemma NeverAccruedShortfall(m: Lots, currency: string, amount: real)
    requires LotsOf(m, currency) == []
    ensures ConsumeIn(m, currency, amount).0 == [Update(amount, 0.0, [ConsumedTooMuch], None, Consumption)]
    ensures DestroyIn(m, currency, amount).0 == [Update(amount, 0.0, [DestroyedTooMuch], None, Destruction)]
    ensures LotsOf(ConsumeIn(m, currency, amount).1, currency) == []
    ensures LotsOf(DestroyIn(m, currency, amount).1, currency) == []
  {
  }

  class MasterCostBasisTracker {
    var trackers: map<string, CostBasisTracker>
    /** The lots every tracker holds, by currency key. */
    ghost var lots: Lots
    ghost var Repr: set<object>

    ghost predicate Valid()
      reads this, Repr
    {
      lots.Keys == trackers.Keys && AllSorted(lots) &&
      (forall c | c in trackers :: trackers[c] in Repr && lots[c] == trackers[c].heap) &&
      (forall c, d | c in trackers && d in trackers && c != d :: trackers[c] != trackers[d])
    }

    constructor ()
      ensures Valid() && fresh(Repr)
      ensures lots == map[]
    {
      trackers := map[];
      lots := map[];
      Repr := {};
    }

    /** `this.trackers[currency] ||= new CostBasisTracker()`. */
    method TrackerFor(currency: string) returns (t: CostBasisTracker)
      requires Valid()
      modifies this
      ensures Valid() && fresh(Repr - old(Repr))
      ensures currency in trackers && t == trackers[currency]
      ensures lots == old(lots)[currency := LotsOf(old(lots), currency)]
    {
      if currency !in trackers {
        t := new CostBasisTracker();
        trackers := trackers[currency := t];
        lots := lots[currency := []];
        Repr := Repr + {t};
      } else {
        assert lots == lots[currency := lots[currency]];
      }
      t := trackers[currency];
    }

    /** `accrue`: delegates to the currency's tracker and returns its result. */
    method Accrue(currency: string, amount: real, price: real, transactionBundle: TransactionBundle)
      returns (u: Update)
      requires Valid()
      modifies this, Repr
      ensures Valid() && fresh(Repr - old(Repr))
      ensures (u, lots) == AccrueIn(old(lots), currency, amount, price, transactionBundle)
    {
      var t := TrackerFor(currency);
      assert forall c | c in trackers && c != currency :: trackers[c] != t;
      ghost var held := t.heap;
      assert held == LotsOf(old(lots), currency);
      u := t.Accrue(amount, price, transactionBundle);
      lots := old(lots)[currency := t.heap];
      AccrueKeepsOrder(old(lots), currency, amount, price, transactionBundle);
      assert forall c | c in trackers && c != currency :: lots[c] == trackers[c].heap;
    }

    /** `consume`: delegates to the currency's tracker and returns its result. */
    method Consume(currency: string, amount: real) returns (updates: seq<Update>)
      requires Valid()
      modifies this, Repr
      ensures Valid() && fresh(Repr - old(Repr))
      ensures (updates, lots) == ConsumeIn(old(lots), currency, amount)
    {
      var t := TrackerFor(currency);
      assert forall c | c in trackers && c != currency :: trackers[c] != t;
      ghost var held := t.heap;
      assert held == LotsOf(old(lots), currency);
      updates := t.Consume(amount);
      assert (updates, t.heap) == ConsumeFrom(held, amount);
      lots := old(lots)[currency := t.heap];
      ConsumeKeepsOrderIn(old(lots), currency, amount);
      assert forall c | c in trackers && c != currency :: lots[c] == trackers[c].heap;
    }

    /** `destroy`: delegates to the currency's tracker and returns its result. */
    method Destroy(currency: string, amount: real) returns (updates: seq<Update>)
      requires Valid()
      modifies this, Repr
      ensures Valid() && fresh(Repr - old(Repr))
      ensures (updates, lots) == DestroyIn(old(lots), currency, amount)
    {
      var t := TrackerFor(currency);
      assert forall c | c in trackers && c != currency :: trackers[c] != t;
      ghost var held := t.heap;
      assert held == LotsOf(old(lots), currency);
      updates := t.Destroy(amount);
      assert (updates, t.heap) == DestroyFrom(held, amount, 0.0);
      lots := old(lots)[currency := t.heap];
      DestroyKeepsOrderIn(old(lots), currency, amount);
      assert forall c | c in trackers && c != currency :: lots[c] == trackers[c].heap;
    }
  }
}
