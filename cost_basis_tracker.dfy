/**
 * `CostBasisTracker`: the lots held in one currency, kept in a priority queue keyed by the
 * price each lot was bought at, highest first. `consume` (a disposal) and `destroy` (a fee
 * paid in kind) serve a requested amount from the top lots and report what they used.
 */
module CostBasis {
  import opened Wrappers
  import opened Heaps
  import opened Numbers
  import opened Bundles

  /** One acquisition: `{ amount, price, transactionBundle }`. */
  datatype Lot = Lot(amount: real, price: real, transactionBundle: TransactionBundle)

  /** `CostBasisUpdateType`. */
  datatype UpdateType = Accrual | Destruction | Consumption

  /**
   * One entry of the history an operation returns. Entries built from a popped lot carry no
   * notes and the lot's bundle; the shortfall entries carry a note and no bundle.
   */
  datatype Update = Update(amount: real, price: real, notes: seq<string>,
                           transactionBundle: Option<TransactionBundle>, updateType: UpdateType)

  /** The heap: lots in line with the price they were pushed under as key. */
  type LotHeap = seq<Keyed<Lot>>

  const ConsumedTooMuch: string := "Consumed more than was accrued."
  const DestroyedTooMuch: string := "Destroyed more than was accrued."

  /** `{ ...this.heap.pop(), type }`: a whole lot, reported as it leaves the heap. */
  function Popped(e: Lot, t: UpdateType): Update {
    Update(e.amount, e.price, [], Some(e.transactionBundle), t)
  }

  function SumUpdates(us: seq<Update>): real {
    if us == [] then 0.0 else us[0].amount + SumUpdates(us[1..])
  }

  /** Cost of a history: the sum of `amount × price` over its entries. */
  function CostOf(us: seq<Update>): real {
    if us == [] then 0.0 else CostOf(us[..|us| - 1]) + us[|us| - 1].amount * us[|us| - 1].price
  }

  function TotalAmount(h: LotHeap): real {
    if h == [] then 0.0 else h[0].item.amount + TotalAmount(h[1..])
  }

  /** What `consume({ amount: remaining })` returns and the heap it leaves. */
  function ConsumeFrom(h: LotHeap, remaining: real): (r: (seq<Update>, LotHeap))
    ensures 0 < |r.0| <= |h| + 1 && |r.1| <= |h|
    decreases |h|
  {
    if |h| == 0 then ([Update(remaining, 0.0, [ConsumedTooMuch], None, Consumption)], [])
    else if h[0].item.amount < remaining then
      var rest := ConsumeFrom(h[1..], remaining - h[0].item.amount);
      ([Popped(h[0].item, Consumption)] + rest.0, rest.1)
    else
      var e := h[0].item;
      ([Update(remaining, e.price, [], Some(e.transactionBundle), Consumption)],
       [Keyed(h[0].key, e.(amount := e.amount - remaining))] + h[1..])
  }

  /**
   * What `destroy({ amount: remaining })` returns and the heap it leaves; `cost` is the
   * running cost of the lots popped so far, folded into the price of the next popped lot.
   */
  function DestroyFrom(h: LotHeap, remaining: real, cost: real): (r: (seq<Update>, LotHeap))
    ensures 0 < |r.0| <= |h| + 1 && |r.1| <= |h|
    decreases |h|
  {
    if |h| == 0 then ([Update(remaining, 0.0, [DestroyedTooMuch], None, Destruction)], [])
    else if h[0].item.amount <= remaining then
      var f := Folded(h[0].item, cost);
      var rest := DestroyFrom(h[1..], remaining - h[0].item.amount, LotCost(f));
      ([Popped(f, Destruction)] + rest.0, rest.1)
    else
      var e := h[0].item;
      var left := e.amount - remaining;
      var p := Div(LotCost(e), left);
      ([Update(remaining, p, [], Some(e.transactionBundle), Destruction)],
       [Keyed(h[0].key, Lot(left, p, e.transactionBundle))] + h[1..])
  }

  /** A lot about to be destroyed in full, its price raised by the cost accumulated so far. */
  function Folded(e: Lot, cost: real): (f: Lot)
    ensures f.amount == e.amount && f.transactionBundle == e.transactionBundle
    ensures e.amount != 0.0 ==> f.price * f.amount == e.price * e.amount + cost
  {
    e.(price := Div(e.price * e.amount + cost, e.amount))
  }

  /** `element.price * element.amount`: what a lot cost in total. */
  function LotCost(f: Lot): real {
    f.price * f.amount
  }

  /** The amounts `consume` reports always add up to the amount requested. */
  lemma {:induction false} ConsumeReportsRequestedAmount(h: LotHeap, amount: real)
    ensures SumUpdates(ConsumeFrom(h, amount).0) == amount
    decreases |h|
  {
    if |h| > 0 && h[0].item.amount < amount {
      var rest := ConsumeFrom(h[1..], amount - h[0].item.amount);
      ConsumeReportsRequestedAmount(h[1..], amount - h[0].item.amount);
      assert ([Popped(h[0].item, Consumption)] + rest.0)[1..] == rest.0;
    }
  }

  /**
   * Shape of `consume`: every entry but the last is a whole lot popped from the top, in heap
   * order. The last entry is either the shortfall (heap emptied) or the part taken from the
   * next lot, which stays in place with its key and price, reduced by that part, possibly
   * to exactly zero.
   */
  lemma {:induction false} ConsumeShape(h: LotHeap, amount: real)
    ensures var r := ConsumeFrom(h, amount);
      |r.0| - 1 <= |h| &&
      (forall i | 0 <= i < |r.0| - 1 :: r.0[i] == Popped(h[i].item, Consumption)) &&
      (r.1 == [] <==> |r.0| - 1 == |h|) &&
      (|r.0| - 1 == |h| ==> r.0[|h|] == Update(r.0[|h|].amount, 0.0, [ConsumedTooMuch], None, Consumption)) &&
      (|r.0| - 1 < |h| ==> LastServed(h[|r.0| - 1], r.0[|r.0| - 1], r.1, h[|r.0|..]))
    decreases |h|
  {
    var r := ConsumeFrom(h, amount);
    if |h| > 0 && h[0].item.amount < amount {
      var a := amount - h[0].item.amount;
      ConsumeShape(h[1..], a);
      var rest := ConsumeFrom(h[1..], a);
      assert r.0 == [Popped(h[0].item, Consumption)] + rest.0 && r.1 == rest.1;
      forall i | 1 <= i < |r.0| - 1
        ensures r.0[i] == Popped(h[i].item, Consumption)
      {
        assert r.0[i] == rest.0[i - 1] && h[i] == h[1..][i - 1];
      }
      if |r.0| - 1 < |h| {
        assert h[1..][|rest.0| - 1] == h[|r.0| - 1];
        assert h[1..][|rest.0|..] == h[|r.0|..];
      }
    } else if |h| > 0 {
      assert h[1..] == h[|r.0|..];
    }
  }

  /** The lot `consume` stopped at: served `u` at its own price, left in place reduced by `u`. */
  predicate LastServed(lot: Keyed<Lot>, u: Update, h': LotHeap, below: LotHeap) {
    lot.item.amount >= u.amount &&
    u == Update(u.amount, lot.item.price, [], Some(lot.item.transactionBundle), Consumption) &&
    h' == [Keyed(lot.key, lot.item.(amount := lot.item.amount - u.amount))] + below
  }

  /** `consume` pops a lot only while its amount is strictly below what is still to serve. */
  lemma {:induction false} ConsumePopsOnlySmallerLots(h: LotHeap, amount: real)
    ensures var us := ConsumeFrom(h, amount).0;
      forall i | 0 <= i < |us| - 1 :: i < |h| && h[i].item.amount < amount - SumUpdates(us[..i])
    decreases |h|
  {
    var us := ConsumeFrom(h, amount).0;
    if |h| > 0 && h[0].item.amount < amount {
      var a := amount - h[0].item.amount;
      ConsumePopsOnlySmallerLots(h[1..], a);
      var rest := ConsumeFrom(h[1..], a).0;
      var p := Popped(h[0].item, Consumption);
      assert us == [p] + rest;
      assert us[..0] == [];
      forall i | 1 <= i < |us| - 1
        ensures i < |h| && h[i].item.amount < amount - SumUpdates(us[..i])
      {
        assert us[..i] == [p] + rest[..i - 1];
        assert (us[..i])[1..] == rest[..i - 1];
        assert h[i] == h[1..][i - 1];
      }
    }
  }

  /** `consume` leaves the lots it did not reach, and every key, where they were. */
  lemma ConsumeKeepsOrder(h: LotHeap, amount: real)
    requires SortedDesc(h)
    ensures SortedDesc(ConsumeFrom(h, amount).1)
  {
    ConsumeShape(h, amount);
    var (us, h') := ConsumeFrom(h, amount);
    var k := |us| - 1;
    if k < |h| {
      assert h'[0].key == h[k].key;
      assert forall i | 1 <= i < |h'| :: h'[i] == h[k + i];
    }
  }

  /** Consuming exactly a lot's amount leaves that lot in the heap with amount zero. */
  lemma ConsumeExactLeavesZeroLot(key: real, lot: Lot, rest: LotHeap)
    ensures ConsumeFrom([Keyed(key, lot)] + rest, lot.amount).1 == [Keyed(key, lot.(amount := 0.0))] + rest
  {
    var h := [Keyed(key, lot)] + rest;
    assert h[1..] == rest;
  }

  /** Once the lots run out, `consume` reports the rest at price 0 with a note, and the heap is empty. */
  lemma ConsumeShortfall(h: LotHeap, amount: real)
    requires forall i | 0 <= i < |h| :: h[i].item.amount >= 0.0
    requires TotalAmount(h) < amount
    ensures var (us, h') := ConsumeFrom(h, amount);
      h' == [] && us[|us| - 1] == Update(amount - TotalAmount(h), 0.0, [ConsumedTooMuch], None, Consumption)
    decreases |h|
  {
    if |h| > 0 {
      TotalAmountNonNegative(h[1..]);
      ConsumeShortfall(h[1..], amount - h[0].item.amount);
    }
  }

  lemma {:induction false} TotalAmountNonNegative(h: LotHeap)
    requires forall i | 0 <= i < |h| :: h[i].item.amount >= 0.0
    ensures TotalAmount(h) >= 0.0
  {
    if h != [] {
      TotalAmountNonNegative(h[1..]);
    }
  }

  /** The amounts `destroy` reports always add up to the amount requested. */
  lemma {:induction false} DestroyReportsRequestedAmount(h: LotHeap, amount: real, cost: real)
    ensures SumUpdates(DestroyFrom(h, amount, cost).0) == amount
    decreases |h|
  {
    if |h| > 0 && h[0].item.amount <= amount {
      var f := Folded(h[0].item, cost);
      var rest := DestroyFrom(h[1..], amount - h[0].item.amount, LotCost(f));
      DestroyReportsRequestedAmount(h[1..], amount - h[0].item.amount, LotCost(f));
      assert DestroyFrom(h, amount, cost).0 == [Popped(f, Destruction)] + rest.0;
      assert ([Popped(f, Destruction)] + rest.0)[1..] == rest.0;
    }
  }

  /**
   * What `destroy` leaves: either nothing, or the first lot it did not pop fully, now holding
   * strictly less but a strictly positive amount at the same total cost, followed by the
   * untouched rest.
   */
  lemma {:induction false} DestroyShape(h: LotHeap, amount: real, cost: real)
    ensures var (us, h') := DestroyFrom(h, amount, cost);
      var k := |us| - 1;
      k <= |h| && (h' == [] <==> k == |h|) &&
      (k == |h| ==> us[k].price == 0.0 && us[k].notes == [DestroyedTooMuch] && us[k].transactionBundle == None) &&
      (k < |h| ==>
        0.0 < h'[0].item.amount &&
        LotCost(h'[0].item) == LotCost(h[k].item) &&
        h'[0].key == h[k].key && h'[0].item.transactionBundle == h[k].item.transactionBundle &&
        h'[0].item.amount == h[k].item.amount - us[k].amount &&
        h'[1..] == h[k + 1..])
    decreases |h|
  {
    if |h| > 0 && h[0].item.amount <= amount {
      var f := Folded(h[0].item, cost);
      DestroyShape(h[1..], amount - h[0].item.amount, LotCost(f));
      var rest := DestroyFrom(h[1..], amount - h[0].item.amount, LotCost(f));
      var k := |rest.0| - 1;
      if k < |h[1..]| {
        assert h[1..][k] == h[k + 1];
        assert h[1..][k + 1..] == h[k + 2..];
      }
    }
  }

  /**
   * The cost `destroy` accumulates from fully destroyed lots never reaches the heap: the lots
   * left behind are the same whatever the accumulated cost, so the held cost of the lots
   * destroyed in full is lost.
   */
  lemma {:induction false} DestroyDropsAccumulatedCost(h: LotHeap, amount: real, cost: real)
    ensures DestroyFrom(h, amount, cost).1 == DestroyFrom(h, amount, 0.0).1
    decreases |h|
  {
    if |h| > 0 && h[0].item.amount <= amount {
      var f := Folded(h[0].item, cost);
      var g := Folded(h[0].item, 0.0);
      DestroyDropsAccumulatedCost(h[1..], amount - h[0].item.amount, LotCost(f));
      DestroyDropsAccumulatedCost(h[1..], amount - h[0].item.amount, LotCost(g));
    }
  }

  /** `destroy` leaves the lots it did not reach, and every key, where they were. */
  lemma DestroyKeepsOrder(h: LotHeap, amount: real, cost: real)
    requires SortedDesc(h)
    ensures SortedDesc(DestroyFrom(h, amount, cost).1)
  {
    DestroyShape(h, amount, cost);
    var (us, h') := DestroyFrom(h, amount, cost);
    var k := |us| - 1;
    if k < |h| {
      assert h'[0].key == h[k].key;
      assert forall i | 1 <= i < |h'| :: h'[i] == h[k + i];
    }
  }

  /**
   * Lots of 1 bought at 10 and 10 bought at 1; destroying 2 pops the first lot, then keeps 9
   * of the second at a total cost of 10: the first lot's cost of 10 is gone.
   */
  lemma DestroyAcrossLotsExample(b: TransactionBundle)
    ensures var h := [Keyed(10.0, Lot(1.0, 10.0, b)), Keyed(1.0, Lot(10.0, 1.0, b))];
      var (us, h') := DestroyFrom(h, 2.0, 0.0);
      us == [Update(1.0, 10.0, [], Some(b), Destruction), Update(1.0, 10.0 / 9.0, [], Some(b), Destruction)] &&
      h' == [Keyed(1.0, Lot(9.0, 10.0 / 9.0, b))]
  {
    var h := [Keyed(10.0, Lot(1.0, 10.0, b)), Keyed(1.0, Lot(10.0, 1.0, b))];
    assert h[1..] == [Keyed(1.0, Lot(10.0, 1.0, b))];
    assert h[1..][1..] == [];
  }

  /** Highest price first: with lots bought at 100 and at 200, a disposal of 1 is served at 200. */
  lemma HighestPriceFirstExample(b: TransactionBundle)
    ensures var h := Push(Push([], Keyed(100.0, Lot(1.0, 100.0, b))), Keyed(200.0, Lot(1.0, 200.0, b)));
      ConsumeFrom(h, 1.0).0 == [Update(1.0, 200.0, [], Some(b), Consumption)]
  {
    var x := Keyed(100.0, Lot(1.0, 100.0, b));
    var y := Keyed(200.0, Lot(1.0, 200.0, b));
    var h1 := Push([], x);
    assert h1 == [x];
    assert InsertIndex(h1, y) == 0;
    assert Push(h1, y) == [y, x];
  }

  /** A tracker: one currency's lots. */
  class CostBasisTracker {
    var heap: LotHeap

    ghost predicate Valid()
      reads this
    {
      SortedDesc(heap)
    }

    constructor ()
      ensures Valid() && heap == []
    {
      heap := [];
    }

    /** `accrue`: one new lot keyed by its price, reported as an accrual. */
    method Accrue(amount: real, price: real, transactionBundle: TransactionBundle) returns (u: Update)
      requires Valid()
      modifies this
      ensures Valid()
      ensures heap == Push(old(heap), Keyed(price, Lot(amount, price, transactionBundle)))
      ensures u == Update(amount, price, [], Some(transactionBundle), Accrual)
    {
      heap := Push(heap, Keyed(price, Lot(amount, price, transactionBundle)));
      u := Update(amount, price, [], Some(transactionBundle), Accrual);
    }

    /** `consume`: pop whole lots while the top lot is smaller than what is left to serve. */
    method Consume(amount: real) returns (updates: seq<Update>)
      requires Valid()
      modifies this
      ensures Valid()
      ensures (updates, heap) == ConsumeFrom(old(heap), amount)
    {
      ghost var h0 := heap;
      var amountToConsume := amount;
      updates := [];
      while |heap| > 0 && heap[0].item.amount < amountToConsume
        invariant SortedDesc(heap)
        invariant updates + ConsumeFrom(heap, amountToConsume).0 == ConsumeFrom(h0, amount).0
        invariant ConsumeFrom(heap, amountToConsume).1 == ConsumeFrom(h0, amount).1
        decreases |heap|
      {
        var element := heap[0].item;
        heap := heap[1..];
        updates := updates + [Popped(element, Consumption)];
        amountToConsume := amountToConsume - element.amount;
      }
      if |heap| > 0 {
        var element := heap[0].item;
        ConsumeKeepsOrder(heap, amountToConsume);
        heap := [Keyed(heap[0].key, element.(amount := element.amount - amountToConsume))] + heap[1..];
        updates := updates + [Update(amountToConsume, element.price, [], Some(element.transactionBundle), Consumption)];
      } else {
        updates := updates + [Update(amountToConsume, 0.0, [ConsumedTooMuch], None, Consumption)];
      }
    }

    /**
     * `destroy`: pop whole lots while the top lot is not larger than what is left; each popped
     * lot's price absorbs the cost accumulated so far; the last lot served keeps its cost.
     */
    method Destroy(amount: real) returns (updates: seq<Update>)
      requires Valid()
      modifies this
      ensures Valid()
      ensures (updates, heap) == DestroyFrom(old(heap), amount, 0.0)
    {
      ghost var h0 := heap;
      var amountToDestroy := amount;
      var cost := 0.0;
      updates := [];
      while |heap| > 0 && heap[0].item.amount <= amountToDestroy
        invariant SortedDesc(heap)
        invariant updates + DestroyFrom(heap, amountToDestroy, cost).0 == DestroyFrom(h0, amount, 0.0).0
        invariant DestroyFrom(heap, amountToDestroy, cost).1 == DestroyFrom(h0, amount, 0.0).1
        decreases |heap|
      {
        var element := Folded(heap[0].item, cost);
        cost := LotCost(element);
        heap := heap[1..];
        updates := updates + [Popped(element, Destruction)];
        amountToDestroy := amountToDestroy - element.amount;
      }
      if |heap| == 0 {
        updates := updates + [Update(amountToDestroy, 0.0, [DestroyedTooMuch], None, Destruction)];
      } else {
        var element := heap[0].item;
        DestroyKeepsOrder(heap, amountToDestroy, cost);
        cost := LotCost(element);
        var left := element.amount - amountToDestroy;
        var price := Div(cost, left);
        heap := [Keyed(heap[0].key, Lot(left, price, element.transactionBundle))] + heap[1..];
        updates := updates + [Update(amountToDestroy, price, [], Some(element.transactionBundle), Destruction)];
      }
    }
  }
}
