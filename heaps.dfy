/**
 * Contract for the `Heap` helper the cost-basis tracker imports: a priority queue whose
 * priority is the number passed to `push`, largest first. The queue is a sequence kept in
 * descending key order; entries of equal key leave in the order they were pushed.
 */
module Heaps {

  /** An element together with the key it was pushed under. */
  datatype Keyed<T> = Keyed(key: real, item: T)

  predicate SortedDesc<T>(h: seq<Keyed<T>>) {
    forall i, j | 0 <= i < j < |h| :: h[i].key >= h[j].key
  }

  /** Where `push` places an entry: after every entry whose key is at least its own. */
  function InsertIndex<T>(h: seq<Keyed<T>>, x: Keyed<T>): (k: nat)
    ensures k <= |h|
  {
    if h == [] || h[0].key < x.key then 0 else 1 + InsertIndex(h[1..], x)
  }

  lemma {:induction false} InsertIndexSplits<T>(h: seq<Keyed<T>>, x: Keyed<T>)
    ensures forall i | 0 <= i < InsertIndex(h, x) :: h[i].key >= x.key
    ensures InsertIndex(h, x) < |h| ==> h[InsertIndex(h, x)].key < x.key
    ensures SortedDesc(h) ==> forall i | InsertIndex(h, x) <= i < |h| :: h[i].key < x.key
  {
    if h != [] && h[0].key >= x.key {
      InsertIndexSplits(h[1..], x);
    }
  }

  /** `heap.push(item, key)`: one entry more, and a descending queue stays descending. */
  function Push<T>(h: seq<Keyed<T>>, x: Keyed<T>): (r: seq<Keyed<T>>)
    ensures |r| == |h| + 1
    ensures SortedDesc(h) ==> SortedDesc(r)
  {
    var k := InsertIndex(h, x);
    InsertIndexSplits(h, x);
    InsertKeepsOrder(h, x);
    h[..k] + [x] + h[k..]
  }

  /**
   * Where `push` puts the new entry: in front of the first entry with a smaller key, so it
   * leaves after every entry whose key is at least its own; the other entries keep their order.
   */
  lemma PushPlacement<T>(h: seq<Keyed<T>>, x: Keyed<T>)
    ensures exists k | 0 <= k <= |h| ::
      Push(h, x) == h[..k] + [x] + h[k..] &&
      (forall i | 0 <= i < k :: h[i].key >= x.key) &&
      (k < |h| ==> h[k].key < x.key)
  {
    InsertIndexSplits(h, x);
  }

  /** Inserting at `InsertIndex` keeps a descending queue descending. */
  lemma InsertKeepsOrder<T>(h: seq<Keyed<T>>, x: Keyed<T>)
    ensures SortedDesc(h) ==>
      SortedDesc(h[..InsertIndex(h, x)] + [x] + h[InsertIndex(h, x)..])
  {
    var k := InsertIndex(h, x);
    if SortedDesc(h) {
      InsertIndexSplits(h, x);
      var r := h[..k] + [x] + h[k..];
      assert forall i | 0 <= i < k :: r[i] == h[i];
      assert r[k] == x;
      assert forall i | k < i < |r| :: r[i] == h[i - 1];
    }
  }

  /** The entry `peek` returns carries the largest key. */
  lemma PeekIsMax<T>(h: seq<Keyed<T>>)
    requires SortedDesc(h) && |h| > 0
    ensures forall i | 0 <= i < |h| :: h[i].key <= h[0].key
  {
  }
}
