/**
 * `BundleConsolidator`: turns the bundles produced per source into the list the tax engine
 * reads. Empty and excluded bundles are dropped, complete bundles pass through, duplicate
 * reports of one transfer are folded into one bundle, siblings sharing an id are merged, and
 * the remaining outbound bundles are paired with inbound bundles of the same amount and
 * currency close in time.
 */
module Consolidation {
  import opened Wrappers
  import opened Numbers
  import opened Strings
  import opened Collections
  import opened AtomicTransactions
  import opened Bundles

  /** The errors `consolidateBundles` throws. */
  datatype ConsolidationError =
    | TooManyDuplicates(id: string, count: nat)   // more than two mutually equal bundles
    | BothControlledUnmatched(id: string)         // matcher handed a bundle controlled on both ends
    | NeitherControlled(id: string)               // synthetizable bundle controlled on neither end

  function BundleIdOf(b: TransactionBundle): string { b.id }

  /** The legs of a list of bundles, one bundle after the other. */
  function AllTransactions(bs: seq<TransactionBundle>): seq<AtomicTransaction>
    decreases |bs|
  {
    if bs == [] then [] else AllTransactions(bs[..|bs| - 1]) + bs[|bs| - 1].atomicTransactions
  }

  // ---------------------------------------------------------------------------------------
  // Dropping empty and excluded bundles; complete bundles

  predicate NotEmpty(b: TransactionBundle) { !IsEmpty(b) }

  /** The exclusion list, upper-cased. */
  function UpperAll(shitcoins: seq<string>): seq<string> {
    seq(|shitcoins|, i requires 0 <= i < |shitcoins| => ToUpper(shitcoins[i]))
  }

  /**
   * `shitcoins.map(toUpperCase).includes(bundle.atomicTransactions[0].currency.ticker)`.
   * Only non-empty bundles reach this test, so a first leg always exists there.
   */
  predicate Excluded(b: TransactionBundle, upper: seq<string>) {
    |b.atomicTransactions| > 0 && b.atomicTransactions[0].currency in upper
  }

  /** `separateShitcoinsFromLegitCoins`: `[excluded, kept]`, each in input order. */
  function SeparateShitcoins(bundles: seq<TransactionBundle>, shitcoins: seq<string>)
    : (r: (seq<TransactionBundle>, seq<TransactionBundle>))
    ensures forall i | 0 <= i < |r.0| :: r.0[i] in bundles && Excluded(r.0[i], UpperAll(shitcoins))
    ensures forall i | 0 <= i < |r.1| :: r.1[i] in bundles && !Excluded(r.1[i], UpperAll(shitcoins))
    ensures multiset(r.0) + multiset(r.1) == multiset(bundles)
  {
    var upper := UpperAll(shitcoins);
    PartitionPermutation(bundles, b => Excluded(b, upper));
    Partition(bundles, b => Excluded(b, upper))
  }

  /** A ticker is excluded whatever the case it is listed in. */
  lemma ExclusionIgnoresCase(b: TransactionBundle, shitcoins: seq<string>, i: nat)
    requires i < |shitcoins| && |b.atomicTransactions| > 0
    requires b.atomicTransactions[0].currency == ToUpper(shitcoins[i])
    ensures Excluded(b, UpperAll(shitcoins))
  {
    assert UpperAll(shitcoins)[i] == ToUpper(shitcoins[i]);
  }

  /** `separateCompleteAndIncompleteBundles`: `[complete, incomplete]`, each in input order. */
  function SeparateComplete(bundles: seq<TransactionBundle>): (r: (seq<TransactionBundle>, seq<TransactionBundle>))
    ensures forall i | 0 <= i < |r.0| :: r.0[i] in bundles && IsComplete(r.0[i])
    ensures forall i | 0 <= i < |r.1| :: r.1[i] in bundles && !IsComplete(r.1[i])
    ensures multiset(r.0) + multiset(r.1) == multiset(bundles)
  {
    PartitionPermutation(bundles, IsComplete);
    Partition(bundles, IsComplete)
  }

  // ---------------------------------------------------------------------------------------
  // removeDuplicates

  /** The two lists `removeDuplicates` fills. */
  datatype Dedupped = Dedupped(complete: seq<TransactionBundle>, incomplete: seq<TransactionBundle>)

  /** The bundle that stands for a pair of identical reports: complete, `transfer`, same legs and id. */
  function DeduplicatedTransfer(b: TransactionBundle): TransactionBundle {
    TransactionBundle(b.atomicTransactions, Transfer, Complete, b.id, [])
  }

  /** `bundleArray.filter((b) => b.equal(bundle))`. */
  function Identical(rest: seq<TransactionBundle>, bundle: TransactionBundle): seq<TransactionBundle>
    decreases |rest|
  {
    if rest == [] then []
    else (if BundleEqual(rest[0], bundle) then [rest[0]] else []) + Identical(rest[1..], bundle)
  }

  /** What stays in the set once the identical bundles are deleted; together they are all of `rest`. */
  function Others(rest: seq<TransactionBundle>, bundle: TransactionBundle): (r: seq<TransactionBundle>)
    ensures |Identical(rest, bundle)| + |r| == |rest|
    decreases |rest|
  {
    if rest == [] then []
    else (if BundleEqual(rest[0], bundle) then [] else [rest[0]]) + Others(rest[1..], bundle)
  }

  /** The identical bundles are exactly the equal ones of `rest`; the others are the rest of `rest`. */
  lemma {:induction false} SplitMembers(rest: seq<TransactionBundle>, bundle: TransactionBundle)
    ensures forall x | x in Identical(rest, bundle) :: x in rest && BundleEqual(x, bundle)
    ensures forall x | x in Others(rest, bundle) :: x in rest && !BundleEqual(x, bundle)
    ensures forall i | 0 <= i < |rest| :: rest[i] in Identical(rest, bundle) || rest[i] in Others(rest, bundle)
    decreases |rest|
  {
    if rest != [] {
      SplitMembers(rest[1..], bundle);
      forall i | 0 < i < |rest|
        ensures rest[i] in Identical(rest, bundle) || rest[i] in Others(rest, bundle)
      {
        assert rest[i] == rest[1..][i - 1];
      }
    }
  }

  /**
   * The `while (bundleSet.size > 0)` loop over one id group, continuing the lists in `acc`:
   * take the last bundle, look for equal bundles among the others, record one complete
   * transfer for a pair or keep the bundle incomplete, and delete it and its partners.
   */
  function DedupFrom(pool: seq<TransactionBundle>, acc: Dedupped): Result<Dedupped, ConsolidationError>
    decreases |pool|
  {
    if pool == [] then Ok(acc)
    else
      var bundle := pool[|pool| - 1];
      var rest := pool[..|pool| - 1];
      var identical := Identical(rest, bundle);
      if |identical| > 1 then Err(TooManyDuplicates(bundle.id, |identical| + 1))
      else DedupFrom(Others(rest, bundle), Record(acc, bundle, |identical| == 1))
  }

  /** The memo after handling `bundle`: one complete transfer if it had a partner, else the bundle kept. */
  function Record(acc: Dedupped, bundle: TransactionBundle, paired: bool): Dedupped {
    if paired then Dedupped(acc.complete + [DeduplicatedTransfer(bundle)], acc.incomplete)
    else Dedupped(acc.complete, acc.incomplete + [bundle])
  }

  lemma RecordShift(acc: Dedupped, bundle: TransactionBundle, paired: bool, tail: Dedupped)
    ensures var step := Record(NoneYet, bundle, paired);
      var acc' := Record(acc, bundle, paired);
      acc'.complete + tail.complete == acc.complete + (step.complete + tail.complete) &&
      acc'.incomplete + tail.incomplete == acc.incomplete + (step.incomplete + tail.incomplete)
  {
    assert [] + [DeduplicatedTransfer(bundle)] == [DeduplicatedTransfer(bundle)];
    assert [] + [bundle] == [bundle];
    assert acc.complete + [] == acc.complete && acc.incomplete + [] == acc.incomplete;
  }

  /** The `reduce` over the id groups, one shared memo. */
  function DedupGroups(groups: seq<seq<TransactionBundle>>, acc: Dedupped): Result<Dedupped, ConsolidationError>
    decreases |groups|
  {
    if groups == [] then Ok(acc)
    else
      match DedupFrom(groups[0], acc)
      case Err(e) => Err(e)
      case Ok(acc') => DedupGroups(groups[1..], acc')
  }

  /** `removeDuplicates`. */
  function RemoveDuplicates(bundles: seq<TransactionBundle>): Result<Dedupped, ConsolidationError> {
    DedupGroups(GroupBy(bundles, BundleIdOf), Dedupped([], []))
  }

  /** `s` read backwards. */
  function Reversed<T>(s: seq<T>): (r: seq<T>)
    ensures |r| == |s|
    decreases |s|
  {
    if s == [] then [] else [s[|s| - 1]] + Reversed(s[..|s| - 1])
  }

  const NoneYet := Dedupped([], [])

  /** `acc` followed by what a run from empty lists records. */
  function Shift(acc: Dedupped, r: Result<Dedupped, ConsolidationError>): Result<Dedupped, ConsolidationError> {
    if r.Err? then r else Ok(Dedupped(acc.complete + r.value.complete, acc.incomplete + r.value.incomplete))
  }

  /** The memo only grows: a run with lists `acc` records what a run from empty lists records, after `acc`. */
  lemma {:induction false} DedupShift(pool: seq<TransactionBundle>, acc: Dedupped)
    ensures DedupFrom(pool, acc) == Shift(acc, DedupFrom(pool, NoneYet))
    decreases |pool|
  {
    if pool == [] {
      assert acc.complete + [] == acc.complete && acc.incomplete + [] == acc.incomplete;
    } else {
      var bundle := pool[|pool| - 1];
      var rest := pool[..|pool| - 1];
      var identical := Identical(rest, bundle);
      var others := Others(rest, bundle);
      if |identical| <= 1 {
        var paired := |identical| == 1;
        var step := Record(NoneYet, bundle, paired);
        var acc' := Record(acc, bundle, paired);
        DedupShift(others, acc');
        DedupShift(others, step);
        var tail := DedupFrom(others, NoneYet);
        if tail.Ok? {
          RecordShift(acc, bundle, paired, tail.value);
        }
      }
    }
  }

  /** Every bundle of a group is accounted for once: a pair gives one bundle, a lone bundle stays. */
  lemma {:induction false} DedupCounts(pool: seq<TransactionBundle>)
    ensures var r := DedupFrom(pool, NoneYet);
      r.Ok? ==> 2 * |r.value.complete| + |r.value.incomplete| == |pool|
    decreases |pool|
  {
    if pool != [] {
      var bundle := pool[|pool| - 1];
      var rest := pool[..|pool| - 1];
      var identical := Identical(rest, bundle);
      var others := Others(rest, bundle);
      if |identical| <= 1 {
        var step := Record(NoneYet, bundle, |identical| == 1);
        DedupShift(others, step);
        DedupCounts(others);
      }
    }
  }

  /** `c` is the complete `transfer` bundle made from some bundle of `pool`. */
  predicate TransferOfSome(c: TransactionBundle, pool: seq<TransactionBundle>) {
    exists b | b in pool :: c == DeduplicatedTransfer(b)
  }

  /** Every recorded bundle comes from the group: a kept bundle itself, or the transfer made from one. */
  lemma {:induction false} DedupOrigins(pool: seq<TransactionBundle>)
    ensures var r := DedupFrom(pool, NoneYet);
      r.Ok? ==>
        (forall c | c in r.value.complete :: TransferOfSome(c, pool)) &&
        (forall x | x in r.value.incomplete :: x in pool)
    decreases |pool|
  {
    if pool != [] {
      var bundle := pool[|pool| - 1];
      var rest := pool[..|pool| - 1];
      var identical := Identical(rest, bundle);
      var others := Others(rest, bundle);
      if |identical| <= 1 {
        var step := Record(NoneYet, bundle, |identical| == 1);
        DedupShift(others, step);
        DedupOrigins(others);
        SplitMembers(rest, bundle);
        var r := DedupFrom(pool, NoneYet);
        if r.Ok? {
          var tail := DedupFrom(others, NoneYet).value;
          assert r.value.complete == step.complete + tail.complete;
          assert r.value.incomplete == step.incomplete + tail.incomplete;
          assert bundle in pool;
          forall c | c in r.value.complete ensures TransferOfSome(c, pool) {
            if c in tail.complete {
              var b :| b in others && c == DeduplicatedTransfer(b);
              assert b in rest;
            }
          }
          forall x | x in r.value.incomplete ensures x in pool {
            if x in tail.incomplete {
              assert x in rest;
            }
          }
        }
      }
    }
  }

  /** No two bundles of the group are equal to each other. */
  predicate NoEqualPair(pool: seq<TransactionBundle>) {
    forall i, j | 0 <= i < |pool| && 0 <= j < |pool| && i != j :: !BundleEqual(pool[i], pool[j])
  }

  /** A group without equal bundles stays incomplete, bundle by bundle from the last one back. */
  lemma {:induction false} DistinctGroupStaysIncomplete(pool: seq<TransactionBundle>, acc: Dedupped)
    requires NoEqualPair(pool)
    ensures DedupFrom(pool, acc) == Ok(Dedupped(acc.complete, acc.incomplete + Reversed(pool)))
    decreases |pool|
  {
    if pool == [] {
      assert acc.incomplete + Reversed(pool) == acc.incomplete;
    } else {
      var bundle := pool[|pool| - 1];
      var rest := pool[..|pool| - 1];
      NoEqualPairSplit(pool);
      NoneRejected(rest, bundle);
      DistinctGroupStaysIncomplete(rest, Record(acc, bundle, false));
      ReversedSnoc(acc.incomplete, pool);
    }
  }

  /** Without equal pairs, the last bundle equals none before it and the prefix has no equal pair. */
  lemma NoEqualPairSplit(pool: seq<TransactionBundle>)
    requires |pool| > 0 && NoEqualPair(pool)
    ensures var rest := pool[..|pool| - 1];
      NoEqualPair(rest) && forall i | 0 <= i < |rest| :: !BundleEqual(rest[i], pool[|pool| - 1])
  {
    var rest := pool[..|pool| - 1];
    forall i | 0 <= i < |rest| ensures !BundleEqual(rest[i], pool[|pool| - 1]) {
      assert rest[i] == pool[i];
    }
    forall i, j | 0 <= i < |rest| && 0 <= j < |rest| && i != j ensures !BundleEqual(rest[i], rest[j]) {
      assert rest[i] == pool[i] && rest[j] == pool[j];
    }
  }

  lemma ReversedSnoc<T>(front: seq<T>, s: seq<T>)
    requires |s| > 0
    ensures front + [s[|s| - 1]] + Reversed(s[..|s| - 1]) == front + Reversed(s)
  {
    assert s != [];
    SeqAssoc(front, [s[|s| - 1]], Reversed(s[..|s| - 1]));
  }

  lemma SeqAssoc<T>(a: seq<T>, b: seq<T>, c: seq<T>)
    ensures a + b + c == a + (b + c)
  {
  }

  lemma {:induction false} NoneRejected(rest: seq<TransactionBundle>, bundle: TransactionBundle)
    requires forall i | 0 <= i < |rest| :: !BundleEqual(rest[i], bundle)
    ensures Identical(rest, bundle) == [] && Others(rest, bundle) == rest
    decreases |rest|
  {
    if rest != [] {
      assert !BundleEqual(rest[0], bundle);
      NoneRejected(rest[1..], bundle);
      assert rest == [rest[0]] + rest[1..];
    }
  }

  /** Two reports of one transfer give exactly one complete `transfer` bundle. */
  lemma PairBecomesOneTransfer(x: TransactionBundle, y: TransactionBundle, acc: Dedupped)
    requires BundleEqual(x, y)
    ensures DedupFrom([x, y], acc) == Ok(Dedupped(acc.complete + [DeduplicatedTransfer(y)], acc.incomplete))
  {
    var rest := [x, y][..1];
    assert rest == [x];
    assert Identical(rest, y) == [x];
    assert Others(rest, y) == [];
  }

  /** A bundle with two equal partners makes `removeDuplicates` throw. */
  lemma ThreeReportsThrow(x: TransactionBundle, y: TransactionBundle, z: TransactionBundle, acc: Dedupped)
    requires BundleEqual(x, z) && BundleEqual(y, z)
    ensures DedupFrom([x, y, z], acc) == Err(TooManyDuplicates(z.id, 3))
  {
    var rest := [x, y, z][..2];
    assert rest == [x, y];
    assert rest[1..] == [y];
    assert Identical(rest, z) == [x] + Identical([y], z);
    assert Identical([y], z) == [y] + Identical([], z);
  }

  lemma {:induction false} DedupGroupsShift(groups: seq<seq<TransactionBundle>>, acc: Dedupped)
    ensures DedupGroups(groups, acc) == Shift(acc, DedupGroups(groups, NoneYet))
    decreases |groups|
  {
    if groups == [] {
      assert acc.complete + [] == acc.complete && acc.incomplete + [] == acc.incomplete;
    } else {
      DedupShift(groups[0], acc);
      var first := DedupFrom(groups[0], NoneYet);
      if first.Ok? {
        var step := first.value;
        var acc' := Dedupped(acc.complete + step.complete, acc.incomplete + step.incomplete);
        DedupGroupsShift(groups[1..], acc');
        DedupGroupsShift(groups[1..], step);
        var tail := DedupGroups(groups[1..], NoneYet);
        if tail.Ok? {
          assert acc'.complete + tail.value.complete == acc.complete + (step.complete + tail.value.complete);
          assert acc'.incomplete + tail.value.incomplete == acc.incomplete + (step.incomplete + tail.value.incomplete);
        }
      }
    }
  }

  /** Over all groups: every bundle is accounted for once, and every recorded bundle comes from the groups. */
  lemma {:induction false} DedupGroupsAccounts(groups: seq<seq<TransactionBundle>>)
    ensures var r := DedupGroups(groups, NoneYet);
      r.Ok? ==>
        2 * |r.value.complete| + |r.value.incomplete| == |Flatten(groups)| &&
        (forall c | c in r.value.complete :: TransferOfSome(c, Flatten(groups))) &&
        (forall x | x in r.value.incomplete :: x in Flatten(groups))
    decreases |groups|
  {
    if groups != [] {
      var first := DedupFrom(groups[0], NoneYet);
      if first.Ok? {
        var step := first.value;
        DedupCounts(groups[0]);
        DedupOrigins(groups[0]);
        DedupGroupsShift(groups[1..], step);
        DedupGroupsAccounts(groups[1..]);
        var r := DedupGroups(groups, NoneYet);
        var all := Flatten(groups);
        assert all == groups[0] + Flatten(groups[1..]);
        if r.Ok? {
          var tail := DedupGroups(groups[1..], NoneYet).value;
          assert r.value.complete == step.complete + tail.complete;
          assert r.value.incomplete == step.incomplete + tail.incomplete;
          forall c | c in r.value.complete ensures TransferOfSome(c, all) {
            if c in step.complete {
              var b :| b in groups[0] && c == DeduplicatedTransfer(b);
              assert b in all;
            } else {
              var b :| b in Flatten(groups[1..]) && c == DeduplicatedTransfer(b);
              assert b in all;
            }
          }
        }
      }
    }
  }

  /**
   * `removeDuplicates` of a list: every input bundle ends up either kept incomplete or, with
   * the one report it duplicates, as one complete `transfer` bundle.
   */
  lemma RemoveDuplicatesAccounts(bundles: seq<TransactionBundle>)
    ensures var r := RemoveDuplicates(bundles);
      r.Ok? ==>
        2 * |r.value.complete| + |r.value.incomplete| == |bundles| &&
        (forall c | c in r.value.complete :: TransferOfSome(c, bundles)) &&
        (forall x | x in r.value.incomplete :: x in bundles)
  {
    var groups := GroupBy(bundles, BundleIdOf);
    DedupGroupsAccounts(groups);
    GroupByPermutation(bundles, BundleIdOf);
    var all := Flatten(groups);
    assert |all| == |multiset(all)| == |multiset(bundles)| == |bundles|;
    forall b | b in all ensures b in bundles {
      assert b in multiset(all);
    }
    var r := RemoveDuplicates(bundles);
    if r.Ok? {
      forall c | c in r.value.complete ensures TransferOfSome(c, bundles) {
        var b :| b in all && c == DeduplicatedTransfer(b);
        assert b in bundles;
      }
    }
  }

  // ---------------------------------------------------------------------------------------
  // The imperative stages of removeDuplicates

  /** The `while` loop of `removeDuplicates` on one group. */
  method DedupGroupOn(group: seq<TransactionBundle>, acc: Dedupped) returns (r: Result<Dedupped, ConsolidationError>)
    ensures r == DedupFrom(group, acc)
  {
    var pool := group;
    var memo := acc;
    while |pool| > 0
      invariant DedupFrom(pool, memo) == DedupFrom(group, acc)
      decreases |pool|
    {
      var bundle := pool[|pool| - 1];
      var rest := pool[..|pool| - 1];
      var identical := Identical(rest, bundle);
      if |identical| > 0 {
        if |identical| > 1 {
          return Err(TooManyDuplicates(bundle.id, |identical| + 1));
        }
        memo := Record(memo, bundle, true);
      } else {
        memo := Record(memo, bundle, false);
      }
      pool := Others(rest, bundle);
    }
    return Ok(memo);
  }

  /** `removeDuplicates`: the group loop with its shared memo. */
  method RemoveDuplicatesOn(bundles: seq<TransactionBundle>) returns (r: Result<Dedupped, ConsolidationError>)
    ensures r == RemoveDuplicates(bundles)
  {
    var groups := GroupBy(bundles, BundleIdOf);
    var memo := Dedupped([], []);
    for i := 0 to |groups|
      invariant DedupGroups(groups[i..], memo) == RemoveDuplicates(bundles)
    {
      assert groups[i..][1..] == groups[i + 1..];
      var step := DedupGroupOn(groups[i], memo);
      if step.Err? {
        return Err(step.error);
      }
      memo := step.value;
    }
    return Ok(memo);
  }

  // ---------------------------------------------------------------------------------------
  // Legs of a list of bundles

  lemma {:induction false} AllTransactionsAppend(a: seq<TransactionBundle>, b: seq<TransactionBundle>)
    ensures AllTransactions(a + b) == AllTransactions(a) + AllTransactions(b)
    decreases |b|
  {
    if b == [] {
      assert a + b == a;
    } else {
      assert (a + b)[..|a + b| - 1] == a + b[..|b| - 1];
      assert (a + b)[|a + b| - 1] == b[|b| - 1];
      AllTransactionsAppend(a, b[..|b| - 1]);
    }
  }

  /** The legs of a list of bundles depend only on which bundles it holds, not on their order. */
  lemma {:induction false} AllTransactionsPermutation(a: seq<TransactionBundle>, b: seq<TransactionBundle>)
    requires multiset(a) == multiset(b)
    ensures multiset(AllTransactions(a)) == multiset(AllTransactions(b))
    decreases |a|
  {
    if a == [] {
      assert |multiset(b)| == 0;
      assert b == [];
    } else {
      var x := a[|a| - 1];
      var a' := a[..|a| - 1];
      assert a == a' + [x];
      assert multiset(a') == multiset(a) - multiset{x};
      assert x in multiset(b);
      var j :| 0 <= j < |b| && b[j] == x;
      RemoveAtLegs(b, j);
      AllTransactionsPermutation(a', b[..j] + b[j + 1..]);
    }
  }

  lemma RemoveAtLegs(b: seq<TransactionBundle>, j: nat)
    requires j < |b|
    ensures multiset(b[..j] + b[j + 1..]) == multiset(b) - multiset{b[j]}
    ensures multiset(AllTransactions(b)) ==
      multiset(AllTransactions(b[..j] + b[j + 1..])) + multiset(b[j].atomicTransactions)
  {
    var x, p, q := b[j], b[..j], b[j + 1..];
    SplitAt(b, j);
    assert AllTransactions(b) == AllTransactions(p) + x.atomicTransactions + AllTransactions(q) by {
      AllTransactionsAppend(p + [x], q);
      assert (p + [x])[..|p + [x]| - 1] == p;
    }
    AllTransactionsAppend(p, q);
  }

  // ---------------------------------------------------------------------------------------
  // separateBundlesWithUniqueIdAndThoseWithSharedId

  /** The `reduce` over the id groups: `[shared, unique]`, groups of several bundles first. */
  function SplitGroups(groups: seq<seq<TransactionBundle>>): (r: (seq<TransactionBundle>, seq<TransactionBundle>))
    ensures multiset(r.0) + multiset(r.1) == multiset(Flatten(groups))
    decreases |groups|
  {
    if groups == [] then ([], [])
    else
      var r := SplitGroups(groups[1..]);
      if |groups[0]| > 1 then (groups[0] + r.0, r.1) else (r.0, groups[0] + r.1)
  }

  /** A bundle lands in the shared list iff its group has several members. */
  lemma {:induction false} SplitGroupsMembers(groups: seq<seq<TransactionBundle>>)
    ensures forall x | x in SplitGroups(groups).0 :: exists i | 0 <= i < |groups| :: x in groups[i] && |groups[i]| > 1
    ensures forall x | x in SplitGroups(groups).1 :: exists i | 0 <= i < |groups| :: x in groups[i] && |groups[i]| == 1
    ensures forall i, x | 0 <= i < |groups| && x in groups[i] ::
      if |groups[i]| > 1 then x in SplitGroups(groups).0 else x in SplitGroups(groups).1
    decreases |groups|
  {
    if groups != [] {
      SplitGroupsMembers(groups[1..]);
      forall x | x in SplitGroups(groups).0
        ensures exists i | 0 <= i < |groups| :: x in groups[i] && |groups[i]| > 1
      {
        if x !in groups[0] || |groups[0]| <= 1 {
          var i :| 0 <= i < |groups[1..]| && x in groups[1..][i] && |groups[1..][i]| > 1;
          assert groups[i + 1] == groups[1..][i];
        }
      }
      forall x | x in SplitGroups(groups).1
        ensures exists i | 0 <= i < |groups| :: x in groups[i] && |groups[i]| == 1
      {
        if x !in groups[0] || |groups[0]| > 1 {
          var i :| 0 <= i < |groups[1..]| && x in groups[1..][i] && |groups[1..][i]| == 1;
          assert groups[i + 1] == groups[1..][i];
        }
      }
      forall i, x | 0 <= i < |groups| && x in groups[i]
        ensures if |groups[i]| > 1 then x in SplitGroups(groups).0 else x in SplitGroups(groups).1
      {
        if i > 0 {
          assert groups[i] == groups[1..][i - 1];
        }
      }
    }
  }

  /** `separateBundlesWithUniqueIdAndThoseWithSharedId`: `[shared, unique]` by id multiplicity. */
  function SeparateByIdSharing(bundles: seq<TransactionBundle>): (r: (seq<TransactionBundle>, seq<TransactionBundle>))
    ensures multiset(r.0) + multiset(r.1) == multiset(bundles)
  {
    GroupByPermutation(bundles, BundleIdOf);
    SplitGroups(GroupBy(bundles, BundleIdOf))
  }

  /** Every bundle of a group has the group's id. */
  lemma GroupMembersHaveKey(bundles: seq<TransactionBundle>, i: nat, x: TransactionBundle)
    requires i < |GroupBy(bundles, BundleIdOf)| && x in GroupBy(bundles, BundleIdOf)[i]
    ensures GroupBy(bundles, BundleIdOf)[i] == WithKey(bundles, BundleIdOf, x.id)
  {
    var ks := DistinctKeys(bundles, BundleIdOf);
    WithKeyElements(bundles, BundleIdOf, ks[i]);
  }

  /**
   * A bundle goes to the shared list iff at least one other bundle carries its id, and to
   * the unique list iff it is the only one with its id.
   */
  lemma SharingFollowsIdCount(bundles: seq<TransactionBundle>, b: TransactionBundle)
    requires b in bundles
    ensures b in SeparateByIdSharing(bundles).0 <==> |WithKey(bundles, BundleIdOf, b.id)| > 1
    ensures b in SeparateByIdSharing(bundles).1 <==> |WithKey(bundles, BundleIdOf, b.id)| == 1
  {
    var groups := GroupBy(bundles, BundleIdOf);
    var ks := DistinctKeys(bundles, BundleIdOf);
    var r := SplitGroups(groups);
    SplitGroupsMembers(groups);
    DistinctKeysCover(bundles, BundleIdOf);
    var k :| 0 <= k < |bundles| && bundles[k] == b;
    assert BundleIdOf(bundles[k]) in ks;
    var i :| 0 <= i < |ks| && ks[i] == b.id;
    WithKeyElements(bundles, BundleIdOf, b.id);
    assert b in groups[i];
    if b in r.0 {
      var j :| 0 <= j < |groups| && b in groups[j] && |groups[j]| > 1;
      GroupMembersHaveKey(bundles, j, b);
    }
    if b in r.1 {
      var j :| 0 <= j < |groups| && b in groups[j] && |groups[j]| == 1;
      GroupMembersHaveKey(bundles, j, b);
    }
  }

  // ---------------------------------------------------------------------------------------
  // mergeSiblings

  /** One id group folded into a single complete bundle with the first sibling's action and id. */
  function MergeGroup(g: seq<TransactionBundle>): TransactionBundle
    requires |g| > 0
  {
    TransactionBundle(AllTransactions(g), g[0].action, Complete, g[0].id, [])
  }

  /** `mergeSiblings`: one merged bundle per id, in order of the id's first appearance. */
  function MergeSiblings(bundles: seq<TransactionBundle>): (r: seq<TransactionBundle>)
    ensures |r| == |DistinctKeys(bundles, BundleIdOf)|
    ensures forall i | 0 <= i < |r| ::
      var g := WithKey(bundles, BundleIdOf, DistinctKeys(bundles, BundleIdOf)[i]);
      |g| > 0 && r[i] == MergeGroup(g) && r[i].id == DistinctKeys(bundles, BundleIdOf)[i]
  {
    var groups := GroupBy(bundles, BundleIdOf);
    seq(|groups|, i requires 0 <= i < |groups| => MergeGroup(groups[i]))
  }

  /** The merged bundles carry pairwise distinct ids, one for every id of the input. */
  lemma SiblingIdsDistinct(bundles: seq<TransactionBundle>)
    ensures var r := MergeSiblings(bundles);
      (forall i, j | 0 <= i < j < |r| :: r[i].id != r[j].id) &&
      (forall b | b in bundles :: exists i | 0 <= i < |r| :: r[i].id == b.id)
  {
    var r := MergeSiblings(bundles);
    var ks := DistinctKeys(bundles, BundleIdOf);
    DistinctKeysCover(bundles, BundleIdOf);
    forall b | b in bundles ensures exists i | 0 <= i < |r| :: r[i].id == b.id {
      var k :| 0 <= k < |bundles| && bundles[k] == b;
      assert BundleIdOf(bundles[k]) in ks;
      var i :| 0 <= i < |ks| && ks[i] == b.id;
      assert r[i].id == b.id;
    }
  }

  lemma {:induction false} MergedGroupsLegs(groups: seq<seq<TransactionBundle>>)
    requires forall i | 0 <= i < |groups| :: |groups[i]| > 0
    ensures AllTransactions(seq(|groups|, i requires 0 <= i < |groups| => MergeGroup(groups[i])))
      == AllTransactions(Flatten(groups))
    decreases |groups|
  {
    var m := seq(|groups|, i requires 0 <= i < |groups| => MergeGroup(groups[i]));
    if groups != [] {
      var m' := seq(|groups| - 1, i requires 0 <= i < |groups| - 1 => MergeGroup(groups[1..][i]));
      MergedGroupsLegs(groups[1..]);
      assert m == [m[0]] + m';
      AllTransactionsAppend([m[0]], m');
      AllTransactionsAppend(groups[0], Flatten(groups[1..]));
      assert AllTransactions([m[0]]) == m[0].atomicTransactions by {
        assert [m[0]][..0] == [];
      }
    }
  }

  /** Merging siblings loses and invents no leg. */
  lemma SiblingsKeepLegs(bundles: seq<TransactionBundle>)
    ensures multiset(AllTransactions(MergeSiblings(bundles))) == multiset(AllTransactions(bundles))
  {
    var groups := GroupBy(bundles, BundleIdOf);
    MergedGroupsLegs(groups);
    assert MergeSiblings(bundles) == seq(|groups|, i requires 0 <= i < |groups| => MergeGroup(groups[i]));
    GroupByPermutation(bundles, BundleIdOf);
    AllTransactionsPermutation(Flatten(groups), bundles);
  }

  // ---------------------------------------------------------------------------------------
  // separateBundlesWithToAndFromControlledFromOther

  predicate BothEndsControlled(b: TransactionBundle) { ToControlled(b) && FromControlled(b) }

  /** `separateBundlesWithToAndFromControlledFromOther`: `[both ends controlled, the others]`, in input order. */
  function SeparateBothControlled(bundles: seq<TransactionBundle>): (r: (seq<TransactionBundle>, seq<TransactionBundle>))
    ensures forall i | 0 <= i < |r.0| :: r.0[i] in bundles && BothEndsControlled(r.0[i])
    ensures forall i | 0 <= i < |r.1| :: r.1[i] in bundles && !BothEndsControlled(r.1[i])
    ensures multiset(r.0) + multiset(r.1) == multiset(bundles)
  {
    PartitionPermutation(bundles, BothEndsControlled);
    Partition(bundles, BothEndsControlled)
  }

  // ---------------------------------------------------------------------------------------
  // mergeBundlesByAmountCurrencyAndTime: classification

  /** A bundle the matcher kept, with its synthetic transaction. */
  datatype Candidate = Candidate(bundle: TransactionBundle, synth: AtomicTransaction)

  function CandidateBundle(c: Candidate): TransactionBundle { c.bundle }

  function BundlesOf(cs: seq<Candidate>): seq<TransactionBundle> { Project(cs, CandidateBundle) }

  /** The `reduce`'s memo: the outbound set, the inbound set and the orphans found so far. */
  datatype Pools = Pools(froms: seq<Candidate>, tos: seq<Candidate>, orphans: seq<TransactionBundle>)

  /** A bundle the classifying `reduce` throws on. */
  predicate Misfit(b: TransactionBundle) {
    (FromControlled(b) && ToControlled(b)) || (Synthetizable(b) && !FromControlled(b) && !ToControlled(b))
  }

  /** One step of the `reduce`: throw, keep as orphan, or add to the outbound or inbound set. */
  function ClassifyStep(acc: Pools, b: TransactionBundle): (r: Result<Pools, ConsolidationError>)
    ensures r.Err? <==> Misfit(b)
  {
    if FromControlled(b) && ToControlled(b) then Err(BothControlledUnmatched(b.id))
    else
      match SyntheticTransaction(b)
      case Err(_) => Ok(Pools(acc.froms, acc.tos, acc.orphans + [b]))
      case Ok(t) =>
        if FromControlled(b) then Ok(Pools(acc.froms + [Candidate(b, t)], acc.tos, acc.orphans))
        else if ToControlled(b) then Ok(Pools(acc.froms, acc.tos + [Candidate(b, t)], acc.orphans))
        else Err(NeitherControlled(b.id))
  }

  /** The `reduce`, continuing from `acc`. */
  function Classify(bundles: seq<TransactionBundle>, acc: Pools): Result<Pools, ConsolidationError>
    decreases |bundles|
  {
    if bundles == [] then Ok(acc)
    else
      match ClassifyStep(acc, bundles[0])
      case Err(e) => Err(e)
      case Ok(acc') => Classify(bundles[1..], acc')
  }

  /** The classification throws iff some bundle is controlled on both ends, or synthetizable and on neither. */
  lemma {:induction false} ClassifyFailsOnMisfit(bundles: seq<TransactionBundle>, acc: Pools)
    ensures Classify(bundles, acc).Err? <==> exists i | 0 <= i < |bundles| :: Misfit(bundles[i])
    decreases |bundles|
  {
    if bundles != [] {
      var step := ClassifyStep(acc, bundles[0]);
      if step.Ok? {
        ClassifyFailsOnMisfit(bundles[1..], step.value);
        if exists i | 0 <= i < |bundles| :: Misfit(bundles[i]) {
          var i :| 0 <= i < |bundles| && Misfit(bundles[i]);
          assert bundles[1..][i - 1] == bundles[i];
        }
        if exists i | 0 <= i < |bundles[1..]| :: Misfit(bundles[1..][i]) {
          var i :| 0 <= i < |bundles[1..]| && Misfit(bundles[1..][i]);
          assert bundles[i + 1] == bundles[1..][i];
        }
      }
    }
  }

  /** An outbound candidate: controlled sender only, with the bundle's own synthetic transaction. */
  predicate Outbound(c: Candidate) {
    SyntheticTransaction(c.bundle) == Ok(c.synth) && FromControlled(c.bundle) && !ToControlled(c.bundle)
  }

  /** An inbound candidate: controlled recipient only, with the bundle's own synthetic transaction. */
  predicate Inbound(c: Candidate) {
    SyntheticTransaction(c.bundle) == Ok(c.synth) && ToControlled(c.bundle) && !FromControlled(c.bundle)
  }

  predicate Unsynthetizable(b: TransactionBundle) { !Synthetizable(b) }

  predicate PoolsValid(p: Pools) {
    All(p.froms, Outbound) && All(p.tos, Inbound) && All(p.orphans, Unsynthetizable)
  }

  function PoolContents(p: Pools): multiset<TransactionBundle> {
    multiset(BundlesOf(p.froms)) + multiset(BundlesOf(p.tos)) + multiset(p.orphans)
  }

  lemma ClassifyStepSorts(acc: Pools, b: TransactionBundle)
    requires PoolsValid(acc)
    ensures var r := ClassifyStep(acc, b);
      r.Ok? ==> PoolsValid(r.value) && PoolContents(r.value) == PoolContents(acc) + multiset{b}
  {
    if !(FromControlled(b) && ToControlled(b)) {
      var t := SyntheticTransaction(b);
      if t.Err? {
        OrphanAdded(acc, b);
      } else if FromControlled(b) {
        OutboundAdded(acc, Candidate(b, t.value));
      } else if ToControlled(b) {
        InboundAdded(acc, Candidate(b, t.value));
      }
    }
  }

  lemma OrphanAdded(acc: Pools, b: TransactionBundle)
    requires PoolsValid(acc) && !Synthetizable(b)
    ensures var p := Pools(acc.froms, acc.tos, acc.orphans + [b]);
      PoolsValid(p) && PoolContents(p) == PoolContents(acc) + multiset{b}
  {
    AllAppend(acc.orphans, [b], Unsynthetizable);
  }

  lemma OutboundAdded(acc: Pools, c: Candidate)
    requires PoolsValid(acc) && Outbound(c)
    ensures var p := Pools(acc.froms + [c], acc.tos, acc.orphans);
      PoolsValid(p) && PoolContents(p) == PoolContents(acc) + multiset{c.bundle}
  {
    AllAppend(acc.froms, [c], Outbound);
    ProjectSnoc(acc.froms, c, CandidateBundle);
  }

  lemma InboundAdded(acc: Pools, c: Candidate)
    requires PoolsValid(acc) && Inbound(c)
    ensures var p := Pools(acc.froms, acc.tos + [c], acc.orphans);
      PoolsValid(p) && PoolContents(p) == PoolContents(acc) + multiset{c.bundle}
  {
    AllAppend(acc.tos, [c], Inbound);
    ProjectSnoc(acc.tos, c, CandidateBundle);
  }

  /**
   * Classification loses and invents no bundle: every bundle ends up in exactly one pool,
   * outbound candidates send only from, inbound ones only to, controlled addresses, and the
   * orphans found here are the unsynthetizable bundles.
   */
  lemma {:induction false} ClassifySorts(bundles: seq<TransactionBundle>, acc: Pools)
    requires PoolsValid(acc)
    ensures var r := Classify(bundles, acc);
      r.Ok? ==> PoolsValid(r.value) && PoolContents(r.value) == PoolContents(acc) + multiset(bundles)
    decreases |bundles|
  {
    if bundles != [] {
      ClassifyStepSorts(acc, bundles[0]);
      var step := ClassifyStep(acc, bundles[0]);
      if step.Ok? {
        ClassifySorts(bundles[1..], step.value);
        SplitAt(bundles, 0);
      }
    }
  }

  // ---------------------------------------------------------------------------------------
  // mergeBundlesByAmountCurrencyAndTime: finding the inbound partner

  /** One hour in milliseconds: how far an inbound record may precede the outbound one. */
  const OneHour: int := 3600 * 1000

  function SynthMs(c: Candidate): int { c.synth.createdAt.ms }

  /**
   * The time clause of the `find`: the inbound record is not earlier than the outbound one,
   * or less than an hour apart.
   */
  predicate CloseInTime(fromMs: int, toMs: int) {
    toMs >= fromMs || AbsInt(toMs - fromMs) < OneHour
  }

  /** The time clause admits exactly the inbound records less than an hour earlier or any time later. */
  lemma CloseInTimeMeans(fromMs: int, toMs: int)
    ensures CloseInTime(fromMs, toMs) <==> toMs > fromMs - OneHour
  {
  }

  /**
   * The predicate of the `find`: a different recipient object from the outbound sender, the
   * same currency, amounts within the relative tolerance of their mean, and close in time.
   */
  predicate Matches(f: Candidate, t: Candidate) {
    var out, inc := f.synth, t.synth;
    inc.to != out.from
    && inc.currency == out.currency
    && Abs(inc.amount - out.amount) <= ((inc.amount + out.amount) / 2.0) * Tolerance
    && CloseInTime(out.createdAt.ms, inc.createdAt.ms)
  }

  predicate ByTime(s: seq<Candidate>) {
    forall i, j | 0 <= i < j < |s| :: SynthMs(s[i]) <= SynthMs(s[j])
  }

  /** Insertion into a list sorted by time, after every element not later than `c`. */
  function InsertByTime(sorted: seq<Candidate>, c: Candidate): (r: seq<Candidate>)
    ensures multiset(r) == multiset(sorted) + multiset{c}
    ensures ByTime(sorted) ==> ByTime(r)
    decreases |sorted|
  {
    if sorted == [] || SynthMs(sorted[|sorted| - 1]) <= SynthMs(c) then sorted + [c]
    else
      var last := sorted[|sorted| - 1];
      var init := sorted[..|sorted| - 1];
      var r := InsertByTime(init, c);
      SnocSplit(sorted);
      if ByTime(sorted) then
        LaterLastKeepsOrder(init, last, r, c);
        r + [last]
      else r + [last]
  }

  lemma LaterLastKeepsOrder(init: seq<Candidate>, last: Candidate, r: seq<Candidate>, c: Candidate)
    requires ByTime(init + [last]) && ByTime(r) && SynthMs(c) < SynthMs(last)
    requires multiset(r) == multiset(init) + multiset{c}
    ensures ByTime(r + [last])
  {
    var s := init + [last];
    assert s[|init|] == last;
    forall i | 0 <= i < |r| ensures SynthMs(r[i]) <= SynthMs(last) {
      assert r[i] in multiset(r);
      assert r[i] in multiset(init) + multiset{c};
      if r[i] != c {
        assert r[i] in init;
        var k :| 0 <= k < |init| && init[k] == r[i];
        assert s[k] == r[i];
        assert SynthMs(s[k]) <= SynthMs(s[|init|]);
      }
    }
  }

  /** `Array.from(toControlled).sort(...)` by synthetic `createdAt`, ascending and stable. */
  function SortByTime(s: seq<Candidate>): (r: seq<Candidate>)
    ensures multiset(r) == multiset(s) && ByTime(r)
    decreases |s|
  {
    if s == [] then []
    else
      SnocSplit(s);
      InsertByTime(SortByTime(s[..|s| - 1]), s[|s| - 1])
  }

  /** `.find(...)`: the first candidate matching `f`. */
  function FindFirst(s: seq<Candidate>, f: Candidate): (r: Option<Candidate>)
    ensures r.None? <==> forall i | 0 <= i < |s| :: !Matches(f, s[i])
    ensures r.Some? ==> r.value in s && Matches(f, r.value)
    decreases |s|
  {
    if s == [] then None
    else if Matches(f, s[0]) then Some(s[0])
    else
      var r := FindFirst(s[1..], f);
      assert forall i | 1 <= i < |s| :: s[i] == s[1..][i - 1];
      r
  }

  /** On a list sorted by time, the first match is an earliest one. */
  lemma {:induction false} FirstMatchEarliest(s: seq<Candidate>, f: Candidate)
    requires ByTime(s)
    ensures FindFirst(s, f).Some? ==>
      forall i | 0 <= i < |s| && Matches(f, s[i]) :: SynthMs(FindFirst(s, f).value) <= SynthMs(s[i])
    decreases |s|
  {
    if s != [] && !Matches(f, s[0]) {
      assert ByTime(s[1..]);
      FirstMatchEarliest(s[1..], f);
      forall i | 1 <= i < |s| ensures s[i] == s[1..][i - 1] {}
    }
  }

  /** The inbound partner of `f` in the current inbound set. */
  function FindMatch(tos: seq<Candidate>, f: Candidate): Option<Candidate> {
    FindFirst(SortByTime(tos), f)
  }

  /**
   * The partner found is an inbound candidate matching `f` with the earliest synthetic time
   * among all matching ones; there is none exactly when no candidate matches.
   */
  lemma MatchIsEarliest(tos: seq<Candidate>, f: Candidate)
    ensures var m := FindMatch(tos, f);
      (m.None? <==> forall i | 0 <= i < |tos| :: !Matches(f, tos[i])) &&
      (m.Some? ==>
        m.value in tos && Matches(f, m.value) &&
        forall i | 0 <= i < |tos| && Matches(f, tos[i]) :: SynthMs(m.value) <= SynthMs(tos[i]))
  {
    var sorted := SortByTime(tos);
    FirstMatchEarliest(sorted, f);
    forall i | 0 <= i < |tos| ensures tos[i] in sorted {
      assert tos[i] in multiset(tos);
    }
    var m := FindMatch(tos, f);
    if m.Some? {
      assert m.value in multiset(sorted);
    }
  }

  // ---------------------------------------------------------------------------------------
  // mergeBundlesByAmountCurrencyAndTime: pairing

  /** The new bundle for an outbound bundle and its inbound partner. */
  function MergePair(f: TransactionBundle, t: TransactionBundle): TransactionBundle {
    TransactionBundle(f.atomicTransactions + t.atomicTransactions, ToBeDetermined, Complete, f.id + t.id, [])
  }

  /** The `forEach`'s state: bundles pushed to `consolidatedBundles` and `orphanBundles`, and the inbound set. */
  datatype Matching = Matching(merged: seq<TransactionBundle>, orphans: seq<TransactionBundle>, tos: seq<Candidate>)

  /** One outbound bundle: merge it with its partner and drop the partner, or make it an orphan. */
  function MatchStep(st: Matching, f: Candidate): Matching {
    match FindMatch(st.tos, f)
    case Some(t) => Matching(st.merged + [MergePair(f.bundle, t.bundle)], st.orphans, RemoveFirst(st.tos, t))
    case None => Matching(st.merged, st.orphans + [f.bundle], st.tos)
  }

  /** The `forEach` over the outbound set, in order. */
  function MatchFroms(froms: seq<Candidate>, st: Matching): Matching
    decreases |froms|
  {
    if froms == [] then st else MatchFroms(froms[1..], MatchStep(st, froms[0]))
  }

  /** What `mergeBundlesByAmountCurrencyAndTime` returns. */
  datatype MergeOutcome = MergeOutcome(consolidated: seq<TransactionBundle>, orphans: seq<TransactionBundle>)

  /** `mergeBundlesByAmountCurrencyAndTime`; the inbound bundles left unmatched close the orphan list. */
  function MergeByTime(bundles: seq<TransactionBundle>): Result<MergeOutcome, ConsolidationError> {
    match Classify(bundles, Pools([], [], []))
    case Err(e) => Err(e)
    case Ok(p) =>
      var m := MatchFroms(p.froms, Matching([], p.orphans, p.tos));
      Ok(MergeOutcome(m.merged, m.orphans + BundlesOf(m.tos)))
  }

  /** Every leg held in a matching state. */
  function MatchingLegs(st: Matching): multiset<AtomicTransaction> {
    multiset(AllTransactions(st.merged)) + multiset(AllTransactions(st.orphans))
      + multiset(AllTransactions(BundlesOf(st.tos)))
  }

  lemma SnocLegs(bs: seq<TransactionBundle>, b: TransactionBundle)
    ensures multiset(AllTransactions(bs + [b])) == multiset(AllTransactions(bs)) + multiset(b.atomicTransactions)
  {
    AllTransactionsAppend(bs, [b]);
    assert AllTransactions([b]) == b.atomicTransactions by {
      assert [b][..0] == [];
    }
  }

  /** Dropping a candidate from the inbound set drops exactly its legs. */
  lemma RemovedCandidateLegs(tos: seq<Candidate>, t: Candidate)
    requires t in tos
    ensures multiset(AllTransactions(BundlesOf(tos))) ==
      multiset(AllTransactions(BundlesOf(RemoveFirst(tos, t)))) + multiset(t.bundle.atomicTransactions)
  {
    RemoveFirstAt(tos, t);
    var j :| 0 <= j < |tos| && tos[j] == t && RemoveFirst(tos, t) == tos[..j] + tos[j + 1..];
    ProjectRemoveAt(tos, j, CandidateBundle);
    RemoveAtLegs(BundlesOf(tos), j);
  }

  /** A matching step moves the outbound bundle's legs into the state and loses none. */
  lemma MatchStepKeepsLegs(st: Matching, f: Candidate)
    ensures MatchingLegs(MatchStep(st, f)) == MatchingLegs(st) + multiset(f.bundle.atomicTransactions)
  {
    MatchIsEarliest(st.tos, f);
    var m := FindMatch(st.tos, f);
    if m.Some? {
      var t := m.value;
      SnocLegs(st.merged, MergePair(f.bundle, t.bundle));
      RemovedCandidateLegs(st.tos, t);
    } else {
      SnocLegs(st.orphans, f.bundle);
    }
  }

  lemma {:induction false} MatchFromsKeepLegs(froms: seq<Candidate>, st: Matching)
    ensures MatchingLegs(MatchFroms(froms, st)) == MatchingLegs(st) + multiset(AllTransactions(BundlesOf(froms)))
    decreases |froms|
  {
    if froms == [] {
      assert BundlesOf(froms) == [];
    } else {
      MatchStepKeepsLegs(st, froms[0]);
      MatchFromsKeepLegs(froms[1..], MatchStep(st, froms[0]));
      FirstCandidateLegs(froms);
    }
  }

  lemma FirstCandidateLegs(cs: seq<Candidate>)
    requires |cs| > 0
    ensures AllTransactions(BundlesOf(cs)) == cs[0].bundle.atomicTransactions + AllTransactions(BundlesOf(cs[1..]))
  {
    var b, rest := cs[0].bundle, BundlesOf(cs[1..]);
    ProjectCons(cs, CandidateBundle);
    AllTransactionsAppend([b], rest);
    assert AllTransactions([b]) == b.atomicTransactions by {
      assert [b][..0] == [];
    }
  }

  /** The legs of the three pools are the legs of the pools laid end to end. */
  lemma PoolLegs(p: Pools)
    ensures var all := BundlesOf(p.froms) + BundlesOf(p.tos) + p.orphans;
      multiset(all) == PoolContents(p) &&
      multiset(AllTransactions(all)) == multiset(AllTransactions(BundlesOf(p.froms)))
        + multiset(AllTransactions(BundlesOf(p.tos))) + multiset(AllTransactions(p.orphans))
  {
    var a, b, c := BundlesOf(p.froms), BundlesOf(p.tos), p.orphans;
    AllTransactionsAppend(a + b, c);
    AllTransactionsAppend(a, b);
  }

  /** Merging by time loses and invents no leg: the consolidated and orphan bundles hold exactly the input's legs. */
  lemma MergeByTimeKeepsLegs(bundles: seq<TransactionBundle>)
    ensures var r := MergeByTime(bundles);
      r.Ok? ==>
        multiset(AllTransactions(r.value.consolidated)) + multiset(AllTransactions(r.value.orphans))
          == multiset(AllTransactions(bundles))
  {
    var init := Pools([], [], []);
    assert PoolContents(init) == multiset{} by {
      assert BundlesOf([]) == [];
    }
    ClassifySorts(bundles, init);
    var c := Classify(bundles, init);
    if c.Ok? {
      var p := c.value;
      PoolLegs(p);
      var all := BundlesOf(p.froms) + BundlesOf(p.tos) + p.orphans;
      AllTransactionsPermutation(all, bundles);
      var st := Matching([], p.orphans, p.tos);
      MatchFromsKeepLegs(p.froms, st);
      var m := MatchFroms(p.froms, st);
      AllTransactionsAppend(m.orphans, BundlesOf(m.tos));
      assert MergeByTime(bundles) == Ok(MergeOutcome(m.merged, m.orphans + BundlesOf(m.tos)));
      var legsFrom := multiset(AllTransactions(BundlesOf(p.froms)));
      var legsTo := multiset(AllTransactions(BundlesOf(p.tos)));
      var legsOrphan := multiset(AllTransactions(p.orphans));
      assert MatchingLegs(st) == legsOrphan + legsTo;
      assert multiset(AllTransactions(bundles)) == legsFrom + legsTo + legsOrphan;
      Regroup(multiset(AllTransactions(m.merged)), multiset(AllTransactions(m.orphans)),
        multiset(AllTransactions(BundlesOf(m.tos))), legsOrphan, legsTo, legsFrom);
    }
  }

  /** The merge throws iff some bundle is controlled on both ends, or synthetizable and on neither. */
  lemma MergeByTimeFailsOnMisfit(bundles: seq<TransactionBundle>)
    ensures MergeByTime(bundles).Err? <==> exists i | 0 <= i < |bundles| :: Misfit(bundles[i])
  {
    ClassifyFailsOnMisfit(bundles, Pools([], [], []));
  }

  /** A bundle the pairing produced: complete, its kind left to the tax engine. */
  predicate Settled(b: TransactionBundle) {
    b.status == Complete && b.action == ToBeDetermined
  }

  /** Every consolidated bundle is a complete pair whose kind is still to be determined. */
  lemma {:induction false} MatchFromsMergesComplete(froms: seq<Candidate>, st: Matching)
    requires All(st.merged, Settled)
    ensures All(MatchFroms(froms, st).merged, Settled)
    decreases |froms|
  {
    if froms != [] {
      var f := froms[0];
      var m := FindMatch(st.tos, f);
      if m.Some? {
        AllAppend(st.merged, [MergePair(f.bundle, m.value.bundle)], Settled);
      }
      MatchFromsMergesComplete(froms[1..], MatchStep(st, f));
    }
  }

  // ---------------------------------------------------------------------------------------
  // The imperative mergeBundlesByAmountCurrencyAndTime

  /** `mergeBundlesByAmountCurrencyAndTime`: the classifying `reduce`, then the `forEach` over the outbound set. */
  method MergeByTimeOn(bundles: seq<TransactionBundle>) returns (r: Result<MergeOutcome, ConsolidationError>)
    ensures r == MergeByTime(bundles)
  {
    var pools := Pools([], [], []);
    for i := 0 to |bundles|
      invariant Classify(bundles[i..], pools) == Classify(bundles, Pools([], [], []))
    {
      assert bundles[i..][1..] == bundles[i + 1..];
      var step := ClassifyStep(pools, bundles[i]);
      if step.Err? {
        return Err(step.error);
      }
      pools := step.value;
    }
    var consolidated: seq<TransactionBundle> := [];
    var orphans := pools.orphans;
    var tos := pools.tos;
    for i := 0 to |pools.froms|
      invariant MatchFroms(pools.froms[i..], Matching(consolidated, orphans, tos))
        == MatchFroms(pools.froms, Matching([], pools.orphans, pools.tos))
    {
      assert pools.froms[i..][1..] == pools.froms[i + 1..];
      var f := pools.froms[i];
      var toMatch := FindMatch(tos, f);
      if toMatch.Some? {
        consolidated := consolidated + [MergePair(f.bundle, toMatch.value.bundle)];
        tos := RemoveFirst(tos, toMatch.value);
      } else {
        orphans := orphans + [f.bundle];
      }
    }
    orphans := orphans + BundlesOf(tos);
    return Ok(MergeOutcome(consolidated, orphans));
  }

  /** The orphans and the inbound set only ever receive bundles from the outbound list or lose some. */
  lemma {:induction false} MatchFromsKeeps(froms: seq<Candidate>, st: Matching, p: TransactionBundle -> bool)
    requires All(BundlesOf(froms), p) && All(st.orphans, p) && All(BundlesOf(st.tos), p)
    ensures var m := MatchFroms(froms, st);
      All(m.orphans, p) && All(BundlesOf(m.tos), p)
    decreases |froms|
  {
    if froms != [] {
      var f := froms[0];
      ProjectCons(froms, CandidateBundle);
      AllAppend([f.bundle], BundlesOf(froms[1..]), p);
      var found := FindMatch(st.tos, f);
      if found.Some? {
        MatchIsEarliest(st.tos, f);
        RemoveFirstAt(st.tos, found.value);
        var j :| 0 <= j < |st.tos| && st.tos[j] == found.value && RemoveFirst(st.tos, found.value) == st.tos[..j] + st.tos[j + 1..];
        ProjectRemoveAt(st.tos, j, CandidateBundle);
        AllRemoveAt(BundlesOf(st.tos), j, p);
      } else {
        AllAppend(st.orphans, [f.bundle], p);
      }
      MatchFromsKeeps(froms[1..], MatchStep(st, f), p);
    }
  }

  /** The bundles classification puts in the pools are bundles of its input. */
  lemma ClassifiedFromInput(bundles: seq<TransactionBundle>, p: TransactionBundle -> bool)
    requires All(bundles, p)
    ensures var c := Classify(bundles, Pools([], [], []));
      c.Ok? ==> All(BundlesOf(c.value.froms), p) && All(BundlesOf(c.value.tos), p) && All(c.value.orphans, p)
  {
    var init := Pools([], [], []);
    assert PoolContents(init) == multiset{} by {
      assert BundlesOf([]) == [];
    }
    ClassifySorts(bundles, init);
    var c := Classify(bundles, init);
    if c.Ok? {
      PartsBelow(multiset(BundlesOf(c.value.froms)), multiset(BundlesOf(c.value.tos)), multiset(c.value.orphans),
        multiset(bundles));
      AllOfSubset(BundlesOf(c.value.froms), bundles, p);
      AllOfSubset(BundlesOf(c.value.tos), bundles, p);
      AllOfSubset(c.value.orphans, bundles, p);
    }
  }

  /** Every orphan `mergeBundlesByAmountCurrencyAndTime` returns is one of its input bundles, unchanged. */
  lemma OrphansFromInput(bundles: seq<TransactionBundle>, p: TransactionBundle -> bool)
    requires All(bundles, p)
    ensures var r := MergeByTime(bundles);
      r.Ok? ==> All(r.value.orphans, p)
  {
    ClassifiedFromInput(bundles, p);
    var c := Classify(bundles, Pools([], [], []));
    if c.Ok? {
      var st := Matching([], c.value.orphans, c.value.tos);
      MatchFromsKeeps(c.value.froms, st, p);
      var m := MatchFroms(c.value.froms, st);
      AllAppend(m.orphans, BundlesOf(m.tos), p);
    }
  }

  // ---------------------------------------------------------------------------------------
  // Bundles that survive the first filters

  /** Not empty, and not led by an excluded currency. */
  predicate Legit(b: TransactionBundle, upper: seq<string>) {
    !IsEmpty(b) && !Excluded(b, upper)
  }

  function KeptBy(upper: seq<string>): TransactionBundle -> bool {
    b => Legit(b, upper)
  }

  function MemberOf(bundles: seq<TransactionBundle>): TransactionBundle -> bool {
    b => b in bundles
  }

  /** Legs placed ahead of others keep the bundle legit. */
  lemma LeadingLegsDecide(b: TransactionBundle, c: TransactionBundle, more: seq<AtomicTransaction>, upper: seq<string>)
    requires Legit(b, upper) && c.atomicTransactions == b.atomicTransactions + more
    ensures Legit(c, upper)
  {
    NonEmptyMovesSomething(b);
    var i :| 0 <= i < |b.atomicTransactions| && b.atomicTransactions[i].amount != 0.0;
    assert c.atomicTransactions[i] == b.atomicTransactions[i];
    assert c.atomicTransactions[0] == b.atomicTransactions[0];
  }

  lemma MergePairLegit(f: TransactionBundle, t: TransactionBundle, upper: seq<string>)
    requires Legit(f, upper)
    ensures Legit(MergePair(f, t), upper)
  {
    LeadingLegsDecide(f, MergePair(f, t), t.atomicTransactions, upper);
  }

  lemma MergeGroupLegit(g: seq<TransactionBundle>, upper: seq<string>)
    requires |g| > 0 && Legit(g[0], upper)
    ensures Legit(MergeGroup(g), upper)
  {
    ConsSplit(g);
    AllTransactionsAppend([g[0]], g[1..]);
    assert AllTransactions([g[0]]) == g[0].atomicTransactions by {
      assert [g[0]][..0] == [];
    }
    LeadingLegsDecide(g[0], MergeGroup(g), AllTransactions(g[1..]), upper);
  }

  lemma {:induction false} MatchFromsMergedLegit(froms: seq<Candidate>, st: Matching, upper: seq<string>)
    requires All(BundlesOf(froms), KeptBy(upper)) && All(st.merged, KeptBy(upper))
    ensures All(MatchFroms(froms, st).merged, KeptBy(upper))
    decreases |froms|
  {
    if froms != [] {
      var f := froms[0];
      ProjectCons(froms, CandidateBundle);
      AllAppend([f.bundle], BundlesOf(froms[1..]), KeptBy(upper));
      var found := FindMatch(st.tos, f);
      if found.Some? {
        MergePairLegit(f.bundle, found.value.bundle, upper);
        AllAppend(st.merged, [MergePair(f.bundle, found.value.bundle)], KeptBy(upper));
      }
      MatchFromsMergedLegit(froms[1..], MatchStep(st, f), upper);
    }
  }

  /** Pairing by time keeps every bundle legit. */
  lemma MergeByTimeLegit(bundles: seq<TransactionBundle>, upper: seq<string>)
    requires All(bundles, KeptBy(upper))
    ensures var r := MergeByTime(bundles);
      r.Ok? ==> All(r.value.consolidated, KeptBy(upper)) && All(r.value.orphans, KeptBy(upper))
  {
    OrphansFromInput(bundles, KeptBy(upper));
    ClassifiedFromInput(bundles, KeptBy(upper));
    var c := Classify(bundles, Pools([], [], []));
    if c.Ok? {
      MatchFromsMergedLegit(c.value.froms, Matching([], c.value.orphans, c.value.tos), upper);
    }
  }

  /** Sibling merging keeps every bundle legit. */
  lemma SiblingsLegit(bundles: seq<TransactionBundle>, upper: seq<string>)
    requires All(bundles, KeptBy(upper))
    ensures All(MergeSiblings(bundles), KeptBy(upper))
  {
    var r := MergeSiblings(bundles);
    var ks := DistinctKeys(bundles, BundleIdOf);
    forall i | 0 <= i < |r| ensures Legit(r[i], upper) {
      var g := WithKey(bundles, BundleIdOf, ks[i]);
      WithKeyElements(bundles, BundleIdOf, ks[i]);
      assert g[0] in bundles;
      MergeGroupLegit(g, upper);
    }
  }

  /** Duplicate removal keeps every bundle legit. */
  lemma DedupLegit(bundles: seq<TransactionBundle>, upper: seq<string>)
    requires All(bundles, KeptBy(upper))
    ensures var r := RemoveDuplicates(bundles);
      r.Ok? ==> All(r.value.complete, KeptBy(upper)) && All(r.value.incomplete, KeptBy(upper))
  {
    RemoveDuplicatesAccounts(bundles);
    var r := RemoveDuplicates(bundles);
    if r.Ok? {
      forall i | 0 <= i < |r.value.complete| ensures Legit(r.value.complete[i], upper) {
        var c := r.value.complete[i];
        assert c in r.value.complete;
        var b :| b in bundles && c == DeduplicatedTransfer(b);
        LeadingLegsDecide(b, c, [], upper);
      }
      forall i | 0 <= i < |r.value.incomplete| ensures Legit(r.value.incomplete[i], upper) {
        assert r.value.incomplete[i] in r.value.incomplete;
      }
    }
  }

  // ---------------------------------------------------------------------------------------
  // consolidateBundles

  /** `consolidateBundles`: the stages in order, their outputs concatenated. */
  function Consolidate(bundles: seq<TransactionBundle>, shitcoins: seq<string>): Result<seq<TransactionBundle>, ConsolidationError> {
    var kept := SeparateShitcoins(Filter(bundles, NotEmpty), shitcoins).1;
    var split := SeparateComplete(kept);
    match RemoveDuplicates(split.1)
    case Err(e) => Err(e)
    case Ok(d) =>
      var sharing := SeparateByIdSharing(d.incomplete);
      var both := SeparateBothControlled(sharing.1);
      match MergeByTime(both.1)
      case Err(e) => Err(e)
      case Ok(m) => Ok(split.0 + d.complete + MergeSiblings(sharing.0) + m.consolidated + both.0 + m.orphans)
  }

  /** The bundles that reach the stages after the filters are all legit. */
  lemma KeptAreLegit(bundles: seq<TransactionBundle>, shitcoins: seq<string>)
    ensures All(SeparateShitcoins(Filter(bundles, NotEmpty), shitcoins).1, KeptBy(UpperAll(shitcoins)))
  {
  }

  /** The stages after the filters keep every bundle legit, whatever it is combined with. */
  lemma StagesKeepLegit(legit: seq<TransactionBundle>, upper: seq<string>)
    requires All(legit, KeptBy(upper))
    ensures var split := SeparateComplete(legit);
      var d := RemoveDuplicates(split.1);
      d.Ok? ==>
        var sharing := SeparateByIdSharing(d.value.incomplete);
        var both := SeparateBothControlled(sharing.1);
        var m := MergeByTime(both.1);
        All(split.0, KeptBy(upper)) && All(d.value.complete, KeptBy(upper)) &&
        All(MergeSiblings(sharing.0), KeptBy(upper)) && All(both.0, KeptBy(upper)) &&
        (m.Ok? ==> All(m.value.consolidated, KeptBy(upper)) && All(m.value.orphans, KeptBy(upper)))
  {
    var p := KeptBy(upper);
    var split := SeparateComplete(legit);
    AllOfSubset(split.0, legit, p);
    AllOfSubset(split.1, legit, p);
    DedupLegit(split.1, upper);
    var d := RemoveDuplicates(split.1);
    if d.Ok? {
      var sharing := SeparateByIdSharing(d.value.incomplete);
      AllOfSubset(sharing.0, d.value.incomplete, p);
      AllOfSubset(sharing.1, d.value.incomplete, p);
      SiblingsLegit(sharing.0, upper);
      var both := SeparateBothControlled(sharing.1);
      AllOfSubset(both.0, sharing.1, p);
      AllOfSubset(both.1, sharing.1, p);
      MergeByTimeLegit(both.1, upper);
    }
  }

  /**
   * `consolidateBundles` never returns an empty bundle, nor one whose first leg is in a
   * currency of the exclusion list, whatever the case that currency is listed in.
   */
  lemma ConsolidateKeepsLegit(bundles: seq<TransactionBundle>, shitcoins: seq<string>)
    ensures var r := Consolidate(bundles, shitcoins);
      r.Ok? ==> forall i | 0 <= i < |r.value| :: !IsEmpty(r.value[i]) && !Excluded(r.value[i], UpperAll(shitcoins))
  {
    var r := Consolidate(bundles, shitcoins);
    var p := KeptBy(UpperAll(shitcoins));
    ConsolidateAllKept(bundles, shitcoins);
    if r.Ok? {
      forall i | 0 <= i < |r.value| ensures !IsEmpty(r.value[i]) && !Excluded(r.value[i], UpperAll(shitcoins)) {
        assert p(r.value[i]);
      }
    }
  }

  lemma ConsolidateAllKept(bundles: seq<TransactionBundle>, shitcoins: seq<string>)
    ensures var r := Consolidate(bundles, shitcoins);
      r.Ok? ==> All(r.value, KeptBy(UpperAll(shitcoins)))
  {
    var upper := UpperAll(shitcoins);
    var p := KeptBy(upper);
    var kept := SeparateShitcoins(Filter(bundles, NotEmpty), shitcoins).1;
    KeptAreLegit(bundles, shitcoins);
    StagesKeepLegit(kept, upper);
    var r := Consolidate(bundles, shitcoins);
    if r.Ok? {
      var split := SeparateComplete(kept);
      var d := RemoveDuplicates(split.1).value;
      var sharing := SeparateByIdSharing(d.incomplete);
      var both := SeparateBothControlled(sharing.1);
      var m := MergeByTime(both.1).value;
      var s1 := split.0 + d.complete;
      var s2 := s1 + MergeSiblings(sharing.0);
      var s3 := s2 + m.consolidated;
      var s4 := s3 + both.0;
      assert r.value == s4 + m.orphans;
      AllAppend(split.0, d.complete, p);
      AllAppend(s1, MergeSiblings(sharing.0), p);
      AllAppend(s2, m.consolidated, p);
      AllAppend(s3, both.0, p);
      AllAppend(s4, m.orphans, p);
    }
  }

  function CompleteOrIn(bundles: seq<TransactionBundle>): TransactionBundle -> bool {
    (b: TransactionBundle) => b.status == Complete || b in bundles
  }

  /** The stages after the filters only pass through, as incomplete, bundles they were given. */
  lemma StagesPassThrough(legit: seq<TransactionBundle>, bundles: seq<TransactionBundle>)
    requires All(legit, MemberOf(bundles))
    ensures var split := SeparateComplete(legit);
      var d := RemoveDuplicates(split.1);
      d.Ok? ==>
        var sharing := SeparateByIdSharing(d.value.incomplete);
        var both := SeparateBothControlled(sharing.1);
        var m := MergeByTime(both.1);
        All(both.0, MemberOf(bundles)) && (m.Ok? ==> All(m.value.orphans, MemberOf(bundles)))
  {
    var q := MemberOf(bundles);
    var split := SeparateComplete(legit);
    AllOfSubset(split.1, legit, q);
    RemoveDuplicatesAccounts(split.1);
    var d := RemoveDuplicates(split.1);
    if d.Ok? {
      AllOfMembers(d.value.incomplete, split.1, q);
      var sharing := SeparateByIdSharing(d.value.incomplete);
      AllOfSubset(sharing.1, d.value.incomplete, q);
      var both := SeparateBothControlled(sharing.1);
      AllOfSubset(both.0, sharing.1, q);
      AllOfSubset(both.1, sharing.1, q);
      OrphansFromInput(both.1, q);
    }
  }

  /** The bundles the stages build are complete. */
  lemma StagesBuildComplete(legit: seq<TransactionBundle>, bundles: seq<TransactionBundle>)
    ensures var split := SeparateComplete(legit);
      var d := RemoveDuplicates(split.1);
      d.Ok? ==>
        var sharing := SeparateByIdSharing(d.value.incomplete);
        var both := SeparateBothControlled(sharing.1);
        var m := MergeByTime(both.1);
        All(split.0, CompleteOrIn(bundles)) && All(d.value.complete, CompleteOrIn(bundles)) &&
        All(MergeSiblings(sharing.0), CompleteOrIn(bundles)) &&
        (m.Ok? ==> All(m.value.consolidated, CompleteOrIn(bundles)))
  {
    var split := SeparateComplete(legit);
    RemoveDuplicatesAccounts(split.1);
    var d := RemoveDuplicates(split.1);
    if d.Ok? {
      forall i | 0 <= i < |d.value.complete| ensures d.value.complete[i].status == Complete {
        assert d.value.complete[i] in d.value.complete;
      }
      var sharing := SeparateByIdSharing(d.value.incomplete);
      var both := SeparateBothControlled(sharing.1);
      MatchFromsSettled(both.1);
    }
  }

  /**
   * Every bundle `consolidateBundles` returns is complete, or is one of the input bundles
   * passed through unchanged (the both-ends-controlled ones and the orphans).
   */
  lemma ConsolidatePassesIncompleteThrough(bundles: seq<TransactionBundle>, shitcoins: seq<string>)
    ensures var r := Consolidate(bundles, shitcoins);
      r.Ok? ==> forall i | 0 <= i < |r.value| :: r.value[i].status == Complete || r.value[i] in bundles
  {
    var r := Consolidate(bundles, shitcoins);
    var p := CompleteOrIn(bundles);
    var kept := SeparateShitcoins(Filter(bundles, NotEmpty), shitcoins).1;
    assert All(kept, MemberOf(bundles));
    StagesPassThrough(kept, bundles);
    StagesBuildComplete(kept, bundles);
    if r.Ok? {
      var split := SeparateComplete(kept);
      var d := RemoveDuplicates(split.1).value;
      var sharing := SeparateByIdSharing(d.incomplete);
      var both := SeparateBothControlled(sharing.1);
      var m := MergeByTime(both.1).value;
      assert All(both.0, p) && All(m.orphans, p) by {
        assert All(both.0, MemberOf(bundles)) && All(m.orphans, MemberOf(bundles));
      }
      assert r.value == split.0 + d.complete + MergeSiblings(sharing.0) + m.consolidated + both.0 + m.orphans;
      AllAppend(split.0, d.complete, p);
      AllAppend(split.0 + d.complete, MergeSiblings(sharing.0), p);
      AllAppend(split.0 + d.complete + MergeSiblings(sharing.0), m.consolidated, p);
      AllAppend(split.0 + d.complete + MergeSiblings(sharing.0) + m.consolidated, both.0, p);
      AllAppend(split.0 + d.complete + MergeSiblings(sharing.0) + m.consolidated + both.0, m.orphans, p);
    }
  }

  /** The consolidated bundles of a successful merge are complete pairs whose kind is still open. */
  lemma MatchFromsSettled(bundles: seq<TransactionBundle>)
    ensures var r := MergeByTime(bundles);
      r.Ok? ==> All(r.value.consolidated, Settled)
  {
    var c := Classify(bundles, Pools([], [], []));
    if c.Ok? {
      MatchFromsMergesComplete(c.value.froms, Matching([], c.value.orphans, c.value.tos));
    }
  }

  /** The consolidator object: the bundles it was built with, and the stage pipeline over them. */
  class BundleConsolidator {
    const bundles: seq<TransactionBundle>

    constructor (bundles: seq<TransactionBundle>)
      ensures this.bundles == bundles
    {
      this.bundles := bundles;
    }

    /**
     * `consolidateBundles`. Writing the stage outputs to the console and to files is not
     * modelled; the result is the concatenation of the stage outputs.
     */
    method ConsolidateBundles(shitcoins: seq<string>) returns (r: Result<seq<TransactionBundle>, ConsolidationError>)
      ensures r == Consolidate(bundles, shitcoins)
    {
      var nonEmpty := Filter(bundles, NotEmpty);
      var separated := SeparateShitcoins(nonEmpty, shitcoins);
      var split := SeparateComplete(separated.1);
      var dedup := RemoveDuplicatesOn(split.1);
      if dedup.Err? {
        return Err(dedup.error);
      }
      var sharing := SeparateByIdSharing(dedup.value.incomplete);
      var merged := MergeSiblings(sharing.0);
      var both := SeparateBothControlled(sharing.1);
      var byTime := MergeByTimeOn(both.1);
      if byTime.Err? {
        return Err(byTime.error);
      }
      return Ok(split.0 + dedup.value.complete + merged + byTime.value.consolidated + both.0 + byTime.value.orphans);
    }
  }
}
