/**
 * The post-fetch step of the Binance Smart Chain account: the bundles of all its normal,
 * internal and token transactions, without the empty ones, regrouped so that there is one
 * bundle per id.
 */
module BscGrouping {
  import opened Collections
  import opened AtomicTransactions
  import opened Bundles
  import opened Consolidation

  /** The bundle standing for one id group. */
  function Combine(id: string, g: seq<TransactionBundle>): TransactionBundle
    requires |g| > 0
  {
    if |g| == 1 then
      if IsPureFee(g[0]) then TransactionBundle(g[0].atomicTransactions, PureFeePayment, Complete, id, [])
      else g[0]
    else TransactionBundle(AllTransactions(g), ToBeDetermined, Incomplete, id, [])
  }

  /** Whatever the group's size, the combined bundle holds the group's legs in order. */
  lemma CombineLegs(id: string, g: seq<TransactionBundle>)
    requires |g| > 0
    ensures Combine(id, g).atomicTransactions == AllTransactions(g)
  {
    if |g| == 1 {
      assert g[..0] == [];
    }
  }

  /** `retrieveData`'s result: the non-empty bundles grouped by id, one bundle out per group. */
  function GroupBundles(bundles: seq<TransactionBundle>): (r: seq<TransactionBundle>)
    ensures var nonEmpty := Filter(bundles, NotEmpty);
      |r| == |DistinctKeys(nonEmpty, BundleIdOf)| &&
      forall i | 0 <= i < |r| ::
        var id := DistinctKeys(nonEmpty, BundleIdOf)[i];
        var g := WithKey(nonEmpty, BundleIdOf, id);
        |g| > 0 && r[i] == Combine(id, g)
  {
    var nonEmpty := Filter(bundles, NotEmpty);
    var ids := DistinctKeys(nonEmpty, BundleIdOf);
    var groups := GroupBy(nonEmpty, BundleIdOf);
    seq(|groups|, i requires 0 <= i < |groups| => Combine(ids[i], groups[i]))
  }

  /** The output bundle of group `i` carries the group's id. */
  lemma OutputIds(bundles: seq<TransactionBundle>)
    ensures var r := GroupBundles(bundles); var ids := DistinctKeys(Filter(bundles, NotEmpty), BundleIdOf);
      forall i | 0 <= i < |r| :: r[i].id == ids[i]
  {
    var r := GroupBundles(bundles);
    var nonEmpty := Filter(bundles, NotEmpty);
    var ids := DistinctKeys(nonEmpty, BundleIdOf);
    forall i | 0 <= i < |r| ensures r[i].id == ids[i] {
      var g := WithKey(nonEmpty, BundleIdOf, ids[i]);
      WithKeyElements(nonEmpty, BundleIdOf, ids[i]);
      assert BundleIdOf(g[0]) == ids[i];
    }
  }

  /** Every output id is the id of a non-empty input bundle. */
  lemma OutputIdsFromInput(bundles: seq<TransactionBundle>, i: nat)
    requires i < |GroupBundles(bundles)|
    ensures exists b | b in bundles :: !IsEmpty(b) && b.id == GroupBundles(bundles)[i].id
  {
    var nonEmpty := Filter(bundles, NotEmpty);
    var ids := DistinctKeys(nonEmpty, BundleIdOf);
    OutputIds(bundles);
    var g := WithKey(nonEmpty, BundleIdOf, ids[i]);
    WithKeyElements(nonEmpty, BundleIdOf, ids[i]);
    var b := g[0];
    assert b in nonEmpty && BundleIdOf(b) == ids[i];
    assert b in bundles && NotEmpty(b);
  }

  /** Every non-empty input bundle's id is an output id. */
  lemma InputIdsCovered(bundles: seq<TransactionBundle>, b: TransactionBundle)
    requires b in bundles && !IsEmpty(b)
    ensures exists i | 0 <= i < |GroupBundles(bundles)| :: GroupBundles(bundles)[i].id == b.id
  {
    var r := GroupBundles(bundles);
    var nonEmpty := Filter(bundles, NotEmpty);
    var ids := DistinctKeys(nonEmpty, BundleIdOf);
    OutputIds(bundles);
    DistinctKeysCover(nonEmpty, BundleIdOf);
    var k :| 0 <= k < |bundles| && bundles[k] == b;
    assert NotEmpty(bundles[k]);
    var m :| 0 <= m < |nonEmpty| && nonEmpty[m] == b;
    assert BundleIdOf(nonEmpty[m]) in ids;
    var i :| 0 <= i < |ids| && ids[i] == b.id;
    assert r[i].id == b.id;
  }

  lemma OutputIdsDistinct(bundles: seq<TransactionBundle>)
    ensures var r := GroupBundles(bundles); forall i, j | 0 <= i < j < |r| :: r[i].id != r[j].id
  {
    OutputIds(bundles);
  }

  lemma AllOutputIdsFromInput(bundles: seq<TransactionBundle>)
    ensures var r := GroupBundles(bundles);
      forall i | 0 <= i < |r| :: exists b | b in bundles :: !IsEmpty(b) && b.id == r[i].id
  {
    forall i | 0 <= i < |GroupBundles(bundles)|
      ensures exists b | b in bundles :: !IsEmpty(b) && b.id == GroupBundles(bundles)[i].id
    {
      OutputIdsFromInput(bundles, i);
    }
  }

  lemma AllInputIdsCovered(bundles: seq<TransactionBundle>)
    ensures var r := GroupBundles(bundles);
      forall b | b in bundles && !IsEmpty(b) :: exists i | 0 <= i < |r| :: r[i].id == b.id
  {
    forall b | b in bundles && !IsEmpty(b)
      ensures exists i | 0 <= i < |GroupBundles(bundles)| :: GroupBundles(bundles)[i].id == b.id
    {
      InputIdsCovered(bundles, b);
    }
  }

  /**
   * One bundle per distinct id: the output ids are pairwise distinct, each is the id of a
   * non-empty input bundle, and every non-empty input bundle's id is among them.
   */
  lemma OneBundlePerId(bundles: seq<TransactionBundle>)
    ensures var r := GroupBundles(bundles);
      (forall i, j | 0 <= i < j < |r| :: r[i].id != r[j].id) &&
      (forall i | 0 <= i < |r| :: exists b | b in bundles :: !IsEmpty(b) && b.id == r[i].id) &&
      (forall b | b in bundles && !IsEmpty(b) :: exists i | 0 <= i < |r| :: r[i].id == b.id)
  {
    OutputIdsDistinct(bundles);
    AllOutputIdsFromInput(bundles);
    AllInputIdsCovered(bundles);
  }

  /** The three rules for a group, by the number of non-empty bundles sharing the id. */
  lemma GroupRules(bundles: seq<TransactionBundle>, i: nat)
    requires i < |GroupBundles(bundles)|
    ensures var nonEmpty := Filter(bundles, NotEmpty);
      var id := GroupBundles(bundles)[i].id;
      var g := WithKey(nonEmpty, BundleIdOf, id);
      var out := GroupBundles(bundles)[i];
      (|g| == 1 && IsPureFee(g[0]) ==>
        out == TransactionBundle(g[0].atomicTransactions, PureFeePayment, Complete, id, [])) &&
      (|g| == 1 && !IsPureFee(g[0]) ==> out == g[0]) &&
      (|g| > 1 ==> out == TransactionBundle(AllTransactions(g), ToBeDetermined, Incomplete, id, []))
  {
    var nonEmpty := Filter(bundles, NotEmpty);
    var ids := DistinctKeys(nonEmpty, BundleIdOf);
    var g := WithKey(nonEmpty, BundleIdOf, ids[i]);
    if |g| == 1 && !IsPureFee(g[0]) {
      WithKeyElements(nonEmpty, BundleIdOf, ids[i]);
      assert g[0] in g;
    }
  }

  lemma {:induction false} CombinedGroupsLegs(ids: seq<string>, groups: seq<seq<TransactionBundle>>)
    requires |ids| == |groups| && forall i | 0 <= i < |groups| :: |groups[i]| > 0
    ensures AllTransactions(seq(|groups|, i requires 0 <= i < |groups| => Combine(ids[i], groups[i])))
      == AllTransactions(Flatten(groups))
    decreases |groups|
  {
    var m := seq(|groups|, i requires 0 <= i < |groups| => Combine(ids[i], groups[i]));
    if groups != [] {
      var m' := seq(|groups| - 1, i requires 0 <= i < |groups| - 1 => Combine(ids[1..][i], groups[1..][i]));
      CombinedGroupsLegs(ids[1..], groups[1..]);
      assert m == [m[0]] + m';
      AllTransactionsAppend([m[0]], m');
      AllTransactionsAppend(groups[0], Flatten(groups[1..]));
      CombineLegs(ids[0], groups[0]);
      assert AllTransactions([m[0]]) == m[0].atomicTransactions by {
        assert [m[0]][..0] == [];
      }
    }
  }

  /** Regrouping loses and invents no leg: the output holds exactly the non-empty bundles' legs. */
  lemma GroupingKeepsLegs(bundles: seq<TransactionBundle>)
    ensures multiset(AllTransactions(GroupBundles(bundles))) ==
      multiset(AllTransactions(Filter(bundles, NotEmpty)))
  {
    var nonEmpty := Filter(bundles, NotEmpty);
    var ids := DistinctKeys(nonEmpty, BundleIdOf);
    var groups := GroupBy(nonEmpty, BundleIdOf);
    CombinedGroupsLegs(ids, groups);
    assert GroupBundles(bundles) == seq(|groups|, i requires 0 <= i < |groups| => Combine(ids[i], groups[i]));
    GroupByPermutation(nonEmpty, BundleIdOf);
    AllTransactionsPermutation(Flatten(groups), nonEmpty);
  }
}
