/** Contracts for the `groupBy` and `partition` helpers the pipeline imports from its utilities. */
module Collections {

  /** Elements of `s` satisfying `p`, in input order. */
  function Filter<T>(s: seq<T>, p: T -> bool): (r: seq<T>)
    ensures |r| <= |s|
    ensures forall i | 0 <= i < |r| :: r[i] in s && p(r[i])
    ensures forall i | 0 <= i < |s| :: p(s[i]) ==> s[i] in r
  {
    if s == [] then [] else (if p(s[0]) then [s[0]] else []) + Filter(s[1..], p)
  }

  /** Two positions of `s` hold elements satisfying `p`. */
  predicate TwoSatisfy<T>(s: seq<T>, p: T -> bool) {
    exists i, j | 0 <= i < j < |s| :: p(s[i]) && p(s[j])
  }

  /** More than one element passes the filter exactly when two positions of the input pass it. */
  lemma {:induction false} FilterSeveral<T>(s: seq<T>, p: T -> bool)
    ensures |Filter(s, p)| > 1 <==> TwoSatisfy(s, p)
  {
    if s != [] {
      var t := s[1..];
      FilterSeveral(t, p);
      if p(s[0]) {
        FilterSeveralHead(s, p);
      } else {
        assert Filter(s, p) == Filter(t, p);
        TwoSatisfySkip(s, p);
      }
    }
  }

  /** A failing head does not change whether two positions pass. */
  lemma TwoSatisfySkip<T>(s: seq<T>, p: T -> bool)
    requires s != [] && !p(s[0])
    ensures TwoSatisfy(s, p) <==> TwoSatisfy(s[1..], p)
  {
    var t := s[1..];
    if TwoSatisfy(s, p) {
      var i, j :| 0 <= i < j < |s| && p(s[i]) && p(s[j]);
      assert t[i - 1] == s[i] && t[j - 1] == s[j];
    }
    if TwoSatisfy(t, p) {
      var i, j :| 0 <= i < j < |t| && p(t[i]) && p(t[j]);
      assert s[i + 1] == t[i] && s[j + 1] == t[j];
    }
  }

  /** With a passing head, a second passing element is all that is needed for two. */
  lemma FilterSeveralHead<T>(s: seq<T>, p: T -> bool)
    requires s != [] && p(s[0])
    ensures |Filter(s, p)| > 1 <==> TwoSatisfy(s, p)
  {
    var t := s[1..];
    assert Filter(s, p) == [s[0]] + Filter(t, p);
    if |Filter(t, p)| > 0 {
      var j :| 0 <= j < |t| && t[j] == Filter(t, p)[0];
      assert p(s[0]) && p(s[j + 1]);
    } else {
      forall i, j | 0 <= i < j < |s|
        ensures !(p(s[i]) && p(s[j]))
      {
        assert s[j] == t[j - 1];
      }
    }
  }

  /** Elements of `s` violating `p`, in input order. */
  function Reject<T>(s: seq<T>, p: T -> bool): (r: seq<T>)
    ensures |r| <= |s|
    ensures forall i | 0 <= i < |r| :: r[i] in s && !p(r[i])
    ensures forall i | 0 <= i < |s| :: !p(s[i]) ==> s[i] in r
  {
    if s == [] then [] else (if p(s[0]) then [] else [s[0]]) + Reject(s[1..], p)
  }

  /** `partition(s, p)`: stable, `[matching, rest]`. */
  function Partition<T>(s: seq<T>, p: T -> bool): (r: (seq<T>, seq<T>))
    ensures r.0 == Filter(s, p) && r.1 == Reject(s, p)
  {
    (Filter(s, p), Reject(s, p))
  }

  /** Partitioning loses and invents nothing. */
  lemma {:induction false} PartitionPermutation<T>(s: seq<T>, p: T -> bool)
    ensures multiset(Partition(s, p).0) + multiset(Partition(s, p).1) == multiset(s)
  {
    if s != [] {
      PartitionPermutation(s[1..], p);
      assert s == [s[0]] + s[1..];
      if p(s[0]) {
        assert Filter(s, p) == [s[0]] + Filter(s[1..], p);
        assert Reject(s, p) == Reject(s[1..], p);
      } else {
        assert Filter(s, p) == Filter(s[1..], p);
        assert Reject(s, p) == [s[0]] + Reject(s[1..], p);
      }
    }
  }

  function Flatten<T>(ss: seq<seq<T>>): (r: seq<T>)
  {
    if ss == [] then [] else ss[0] + Flatten(ss[1..])
  }

  lemma {:induction false} FlattenAppend<T>(a: seq<seq<T>>, b: seq<seq<T>>)
    ensures Flatten(a + b) == Flatten(a) + Flatten(b)
  {
    if a == [] {
      assert a + b == b;
    } else {
      assert (a + b)[0] == a[0];
      assert (a + b)[1..] == a[1..] + b;
      FlattenAppend(a[1..], b);
    }
  }

  /** Elements whose key is `k`, in input order. */
  function WithKey<T>(s: seq<T>, key: T -> string, k: string): (r: seq<T>)
    ensures |r| <= |s|
  {
    if s == [] then [] else (if key(s[0]) == k then [s[0]] else []) + WithKey(s[1..], key, k)
  }

  /** `WithKey` keeps exactly the elements whose key is `k`. */
  lemma {:induction false} WithKeyElements<T>(s: seq<T>, key: T -> string, k: string)
    ensures forall i | 0 <= i < |WithKey(s, key, k)| :: WithKey(s, key, k)[i] in s && key(WithKey(s, key, k)[i]) == k
    ensures forall i | 0 <= i < |s| :: key(s[i]) == k ==> s[i] in WithKey(s, key, k)
  {
    if s != [] {
      WithKeyElements(s[1..], key, k);
      assert forall i | 1 <= i < |s| :: s[i] == s[1..][i - 1];
    }
  }

  /** Elements whose key is not `k`, in input order. */
  function WithoutKey<T>(s: seq<T>, key: T -> string, k: string): (r: seq<T>)
    ensures |r| <= |s|
  {
    if s == [] then [] else (if key(s[0]) == k then [] else [s[0]]) + WithoutKey(s[1..], key, k)
  }

  /** `WithoutKey` keeps exactly the elements whose key is not `k`. */
  lemma {:induction false} WithoutKeyElements<T>(s: seq<T>, key: T -> string, k: string)
    ensures forall i | 0 <= i < |WithoutKey(s, key, k)| :: WithoutKey(s, key, k)[i] in s && key(WithoutKey(s, key, k)[i]) != k
    ensures forall i | 0 <= i < |s| :: key(s[i]) != k ==> s[i] in WithoutKey(s, key, k)
  {
    if s != [] {
      WithoutKeyElements(s[1..], key, k);
      assert forall i | 1 <= i < |s| :: s[i] == s[1..][i - 1];
    }
  }

  /**
   * `groupBy(s, key)`: one group per distinct key, groups in order of the key's first
   * appearance, each group holding that key's elements in input order.
   */
  function GroupBy<T>(s: seq<T>, key: T -> string): (r: seq<seq<T>>)
    ensures |r| == |DistinctKeys(s, key)|
    ensures forall i | 0 <= i < |r| :: r[i] == WithKey(s, key, DistinctKeys(s, key)[i])
    ensures forall i | 0 <= i < |r| :: |r[i]| > 0 && key(r[i][0]) == DistinctKeys(s, key)[i]
  {
    var ks := DistinctKeys(s, key);
    assert forall i | 0 <= i < |ks| :: |WithKey(s, key, ks[i])| > 0 && key(WithKey(s, key, ks[i])[0]) == ks[i] by {
      forall i | 0 <= i < |ks| ensures |WithKey(s, key, ks[i])| > 0 && key(WithKey(s, key, ks[i])[0]) == ks[i] {
        WithKeyElements(s, key, ks[i]);
        assert WithKey(s, key, ks[i])[0] in WithKey(s, key, ks[i]);
      }
    }
    Groups(s, key, ks)
  }

  /** The elements of `s` with each key of `ks`, one group per key. */
  function Groups<T>(s: seq<T>, key: T -> string, ks: seq<string>): (r: seq<seq<T>>)
    ensures |r| == |ks|
    ensures forall i | 0 <= i < |ks| :: r[i] == WithKey(s, key, ks[i])
  {
    seq(|ks|, i requires 0 <= i < |ks| => WithKey(s, key, ks[i]))
  }

  /** Dropping elements of a key none of `ks` names leaves the groups unchanged. */
  lemma GroupsIgnoreOtherKey<T>(s: seq<T>, key: T -> string, k: string, ks: seq<string>)
    requires |s| > 0 && key(s[0]) == k
    requires forall i | 0 <= i < |ks| :: ks[i] != k
    ensures Groups(WithoutKey(s[1..], key, k), key, ks) == Groups(s, key, ks)
  {
    forall i | 0 <= i < |ks| ensures WithKey(WithoutKey(s[1..], key, k), key, ks[i]) == WithKey(s, key, ks[i]) {
      WithKeyOfWithoutKey(s[1..], key, k, ks[i]);
    }
  }

  lemma {:induction false} KeySplitPermutation<T>(s: seq<T>, key: T -> string, k: string)
    ensures multiset(WithKey(s, key, k)) + multiset(WithoutKey(s, key, k)) == multiset(s)
  {
    if s != [] {
      var tail := s[1..];
      KeySplitPermutation(tail, key, k);
      var w, wo := WithKey(tail, key, k), WithoutKey(tail, key, k);
      assert multiset(s) == multiset{s[0]} + multiset(tail) by {
        assert s == [s[0]] + tail;
      }
      if key(s[0]) == k {
        assert WithKey(s, key, k) == [s[0]] + w;
        assert WithoutKey(s, key, k) == [] + wo;
        assert multiset(WithKey(s, key, k)) == multiset{s[0]} + multiset(w);
      } else {
        assert WithKey(s, key, k) == [] + w;
        assert WithoutKey(s, key, k) == [s[0]] + wo;
        assert multiset(WithoutKey(s, key, k)) == multiset{s[0]} + multiset(wo);
      }
    }
  }

  /** Grouping is a rearrangement: flattening the groups gives back the input's elements. */
  lemma {:induction false} GroupByPermutation<T>(s: seq<T>, key: T -> string)
    ensures multiset(Flatten(GroupBy(s, key))) == multiset(s)
    decreases |s|
  {
    if s != [] {
      var k := key(s[0]);
      var rest := WithoutKey(s[1..], key, k);
      GroupByUnfold(s, key);
      GroupByPermutation(rest, key);
      KeySplitPermutation(s[1..], key, k);
      var g := GroupBy(s, key);
      assert Flatten(g) == g[0] + Flatten(GroupBy(rest, key));
      assert g[0] == [s[0]] + WithKey(s[1..], key, k);
      assert s == [s[0]] + s[1..];
      calc {
        multiset(Flatten(g));
        multiset([s[0]]) + multiset(WithKey(s[1..], key, k)) + multiset(rest);
        multiset([s[0]]) + multiset(s[1..]);
        multiset(s);
      }
    }
  }

  /** The recursive reading of `GroupBy`: the first key's group, then the groups of the rest. */
  lemma GroupByUnfold<T>(s: seq<T>, key: T -> string)
    requires |s| > 0
    ensures GroupBy(s, key) == [WithKey(s, key, key(s[0]))] + GroupBy(WithoutKey(s[1..], key, key(s[0])), key)
  {
    var k := key(s[0]);
    var rest := WithoutKey(s[1..], key, k);
    var ks' := DistinctKeys(rest, key);
    assert DistinctKeys(s, key) == [k] + ks';
    RemovedKeyAbsent(s[1..], key, k);
    GroupsIgnoreOtherKey(s, key, k, ks');
    GroupsCons(s, key, k, ks');
  }

  lemma GroupsCons<T>(s: seq<T>, key: T -> string, k: string, ks: seq<string>)
    ensures Groups(s, key, [k] + ks) == [WithKey(s, key, k)] + Groups(s, key, ks)
  {
    var l := Groups(s, key, [k] + ks);
    var r := [WithKey(s, key, k)] + Groups(s, key, ks);
    forall i | 0 <= i < |l| ensures l[i] == r[i] {
      if i > 0 {
        assert ([k] + ks)[i] == ks[i - 1];
      }
    }
  }

  /** After removing the key `k`, it is not among the distinct keys. */
  lemma RemovedKeyAbsent<T>(s: seq<T>, key: T -> string, k: string)
    ensures forall i | 0 <= i < |DistinctKeys(WithoutKey(s, key, k), key)| ::
      DistinctKeys(WithoutKey(s, key, k), key)[i] != k
  {
    WithKeyOfWithoutKeySame(s, key, k);
  }

  lemma {:induction false} WithKeyOfWithoutKey<T>(s: seq<T>, key: T -> string, k: string, k': string)
    requires k != k'
    ensures WithKey(WithoutKey(s, key, k), key, k') == WithKey(s, key, k')
  {
    if s != [] {
      WithKeyOfWithoutKey(s[1..], key, k, k');
      var w := WithoutKey(s[1..], key, k);
      if key(s[0]) == k {
        assert WithoutKey(s, key, k) == w;
        assert WithKey(s, key, k') == WithKey(s[1..], key, k');
      } else {
        assert WithoutKey(s, key, k) == [s[0]] + w;
        assert ([s[0]] + w)[1..] == w;
        assert WithKey([s[0]] + w, key, k') == (if key(s[0]) == k' then [s[0]] else []) + WithKey(w, key, k');
      }
    }
  }

  /** Key of group `i`. */
  function GroupKey<T>(g: seq<T>, key: T -> string): string
    requires |g| > 0
  {
    key(g[0])
  }

  /** The distinct keys of `s`, in order of first appearance (the keys of `groupBy`'s groups). */
  function DistinctKeys<T>(s: seq<T>, key: T -> string): (r: seq<string>)
    ensures forall i, j | 0 <= i < j < |r| :: r[i] != r[j]
    ensures forall i | 0 <= i < |r| :: |WithKey(s, key, r[i])| > 0
    decreases |s|
  {
    if s == [] then []
    else
      var k0 := key(s[0]);
      var rest := DistinctKeys(WithoutKey(s[1..], key, k0), key);
      DistinctKeysStep(s, key, rest);
      var r := [k0] + rest;
      assert forall i | 1 <= i < |r| :: r[i] == rest[i - 1];
      r
  }

  /** The inductive step of `DistinctKeys`: the later keys differ from the first and occur in `s`. */
  lemma DistinctKeysStep<T>(s: seq<T>, key: T -> string, rest: seq<string>)
    requires |s| > 0
    requires forall i | 0 <= i < |rest| :: |WithKey(WithoutKey(s[1..], key, key(s[0])), key, rest[i])| > 0
    ensures |WithKey(s, key, key(s[0]))| > 0
    ensures forall i | 0 <= i < |rest| :: rest[i] != key(s[0]) && |WithKey(s, key, rest[i])| > 0
  {
    var k0 := key(s[0]);
    WithKeyOfWithoutKeySame(s[1..], key, k0);
    forall i | 0 <= i < |rest| ensures rest[i] != k0 && |WithKey(s, key, rest[i])| > 0 {
      if rest[i] != k0 {
        WithKeyOfWithoutKey(s[1..], key, k0, rest[i]);
      }
    }
  }

  /** Every element's key is among the distinct keys. */
  lemma {:induction false} DistinctKeysCover<T>(s: seq<T>, key: T -> string)
    ensures forall k | 0 <= k < |s| :: key(s[k]) in DistinctKeys(s, key)
    decreases |s|
  {
    if s != [] {
      var k0 := key(s[0]);
      var w := WithoutKey(s[1..], key, k0);
      var rest := DistinctKeys(w, key);
      var r := DistinctKeys(s, key);
      DistinctKeysCover(w, key);
      WithoutKeyElements(s[1..], key, k0);
      assert r == [k0] + rest;
      forall k | 0 <= k < |s| ensures key(s[k]) in r {
        if k == 0 || key(s[k]) == k0 {
          assert r[0] == k0;
        } else {
          assert s[k] == s[1..][k - 1];
          var m :| 0 <= m < |w| && w[m] == s[k];
          var j :| 0 <= j < |rest| && rest[j] == key(w[m]);
          assert r[j + 1] == rest[j];
        }
      }
    }
  }

  /** No element of the key `k` survives its removal. */
  lemma {:induction false} WithKeyOfWithoutKeySame<T>(s: seq<T>, key: T -> string, k: string)
    ensures WithKey(WithoutKey(s, key, k), key, k) == []
  {
    if s != [] {
      WithKeyOfWithoutKeySame(s[1..], key, k);
      var w := WithoutKey(s[1..], key, k);
      if key(s[0]) != k {
        assert WithoutKey(s, key, k) == [s[0]] + w;
        assert ([s[0]] + w)[0] == s[0] && ([s[0]] + w)[1..] == w;
        assert WithKey([s[0]] + w, key, k) == WithKey(w, key, k);
      } else {
        assert WithoutKey(s, key, k) == w;
      }
    }
  }

  /** A key whose group is not empty is the key of some element. */
  lemma KeyOccurs<T>(s: seq<T>, key: T -> string, x: string)
    requires |WithKey(s, key, x)| > 0
    ensures exists k | 0 <= k < |s| :: key(s[k]) == x
  {
    WithKeyElements(s, key, x);
    var m := WithKey(s, key, x)[0];
    assert m in s;
  }

  /** A list is its prefix, one element and its suffix; dropping that element drops one occurrence. */
  lemma SplitAt<T>(s: seq<T>, j: nat)
    requires j < |s|
    ensures s == s[..j] + [s[j]] + s[j + 1..]
    ensures multiset(s[..j] + s[j + 1..]) == multiset(s) - multiset{s[j]}
  {
    assert s == s[..j] + [s[j]] + s[j + 1..];
  }

  /** `s.map(f)`. */
  function Project<T, U>(s: seq<T>, f: T -> U): (r: seq<U>)
    ensures |r| == |s| && forall i | 0 <= i < |s| :: r[i] == f(s[i])
  {
    seq(|s|, i requires 0 <= i < |s| => f(s[i]))
  }

  /** Mapping commutes with concatenation and with dropping one element. */
  lemma ProjectSplits<T, U>(a: seq<T>, b: seq<T>, f: T -> U)
    ensures Project(a + b, f) == Project(a, f) + Project(b, f)
  {
  }

  lemma ProjectRemoveAt<T, U>(s: seq<T>, j: nat, f: T -> U)
    requires j < |s|
    ensures Project(s[..j] + s[j + 1..], f) == Project(s, f)[..j] + Project(s, f)[j + 1..]
  {
  }

  /** `set.delete(x)` on the list of a set's elements: the first occurrence of `x` goes. */
  function RemoveFirst<T(==)>(s: seq<T>, x: T): (r: seq<T>)
    ensures x !in s ==> r == s
    decreases |s|
  {
    if s == [] then []
    else if s[0] == x then s[1..]
    else [s[0]] + RemoveFirst(s[1..], x)
  }

  /** Removing a present element cuts it out at one position. */
  lemma {:induction false} RemoveFirstAt<T>(s: seq<T>, x: T)
    requires x in s
    ensures exists j | 0 <= j < |s| :: s[j] == x && RemoveFirst(s, x) == s[..j] + s[j + 1..]
    decreases |s|
  {
    if s[0] == x {
      assert RemoveFirst(s, x) == s[..0] + s[1..];
    } else {
      RemoveFirstAt(s[1..], x);
      var j :| 0 <= j < |s[1..]| && s[1..][j] == x && RemoveFirst(s[1..], x) == s[1..][..j] + s[1..][j + 1..];
      assert s[j + 1] == x;
      assert [s[0]] + (s[1..][..j] + s[1..][j + 1..]) == s[..j + 1] + s[j + 2..];
    }
  }

  /** `s.every(p)`. */
  predicate All<T>(s: seq<T>, p: T -> bool) {
    forall i | 0 <= i < |s| :: p(s[i])
  }

  lemma AllAppend<T>(a: seq<T>, b: seq<T>, p: T -> bool)
    ensures All(a + b, p) <==> All(a, p) && All(b, p)
  {
    if All(a, p) && All(b, p) {
      forall i | 0 <= i < |a + b| ensures p((a + b)[i]) {
        if i >= |a| {
          assert (a + b)[i] == b[i - |a|];
        }
      }
    }
    if All(a + b, p) {
      forall i | 0 <= i < |a| ensures p(a[i]) {
        assert (a + b)[i] == a[i];
      }
      forall i | 0 <= i < |b| ensures p(b[i]) {
        assert (a + b)[i + |a|] == b[i];
      }
    }
  }

  lemma ProjectSnoc<T, U>(a: seq<T>, x: T, f: T -> U)
    ensures multiset(Project(a + [x], f)) == multiset(Project(a, f)) + multiset{f(x)}
  {
    assert Project(a + [x], f) == Project(a, f) + [f(x)];
  }

  lemma ProjectCons<T, U>(s: seq<T>, f: T -> U)
    requires |s| > 0
    ensures Project(s, f) == [f(s[0])] + Project(s[1..], f)
  {
  }

  /** Regrouping the parts of a multiset sum. */
  lemma Regroup<T>(a: multiset<T>, b: multiset<T>, c: multiset<T>, x: multiset<T>, y: multiset<T>, z: multiset<T>)
    requires a + b + c == x + y + z
    ensures a + (b + c) == z + y + x
  {
    assert a + (b + c) == a + b + c;
    assert x + y + z == z + y + x;
  }

  /** A property every element of a list has, every element of a sub-multiset has. */
  lemma AllOfSubset<T>(a: seq<T>, b: seq<T>, p: T -> bool)
    requires multiset(a) <= multiset(b) && All(b, p)
    ensures All(a, p)
  {
    forall i | 0 <= i < |a| ensures p(a[i]) {
      assert a[i] in multiset(a);
    }
  }

  lemma AllRemoveAt<T>(s: seq<T>, j: nat, p: T -> bool)
    requires j < |s| && All(s, p)
    ensures All(s[..j] + s[j + 1..], p)
  {
    AllAppend(s[..j], s[j + 1..], p);
  }

  lemma PartsBelow<T>(a: multiset<T>, b: multiset<T>, c: multiset<T>, s: multiset<T>)
    requires a + b + c == s
    ensures a <= s && b <= s && c <= s
  {
  }

  lemma ConsSplit<T>(s: seq<T>)
    requires |s| > 0
    ensures s == [s[0]] + s[1..]
  {
  }

  /** A property of every element of `b` holds of every element of a list drawn from `b`. */
  lemma AllOfMembers<T>(a: seq<T>, b: seq<T>, p: T -> bool)
    requires (forall x | x in a :: x in b) && All(b, p)
    ensures All(a, p)
  {
    forall i | 0 <= i < |a| ensures p(a[i]) {
      assert a[i] in a;
    }
  }

  lemma SnocSplit<T>(s: seq<T>)
    requires |s| > 0
    ensures s == s[..|s| - 1] + [s[|s| - 1]]
    ensures multiset(s) == multiset(s[..|s| - 1]) + multiset{s[|s| - 1]}
  {
    assert s == s[..|s| - 1] + [s[|s| - 1]];
  }

  /** Where the middle part of a three-part concatenation sits. */
  lemma ConcatMiddle<T>(a: seq<T>, b: seq<T>, c: seq<T>, n: nat, m: nat)
    requires |a| == n && |b| == m
    ensures |a + b + c| == n + m + |c|
    ensures forall i | 0 <= i < m :: (a + b + c)[n + i] == b[i]
  {
  }

  /** Where the last part of a three-part concatenation sits. */
  lemma ConcatLast<T>(a: seq<T>, b: seq<T>, c: seq<T>, n: nat, m: nat)
    requires |a| == n && |b| == m
    ensures |a + b + c| == n + m + |c|
    ensures forall j | 0 <= j < |c| :: (a + b + c)[n + m + j] == c[j]
  {
  }

  /** `m1` keeps every entry of `m0`: a registry that only ever adds instances. */
  ghost predicate Extends<K, V>(m0: map<K, V>, m1: map<K, V>) {
    forall k | k in m0 :: k in m1 && m1[k] == m0[k]
  }
}
