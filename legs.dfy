/**
 * Planned legs. A mapper first decides, as a value, what each of its atomic transactions
 * will be; `Registries.Realize` then builds the objects: it asks the address registries for
 * their instances (or makes the fresh addresses some mappers construct directly) and gives
 * every leg its own new `Date`, as each `this.createdAt` getter call does.
 */
module Legs {
  import opened Collections
  import opened Addresses
  import opened AtomicTransactions
  import DecentralizedAddresses
  import PlatformAddresses
  import VoidAddresses

  /** The `bundleId` of a leg built without a `bundleId` argument: it stays `undefined`. */
  const MissingBundleId: string := ""

  /** The ticker of a currency looked up under `undefined` (a chain with no coin entry). */
  const UndefinedTicker: string := "undefined"

  /** Where a leg's `from` or `to` address comes from. */
  datatype Endpoint =
    | RegisteredVoid(note: string)                              // `VoidAddress.getInstance({ note })`
    | FreshVoid(note: string)                                   // `new VoidAddress(...)`
    | RegisteredPlatform(platform: Platform, nickname: string)  // `PlatformAddress.getInstance`, no `controlled`
    | FreshPlatform(platform: Platform, nickname: string)       // `new PlatformAddress(...)`
    | RegisteredDecentralized(chain: Chain, address: string)    // `DecentralizedAddress.getInstance`, no `controlled`
    | FreshBankAccount                                          // `new BankAccountAddress()`
    | FreshEthereumLike(ethChain: Chain, ethAddress: string)    // an already validated `new EthereumLikeAddress`
    | Given(object: Address)                                    // an address object the record holds

  /** Everything the `AtomicTransaction` constructor receives, with `createdAt` as its instant. */
  datatype Leg = Leg(
    ms: int,
    action: string,
    currency: string,
    from: Endpoint,
    to: Endpoint,
    amount: real,
    bundleId: string)

  /** `toString()` of the address an endpoint stands for. */
  function EndpointString(e: Endpoint): string {
    match e
    case RegisteredVoid(note) => KindString(Void(note))
    case FreshVoid(note) => KindString(Void(note))
    case RegisteredPlatform(p, n) => PlatformAddresses.Identifier(p, n)
    case FreshPlatform(p, n) => PlatformAddresses.Identifier(p, n)
    case RegisteredDecentralized(c, a) => DecentralizedAddresses.Identifier(a, c, false)
    case FreshBankAccount => KindString(BankAccount)
    case FreshEthereumLike(c, a) => KindString(EthereumLike(c, a))
    case Given(a) => AddressString(a)
  }

  /** `a` is the address that `e` yields, given the three registries' contents. */
  ghost predicate ResolvedIn(e: Endpoint, a: Address,
    voids: map<string, Address>, platforms: map<string, Address>, decentralized: map<string, Address>)
  {
    match e
    case RegisteredVoid(note) => note in voids && voids[note] == a
    case FreshVoid(note) => a.kind == Void(note) && !a.controlled
    case RegisteredPlatform(p, n) =>
      PlatformAddresses.Identifier(p, n) in platforms && platforms[PlatformAddresses.Identifier(p, n)] == a
    case FreshPlatform(p, n) => a.kind == PlatformAccount(p, n) && !a.controlled
    case RegisteredDecentralized(c, addr) =>
      DecentralizedAddresses.Identifier(addr, c, false) in decentralized &&
      decentralized[DecentralizedAddresses.Identifier(addr, c, false)] == a
    case FreshBankAccount => a.kind == BankAccount && !a.controlled
    case FreshEthereumLike(c, addr) => a.kind == EthereumLike(c, addr) && !a.controlled
    case Given(b) => a == b
  }

  /** A resolution stays valid while the registries only grow. */
  lemma ResolvedStays(e: Endpoint, a: Address,
    v0: map<string, Address>, p0: map<string, Address>, d0: map<string, Address>,
    v1: map<string, Address>, p1: map<string, Address>, d1: map<string, Address>)
    requires ResolvedIn(e, a, v0, p0, d0)
    requires Extends(v0, v1) && Extends(p0, p1) && Extends(d0, d1)
    ensures ResolvedIn(e, a, v1, p1, d1)
  {
  }

  /** The atomic transaction `t` is leg `l` built: same scalars, resolved endpoints. */
  ghost predicate RealizedIn(l: Leg, t: AtomicTransaction,
    voids: map<string, Address>, platforms: map<string, Address>, decentralized: map<string, Address>)
  {
    t.createdAt.ms == l.ms && t.action == l.action && t.currency == l.currency &&
    t.amount == l.amount && t.bundleId == l.bundleId &&
    ResolvedIn(l.from, t.from, voids, platforms, decentralized) &&
    ResolvedIn(l.to, t.to, voids, platforms, decentralized)
  }

  /** The module-level registries a mapper reaches through `getInstance`. */
  class Registries {
    const voids: VoidAddresses.Registry
    const platforms: PlatformAddresses.Registry
    const decentralized: DecentralizedAddresses.Registry

    ghost predicate Valid()
      reads this, voids, platforms, decentralized
    {
      voids.Valid() && platforms.Valid() && decentralized.Valid()
    }

    constructor ()
      ensures Valid()
      ensures voids.instances == map[] && platforms.instances == map[] && decentralized.instances == map[]
      ensures fresh(voids) && fresh(platforms) && fresh(decentralized)
    {
      voids := new VoidAddresses.Registry();
      platforms := new PlatformAddresses.Registry();
      decentralized := new DecentralizedAddresses.Registry();
    }

    /** `txs` is `legs` built, one transaction per leg, against the current registries. */
    ghost predicate Realizes(legs: seq<Leg>, txs: seq<AtomicTransaction>)
      reads this, voids, platforms, decentralized
    {
      |txs| == |legs| &&
      forall i | 0 <= i < |legs| ::
        RealizedIn(legs[i], txs[i], voids.instances, platforms.instances, decentralized.instances)
    }

    /** A resolved address prints as its endpoint says. */
    lemma ResolvedString(e: Endpoint, a: Address)
      requires Valid()
      requires ResolvedIn(e, a, voids.instances, platforms.instances, decentralized.instances)
      ensures AddressString(a) == EndpointString(e)
    {
      match e
      case RegisteredVoid(note) =>
        assert voids.instances[note].kind == Void(note);
      case RegisteredPlatform(p, n) =>
      case RegisteredDecentralized(c, addr) =>
      case _ =>
    }

    /** Builds the address one endpoint stands for. */
    method Resolve(e: Endpoint) returns (a: Address)
      requires Valid()
      modifies voids, platforms, decentralized
      ensures Valid()
      ensures ResolvedIn(e, a, voids.instances, platforms.instances, decentralized.instances)
      ensures Extends(old(voids.instances), voids.instances)
      ensures Extends(old(platforms.instances), platforms.instances)
      ensures Extends(old(decentralized.instances), decentralized.instances)
    {
      match e
      case RegisteredVoid(note) =>
        a := voids.GetInstance(note);
      case FreshVoid(note) =>
        a := new Address(Void(note), false);
      case RegisteredPlatform(p, n) =>
        a := platforms.GetInstance(p, n);
      case FreshPlatform(p, n) =>
        a := new Address(PlatformAccount(p, n), false);
      case RegisteredDecentralized(c, addr) =>
        a := decentralized.GetInstance(addr, c);
      case FreshBankAccount =>
        a := new Address(BankAccount, false);
      case FreshEthereumLike(c, addr) =>
        a := new Address(EthereumLike(c, addr), false);
      case Given(b) =>
        a := b;
    }

    /**
     * Builds the atomic transactions of a plan, in order. Every leg gets a new `Date`
     * object, so no two legs share one; registries only gain entries.
     */
    method Realize(legs: seq<Leg>) returns (txs: seq<AtomicTransaction>)
      requires Valid()
      modifies voids, platforms, decentralized
      ensures Valid()
      ensures Realizes(legs, txs)
      ensures forall i | 0 <= i < |txs| :: fresh(txs[i].createdAt)
      ensures forall i, j | 0 <= i < j < |txs| :: txs[i].createdAt != txs[j].createdAt
      ensures Extends(old(voids.instances), voids.instances)
      ensures Extends(old(platforms.instances), platforms.instances)
      ensures Extends(old(decentralized.instances), decentralized.instances)
    {
      txs := [];
      for k := 0 to |legs|
        invariant Valid()
        invariant |txs| == k
        invariant forall i | 0 <= i < k ::
          RealizedIn(legs[i], txs[i], voids.instances, platforms.instances, decentralized.instances)
        invariant forall i | 0 <= i < k :: fresh(txs[i].createdAt)
        invariant forall i, j | 0 <= i < j < k :: txs[i].createdAt != txs[j].createdAt
        invariant Extends(old(voids.instances), voids.instances)
        invariant Extends(old(platforms.instances), platforms.instances)
        invariant Extends(old(decentralized.instances), decentralized.instances)
      {
        var at := new Date(legs[k].ms);
        ghost var v0, p0, d0 := voids.instances, platforms.instances, decentralized.instances;
        var from := Resolve(legs[k].from);
        ghost var v1, p1, d1 := voids.instances, platforms.instances, decentralized.instances;
        var to := Resolve(legs[k].to);
        ResolvedStays(legs[k].from, from, v1, p1, d1, voids.instances, platforms.instances, decentralized.instances);
        forall i | 0 <= i < k
          ensures RealizedIn(legs[i], txs[i], voids.instances, platforms.instances, decentralized.instances)
        {
          ResolvedStays(legs[i].from, txs[i].from, v0, p0, d0, voids.instances, platforms.instances, decentralized.instances);
          ResolvedStays(legs[i].to, txs[i].to, v0, p0, d0, voids.instances, platforms.instances, decentralized.instances);
        }
        txs := txs + [AtomicTransaction(at, legs[k].action, legs[k].currency, from, to, legs[k].bundleId, legs[k].amount)];
      }
    }
  }

  /** Leg amounts, in order. */
  function LegAmounts(legs: seq<Leg>): real {
    if legs == [] then 0.0 else legs[0].amount + LegAmounts(legs[1..])
  }

  lemma {:induction false} LegAmountsAppend(a: seq<Leg>, b: seq<Leg>)
    ensures LegAmounts(a + b) == LegAmounts(a) + LegAmounts(b)
  {
    if a == [] {
      assert a + b == b;
    } else {
      assert (a + b)[1..] == a[1..] + b;
      LegAmountsAppend(a[1..], b);
    }
  }
}
