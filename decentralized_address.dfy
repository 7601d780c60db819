/** `DecentralizedAddress.getInstance`: blockchain addresses, one object per `chain-address` identity. */
module DecentralizedAddresses {
  import opened Strings
  import opened Addresses

  /**
   * The stored address: lowercased unless the caller opts out. Either way it agrees with the
   * given text up to case, and a lowercased one lowercases to itself.
   */
  function Normalize(address: string, noLowerCase: bool): (r: string)
    ensures !noLowerCase ==> r == ToLower(address)
    ensures noLowerCase ==> r == address
    ensures ToLower(r) == ToLower(address)
    ensures !noLowerCase ==> ToLower(r) == r
  {
    ToLowerIdempotent(address);
    if noLowerCase then address else ToLower(address)
  }

  /** `toString()` of the instance `getInstance` would build. */
  function Identifier(address: string, chain: Chain, noLowerCase: bool): string {
    KindString(Decentralized(chain, Normalize(address, noLowerCase)))
  }

  /** With lowercasing on, addresses that differ only in letter case share one identity. */
  lemma CaseVariantsShareIdentifier(a1: string, a2: string, chain: Chain)
    requires ToLower(a1) == ToLower(a2)
    ensures Identifier(a1, chain, false) == Identifier(a2, chain, false)
  {
  }

  /** The module-level `instances` record, keyed by `toString()`. */
  class Registry {
    var instances: map<string, Address>

    ghost predicate Valid()
      reads this
    {
      forall id | id in instances :: instances[id].kind.Decentralized? && AddressString(instances[id]) == id
    }

    constructor ()
      ensures Valid() && instances == map[]
    {
      instances := map[];
    }

    /** `getInstance`: `controlled` and `noLowerCase` default to false; the first registration wins. */
    method GetInstance(address: string, chain: Chain, controlled: bool := false, noLowerCase: bool := false)
      returns (a: Address)
      requires Valid()
      modifies this
      ensures Valid()
      ensures var id := Identifier(address, chain, noLowerCase);
        id in instances && instances[id] == a && AddressString(a) == id &&
        (id in old(instances) ==> a == old(instances)[id] && instances == old(instances)) &&
        (id !in old(instances) ==>
          fresh(a) && a.kind == Decentralized(chain, Normalize(address, noLowerCase)) &&
          a.controlled == controlled && instances == old(instances)[id := a])
    {
      var candidate := new Address(Decentralized(chain, Normalize(address, noLowerCase)), controlled);
      var id := AddressString(candidate);
      if id in instances {
        a := instances[id];
      } else {
        instances := instances[id := candidate];
        a := candidate;
      }
    }
  }

  /** A later request with another `controlled` flag gets the first instance, flag included. */
  method FirstRegistrationWins(registry: Registry, address: string, chain: Chain) returns (a: Address, b: Address)
    requires registry.Valid()
    requires Identifier(address, chain, false) !in registry.instances
    modifies registry
    ensures registry.Valid()
    ensures a == b && a.controlled
  {
    a := registry.GetInstance(address, chain, true);
    b := registry.GetInstance(address, chain, false);
  }

  /** Case variants of one address come back as one object. */
  method CaseVariantsShareInstance(registry: Registry, a1: string, a2: string, chain: Chain)
    returns (x: Address, y: Address)
    requires registry.Valid()
    requires ToLower(a1) == ToLower(a2)
    modifies registry
    ensures registry.Valid()
    ensures x == y
  {
    x := registry.GetInstance(a1, chain);
    y := registry.GetInstance(a2, chain);
  }
}
