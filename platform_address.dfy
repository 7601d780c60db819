/** `PlatformAddress.getInstance`: one object per `platform-nickname` account. */
module PlatformAddresses {
  import opened Addresses

  function Identifier(platform: Platform, nickname: string): string {
    KindString(PlatformAccount(platform, nickname))
  }

  /** The identity determines the nickname: distinct nicknames (case included) are distinct identities. */
  lemma {:induction false} IdentifierDeterminesNickname(platform: Platform, n1: string, n2: string)
    requires Identifier(platform, n1) == Identifier(platform, n2)
    ensures n1 == n2
  {
    var prefix := PlatformName(platform) + "-";
    assert Identifier(platform, n1) == prefix + n1 && Identifier(platform, n2) == prefix + n2;
    assert (prefix + n1)[|prefix|..] == n1;
    assert (prefix + n2)[|prefix|..] == n2;
  }

  class Registry {
    var instances: map<string, Address>

    ghost predicate Valid()
      reads this
    {
      forall id | id in instances :: instances[id].kind.PlatformAccount? && AddressString(instances[id]) == id
    }

    constructor ()
      ensures Valid() && instances == map[]
    {
      instances := map[];
    }

    /** `getInstance`: `controlled` defaults to false; an existing identity keeps its first flag. */
    method GetInstance(platform: Platform, nickname: string, controlled: bool := false) returns (a: Address)
      requires Valid()
      modifies this
      ensures Valid()
      ensures var id := Identifier(platform, nickname);
        id in instances && instances[id] == a && AddressString(a) == id &&
        (id in old(instances) ==> a == old(instances)[id] && instances == old(instances)) &&
        (id !in old(instances) ==>
          fresh(a) && a.kind == PlatformAccount(platform, nickname) &&
          a.controlled == controlled && instances == old(instances)[id := a])
    {
      var candidate := new Address(PlatformAccount(platform, nickname), controlled);
      var id := AddressString(candidate);
      if id in instances {
        a := instances[id];
      } else {
        instances := instances[id := candidate];
        a := candidate;
      }
    }
  }

  /** Equal (platform, nickname) pairs give the same object. */
  method SameAccountSameInstance(registry: Registry, platform: Platform, nickname: string, c1: bool, c2: bool)
    returns (a: Address, b: Address)
    requires registry.Valid()
    modifies registry
    ensures registry.Valid()
    ensures a == b
  {
    a := registry.GetInstance(platform, nickname, c1);
    b := registry.GetInstance(platform, nickname, c2);
  }
}
