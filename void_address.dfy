/** `VoidAddress`: the outside world, one object per note, never controlled. */
module VoidAddresses {
  import opened Addresses

  /** `Void - ${note}` determines the note, so distinct notes are distinct identities. */
  lemma {:induction false} NoteStringInjective(n1: string, n2: string)
    requires KindString(Void(n1)) == KindString(Void(n2))
    ensures n1 == n2
  {
    var prefix := "Void - ";
    assert KindString(Void(n1)) == prefix + n1 && KindString(Void(n2)) == prefix + n2;
    assert (prefix + n1)[|prefix|..] == n1;
    assert (prefix + n2)[|prefix|..] == n2;
  }

  /** The module-level `instances` record, keyed by note. */
  class Registry {
    var instances: map<string, Address>

    ghost predicate Valid()
      reads this
    {
      forall n | n in instances :: instances[n].kind == Void(n) && !instances[n].controlled
    }

    constructor ()
      ensures Valid() && instances == map[]
    {
      instances := map[];
    }

    /** `getInstance({ note })`. */
    method GetInstance(note: string) returns (a: Address)
      requires Valid()
      modifies this
      ensures Valid()
      ensures note in instances && instances[note] == a
      ensures a.kind == Void(note) && !a.controlled
      ensures note in old(instances) ==> a == old(instances)[note] && instances == old(instances)
      ensures note !in old(instances) ==> fresh(a) && instances == old(instances)[note := a]
    {
      if note in instances {
        a := instances[note];
      } else {
        a := new Address(Void(note), false);
        instances := instances[note := a];
      }
    }
  }

  /** `new VoidAddress(...)` outside `getInstance`: a fresh object that no registry knows. */
  method NewUnregistered(registry: Registry, note: string) returns (a: Address)
    requires registry.Valid()
    ensures fresh(a) && a.kind == Void(note) && !a.controlled
    ensures forall n | n in registry.instances :: registry.instances[n] != a
  {
    a := new Address(Void(note), false);
  }
}
