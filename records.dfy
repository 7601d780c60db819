/**
 * The attribute checks record constructors run before storing a raw API record: the exact
 * key-set test of the KuCoin, Celsius and Coinbase records, and the required-list test of
 * the Etherscan-like and Algorand records.
 */
module Records {
  import opened Wrappers

  /**
   * The exact-key test as the constructors write it: the mean of the two set sizes must
   * equal the size of their union (`(passed.size + required.size) / 2 !== union.size` throws).
   */
  predicate KeysMatch(passed: set<string>, required: set<string>) {
    (|passed| + |required|) as real / 2.0 == |passed + required| as real
  }

  lemma {:induction false} SubsetSize(a: set<string>, b: set<string>)
    requires a <= b
    ensures |a| <= |b|
    ensures |a| == |b| ==> a == b
  {
    assert b == a + (b - a);
    assert a * (b - a) == {};
    assert |b| == |a| + |b - a|;
    if |a| == |b| {
      assert |b - a| == 0;
      assert b - a == {};
    }
  }

  /** The test passes exactly when the record has the required keys and no other. */
  lemma KeysMatchIff(passed: set<string>, required: set<string>)
    ensures KeysMatch(passed, required) <==> passed == required
  {
    var u := passed + required;
    SubsetSize(passed, u);
    SubsetSize(required, u);
    if KeysMatch(passed, required) {
      assert |passed| + |required| == 2 * |u|;
    }
  }

  /** The first attribute of `required` that `keys` lacks: the one the `forEach` check throws on. */
  function FirstMissing(required: seq<string>, keys: set<string>): (r: Option<string>)
    ensures r.None? <==> forall i | 0 <= i < |required| :: required[i] in keys
    ensures r.Some? ==> exists i | 0 <= i < |required| ::
      required[i] == r.value && r.value !in keys && forall j | 0 <= j < i :: required[j] in keys
  {
    if required == [] then None
    else if required[0] !in keys then Some(required[0])
    else
      var rest := FirstMissing(required[1..], keys);
      if rest.Some? then
        var i :| 0 <= i < |required[1..]| && required[1..][i] == rest.value && rest.value !in keys &&
          forall j | 0 <= j < i :: required[1..][j] in keys;
        assert required[i + 1] == rest.value;
        assert forall j | 0 <= j < i + 1 :: required[j] in keys by {
          forall j | 0 <= j < i + 1 ensures required[j] in keys {
            if j > 0 { assert required[j] == required[1..][j - 1]; }
          }
        }
        rest
      else
        assert forall i | 0 <= i < |required| :: required[i] in keys by {
          forall i | 0 <= i < |required| ensures required[i] in keys {
            if i > 0 { assert required[i] == required[1..][i - 1]; }
          }
        }
        rest
  }

  /** JavaScript truthiness of an optional string field: present and not empty. */
  predicate Present(o: Option<string>) {
    o.Some? && o.value != ""
  }

  /** `parseInt` of a decimal numeral, on its value: the integer part, truncated toward zero. */
  function ParseInt(x: real): (r: int)
    ensures x >= 0.0 ==> 0 <= r && r as real <= x < r as real + 1.0
    ensures x < 0.0 ==> r <= 0 && r as real - 1.0 < x <= r as real
  {
    if x >= 0.0 then x.Floor else -((-x).Floor)
  }

  /** Whole numerals parse to themselves. */
  lemma ParseIntOfWhole(n: int)
    ensures ParseInt(n as real) == n
  {
  }
}
