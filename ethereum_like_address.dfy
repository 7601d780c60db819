/** `EthereumLikeAddress`: a validated `0x` + 40 hex digit account on an EVM chain. */
module EthereumLikeAddresses {
  import opened Wrappers
  import opened Strings
  import opened Addresses

  /** Which of the constructor's three checks rejected the input. */
  datatype AddressError = WrongLength | MissingPrefix | NotHexadecimal

  /** The constructor: checks run on the lowercased input; the lowercased input is stored. */
  function Validate(address: string): (r: Result<string, AddressError>)
    ensures r.Ok? ==> r.value == ToLower(address) && |r.value| == 42
    ensures |address| != 42 ==> r == Err(WrongLength)
    ensures |address| == 42 && ToLower(address)[..2] != "0x" ==> r == Err(MissingPrefix)
    ensures r == Err(NotHexadecimal) <==>
      |address| == 42 && ToLower(address)[..2] == "0x" && exists i | 2 <= i < 42 :: !IsHexDigit(ToLower(address)[i])
  {
    var lower := ToLower(address);
    if |lower| != 42 then Err(WrongLength)
    else if lower[..2] != "0x" then Err(MissingPrefix)
    else if !AllHex(lower[2..]) then Err(NotHexadecimal)
    else Ok(lower)
  }

  predicate AllHex(s: string) {
    forall i | 0 <= i < |s| :: IsHexDigit(s[i])
  }

  /** Accepted inputs are exactly those whose lowercase form is `0x` followed by 40 hex digits. */
  lemma AcceptsExactly(address: string)
    ensures Validate(address).Ok? <==>
      exists digits: string | |digits| == 40 && AllHex(digits) :: ToLower(address) == "0x" + digits
  {
    var lower := ToLower(address);
    if Validate(address).Ok? {
      assert lower == lower[..2] + lower[2..];
      assert |lower[2..]| == 40 && AllHex(lower[2..]);
    }
    if exists digits: string | |digits| == 40 && AllHex(digits) :: lower == "0x" + digits {
      var digits: string :| |digits| == 40 && AllHex(digits) && lower == "0x" + digits;
      assert lower[..2] == "0x";
      assert lower[2..] == digits;
    }
  }

  /** Upper-case input passes: both the `0X` prefix and the hex digits are lowercased first. */
  lemma UpperCaseAccepted(digits: string)
    requires |digits| == 40 && forall i | 0 <= i < 40 :: '0' <= digits[i] <= '9' || 'A' <= digits[i] <= 'F'
    ensures Validate("0X" + digits) == Ok(ToLower("0X" + digits))
  {
    var lower := ToLower("0X" + digits);
    assert lower[..2] == "0x";
    forall i | 0 <= i < 40 ensures IsHexDigit(lower[2..][i]) {
      assert ("0X" + digits)[i + 2] == digits[i];
    }
  }

  /** `new EthereumLikeAddress({ address, chain })`: a fresh, uncontrolled object or the constructor's error. */
  method New(address: string, chain: Chain) returns (r: Result<Address, AddressError>)
    ensures Validate(address).Err? ==> r == Err(Validate(address).error)
    ensures Validate(address).Ok? ==>
      r.Ok? && fresh(r.value) && r.value.kind == EthereumLike(chain, Validate(address).value) && !r.value.controlled
  {
    var checked := Validate(address);
    if checked.Err? {
      return Err(checked.error);
    }
    var a := new Address(EthereumLike(chain, checked.value), false);
    return Ok(a);
  }
}
