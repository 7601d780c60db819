/**
 * Coinbase `Conversion`: USD converted to USDC, meant as two legs of one bundle. As written,
 * every conversion throws at its noteless void address.
 */
module CoinbaseConversions {
  import opened Wrappers
  import opened Addresses
  import opened Records
  import opened Legs

  /** The attributes the mapper reads; `amount` is the value of the amount numeral (`parseFloat`). */
  datatype ConversionAttributes = ConversionAttributes(keys: set<string>, id: string, amount: real, createdAt: int)

  datatype Conversion = Conversion(attributes: ConversionAttributes, accountNickname: string)

  datatype ConversionError =
    | UnexpectedKeys
    // `new VoidAddress()` with no argument: destructuring `{ note }` from it throws a `TypeError`.
    | VoidWithoutNote

  const RequiredKeys: set<string> := {"id", "amount", "balance", "created_at", "details", "type"}

  /** `new Conversion(...)`: throws unless the keys are exactly the six required. */
  function NewConversion(attributes: ConversionAttributes, accountNickname: string): (r: Result<Conversion, ConversionError>)
    ensures r.Err? <==> attributes.keys != RequiredKeys
    ensures r.Ok? ==> r.value == Conversion(attributes, accountNickname)
  {
    KeysMatchIff(attributes.keys, RequiredKeys);
    if !KeysMatch(attributes.keys, RequiredKeys) then Err(UnexpectedKeys)
    else Ok(Conversion(attributes, accountNickname))
  }

  function BundleIdPrefix(): string {
    PlatformName(Coinbase) + "-conversion_id-"
  }

  function BundleId(c: Conversion): string {
    BundleIdPrefix() + c.attributes.id
  }

  /** Distinct conversions have distinct bundle ids. */
  lemma {:induction false} BundleIdInjective(c: Conversion, d: Conversion)
    requires BundleId(c) == BundleId(d)
    ensures c.attributes.id == d.attributes.id
  {
    var p := BundleIdPrefix();
    assert c.attributes.id == BundleId(c)[|p|..];
    assert d.attributes.id == BundleId(d)[|p|..];
  }

  /**
   * `toAtomicTransactions()` as written: building the first leg evaluates `new VoidAddress()`
   * with no argument, so every conversion throws.
   */
  function PlannedLegs(c: Conversion): Result<seq<Leg>, ConversionError> {
    Err(VoidWithoutNote)
  }

  /** As written, no conversion ever yields a leg. */
  lemma AsWrittenEveryConversionThrows(c: Conversion)
    ensures PlannedLegs(c) == Err(VoidWithoutNote)
  {
  }

  /** The "Coinbase Inc" of the source's comments: a fresh void address with that note. */
  const CoinbaseInc: Endpoint := FreshVoid("Coinbase Inc")

  /** `toAtomicTransactions()` with a void address that carries a note: USDC in from Coinbase, USD out to it. */
  function CorrectedPlannedLegs(c: Conversion): seq<Leg> {
    var account := FreshPlatform(Coinbase, c.accountNickname);
    [Leg(c.attributes.createdAt, "conversion", "USDC", CoinbaseInc, account, c.attributes.amount, BundleId(c)),
     Leg(c.attributes.createdAt, "conversion", "USD", account, CoinbaseInc, c.attributes.amount, BundleId(c))]
  }

  /**
   * The corrected conversion is exactly two legs, mirror images of each other, sharing amount,
   * instant, action and bundle id: USDC into the account, USD out of it.
   */
  lemma TwoMirroredLegs(c: Conversion)
    ensures var legs := CorrectedPlannedLegs(c);
      |legs| == 2 &&
      legs[0].currency == "USDC" && legs[1].currency == "USD" &&
      legs[0].to == FreshPlatform(Coinbase, c.accountNickname) && legs[0].from == legs[1].to && legs[0].to == legs[1].from &&
      legs[0].from == FreshVoid("Coinbase Inc") &&
      (forall l | l in legs ::
        l.amount == c.attributes.amount && l.ms == c.attributes.createdAt && l.action == "conversion" &&
        l.bundleId == "coinbase-conversion_id-" + c.attributes.id)
  {
  }
}
