/**
 * `CelsiusRecord`: one line of a Celsius export. Supported record types become a single
 * leg between the user's Celsius account and the outside world.
 */
module CelsiusRecords {
  import opened Wrappers
  import opened Numbers
  import opened Records
  import opened Addresses
  import opened AtomicTransactions
  import opened Bundles
  import opened Legs

  /**
   * The raw attributes: `keys` is `Object.keys(attributes)`, `coinAmount` the value
   * `parseFloat` reads, `datetime` the instant `new Date(datetime)` denotes.
   */
  datatype CelsiusAttributes = CelsiusAttributes(
    keys: set<string>,
    id: string,
    datetime: int,
    transactionType: string,
    coinType: string,
    coinAmount: real)

  datatype CelsiusError = UnexpectedKeys | UnexpectedTransactionType

  const RequiredKeys: set<string> :=
    {"id", "datetime", "transactionType", "coinType", "coinAmount", "usdValue", "originalInterestCoin",
     "interestAmountInOriginalCoin", "confirmed"}

  const RewardTypes: set<string> := {"interest", "promo_code_reward"}

  const SupportedTypes: set<string> := {"interest", "promo_code_reward", "deposit", "withdrawal"}

  function Account(nickname: string): Endpoint {
    RegisteredPlatform(Celsius, nickname)
  }

  function OtherAddress(currency: string): Endpoint {
    RegisteredVoid("Other " + currency + " address")
  }

  /** `amount`: the absolute value of the parsed coin amount. */
  function Amount(r: CelsiusAttributes): (a: real)
    ensures a >= 0.0
    ensures a == r.coinAmount || a == -r.coinAmount
  {
    Abs(r.coinAmount)
  }

  /** `undefined-record_id-`: the platform read here is missing from `SupportedPlatform`. */
  const BundleIdPrefix: string := PlatformName(Celsius) + "-record_id-"

  function BundleId(r: CelsiusAttributes): string {
    BundleIdPrefix + r.id
  }

  /** Distinct record ids give distinct `bundleId`s. */
  lemma {:induction false} BundleIdInjective(a: CelsiusAttributes, b: CelsiusAttributes)
    requires BundleId(a) == BundleId(b)
    ensures a.id == b.id
  {
    assert (BundleIdPrefix + a.id)[|BundleIdPrefix|..] == a.id;
    assert (BundleIdPrefix + b.id)[|BundleIdPrefix|..] == b.id;
  }

  /** The `transactionBundle` switch. */
  function BundleShape(transactionType: string): Result<(BundleAction, BundleStatus), CelsiusError> {
    if transactionType in RewardTypes then Ok((GetFree, Complete))
    else if transactionType == "deposit" || transactionType == "withdrawal" then Ok((Transfer, Incomplete))
    else Err(UnexpectedTransactionType)
  }

  function RecordLeg(r: CelsiusAttributes, from: Endpoint, to: Endpoint): Leg {
    Leg(r.datetime, "--------", r.coinType, from, to, Amount(r), BundleId(r))
  }

  /** The legs of `toAtomicTransactions`: `reward()`, `deposit()` or `withdrawal()`. */
  function PlannedLegs(r: CelsiusAttributes, nickname: string): Result<seq<Leg>, CelsiusError> {
    if r.transactionType in RewardTypes then Ok([RecordLeg(r, RegisteredVoid("Celsius"), Account(nickname))])
    else if r.transactionType == "deposit" then Ok([RecordLeg(r, OtherAddress(r.coinType), Account(nickname))])
    else if r.transactionType == "withdrawal" then Ok([RecordLeg(r, Account(nickname), OtherAddress(r.coinType))])
    else Err(UnexpectedTransactionType)
  }

  /** The action/status table, each row in both directions. */
  lemma ShapeTable(transactionType: string)
    ensures BundleShape(transactionType) == Ok((GetFree, Complete)) <==> transactionType in RewardTypes
    ensures BundleShape(transactionType) == Ok((Transfer, Incomplete)) <==> transactionType in {"deposit", "withdrawal"}
    ensures BundleShape(transactionType).Err? <==> transactionType !in SupportedTypes
  {
  }

  /** The bundle switch and the legs switch accept the same record types. */
  lemma ShapeAndLegsAgree(r: CelsiusAttributes, nickname: string)
    ensures BundleShape(r.transactionType).Ok? <==> PlannedLegs(r, nickname).Ok?
  {
  }

  /**
   * A supported record is exactly one leg with its instant, currency, amount and
   * `bundleId`; it leaves the account exactly when it is a withdrawal, and enters it otherwise.
   */
  lemma OneLegPerRecord(r: CelsiusAttributes, nickname: string)
    requires PlannedLegs(r, nickname).Ok?
    ensures |PlannedLegs(r, nickname).value| == 1
    ensures var l := PlannedLegs(r, nickname).value[0];
      l.ms == r.datetime && l.currency == r.coinType && l.amount == Amount(r) && l.amount >= 0.0 &&
      l.bundleId == BundleId(r) &&
      (l.from == Account(nickname) <==> r.transactionType == "withdrawal") &&
      (l.to == Account(nickname) <==> r.transactionType != "withdrawal")
  {
  }

  class CelsiusRecord {
    const attributes: CelsiusAttributes
    const accountNickname: string
    var atomicTransactions: Option<seq<AtomicTransaction>>

    constructor (attributes: CelsiusAttributes, accountNickname: string)
      requires KeysMatch(attributes.keys, RequiredKeys)
      ensures this.attributes == attributes && this.accountNickname == accountNickname
      ensures atomicTransactions == None
    {
      this.attributes := attributes;
      this.accountNickname := accountNickname;
      atomicTransactions := None;
    }

    /** `toAtomicTransactions()`, memoised. */
    method ToAtomicTransactions(regs: Registries) returns (r: Result<seq<AtomicTransaction>, CelsiusError>)
      requires regs.Valid()
      modifies this, regs.voids, regs.platforms, regs.decentralized
      ensures regs.Valid()
      ensures old(atomicTransactions).Some? ==>
        r == Ok(old(atomicTransactions).value) && atomicTransactions == old(atomicTransactions) &&
        unchanged(regs.voids, regs.platforms, regs.decentralized)
      ensures old(atomicTransactions).None? && PlannedLegs(attributes, accountNickname).Err? ==>
        r == Err(PlannedLegs(attributes, accountNickname).error) && atomicTransactions == None
      ensures old(atomicTransactions).None? && PlannedLegs(attributes, accountNickname).Ok? ==>
        r.Ok? && regs.Realizes(PlannedLegs(attributes, accountNickname).value, r.value) &&
        atomicTransactions == Some(r.value) &&
        forall i | 0 <= i < |r.value| :: fresh(r.value[i].createdAt)
    {
      if atomicTransactions.Some? {
        return Ok(atomicTransactions.value);
      }
      var plan := PlannedLegs(attributes, accountNickname);
      if plan.Err? {
        return Err(plan.error);
      }
      var txs := regs.Realize(plan.value);
      atomicTransactions := Some(txs);
      return Ok(txs);
    }

    /** `transactionBundle()`. */
    method Bundle(regs: Registries) returns (r: Result<TransactionBundle, CelsiusError>)
      requires regs.Valid()
      modifies this, regs.voids, regs.platforms, regs.decentralized
      ensures regs.Valid()
      ensures BundleShape(attributes.transactionType).Err? ==>
        r == Err(UnexpectedTransactionType) && atomicTransactions == old(atomicTransactions)
      ensures r.Ok? ==>
        atomicTransactions.Some? &&
        r.value == TransactionBundle(atomicTransactions.value, BundleShape(attributes.transactionType).value.0,
          BundleShape(attributes.transactionType).value.1, BundleId(attributes), [])
      ensures old(atomicTransactions).None? ==> (r.Ok? <==> PlannedLegs(attributes, accountNickname).Ok?)
    {
      var shape := BundleShape(attributes.transactionType);
      if shape.Err? {
        return Err(shape.error);
      }
      var txs := ToAtomicTransactions(regs);
      if txs.Err? {
        return Err(txs.error);
      }
      return Ok(TransactionBundle(txs.value, shape.value.0, shape.value.1, BundleId(attributes), []));
    }
  }

  /** `new CelsiusRecord(...)`: throws unless the keys are exactly the nine required. */
  method NewCelsiusRecord(attributes: CelsiusAttributes, accountNickname: string)
    returns (r: Result<CelsiusRecord, CelsiusError>)
    ensures r.Err? <==> attributes.keys != RequiredKeys
    ensures r.Err? ==> r.error == UnexpectedKeys
    ensures r.Ok? ==>
      fresh(r.value) && r.value.attributes == attributes &&
      r.value.accountNickname == accountNickname && r.value.atomicTransactions == None
  {
    KeysMatchIff(attributes.keys, RequiredKeys);
    if !KeysMatch(attributes.keys, RequiredKeys) {
      return Err(UnexpectedKeys);
    }
    var record := new CelsiusRecord(attributes, accountNickname);
    return Ok(record);
  }
}
