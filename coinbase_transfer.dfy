/**
 * Coinbase `Transfer`: a deposit into or a withdrawal out of a Coinbase account. A canceled
 * transfer gives no leg. As written, a completed one throws at its noteless void address unless
 * it is a payout deposit; the corrected plan gives every completed transfer one leg.
 */
module CoinbaseTransfers {
  import opened Wrappers
  import opened Addresses
  import opened Records
  import opened Legs

  /**
   * The attributes the mapper reads. Nullable and optional strings are `Option`s; `amount`
   * is the value of the amount numeral; `detailsFee` is `None` when `details.fee` is
   * missing or empty, else the value of its numeral.
   */
  datatype TransferAttributes = TransferAttributes(
    keys: set<string>,
    id: string,
    transferType: string,
    createdAt: int,
    completedAt: Option<string>,
    canceledAt: Option<string>,
    accountId: string,
    amount: real,
    detailsFee: Option<real>,
    coinbasePayoutAt: Option<string>)

  datatype Transfer = Transfer(attributes: TransferAttributes, accountNickname: string)

  datatype TransferError =
    | UnexpectedKeys
    | NotCompletedXorCanceled
    | UnknownType
    | UnknownAccount
    | DepositWithFee
    // `new VoidAddress()` with no argument: destructuring `{ note }` from it throws a `TypeError`.
    | VoidWithoutNote

  const RequiredKeys: set<string> := {"id", "type", "created_at", "completed_at", "canceled_at",
    "processed_at", "account_id", "user_id", "user_nonce", "amount", "details", "idem"}

  /** `new Transfer(...)`: throws unless the keys are exactly the twelve required. */
  function NewTransfer(attributes: TransferAttributes, accountNickname: string): (r: Result<Transfer, TransferError>)
    ensures r.Err? <==> attributes.keys != RequiredKeys
    ensures r.Err? ==> r.error == UnexpectedKeys
    ensures r.Ok? ==> r.value == Transfer(attributes, accountNickname)
  {
    KeysMatchIff(attributes.keys, RequiredKeys);
    if !KeysMatch(attributes.keys, RequiredKeys) then Err(UnexpectedKeys)
    else Ok(Transfer(attributes, accountNickname))
  }

  /** `amount`: `parseInt`, so the fractional part is dropped (toward zero on both signs). */
  function Amount(t: TransferAttributes): (r: real)
    ensures t.amount >= 0.0 ==> r <= t.amount < r + 1.0
    ensures t.amount < 0.0 ==> r - 1.0 < t.amount <= r
    ensures r == r.Floor as real
  {
    ParseInt(t.amount) as real
  }

  /** `fee`: the parsed fee when the field is set, else 0. */
  function Fee(t: TransferAttributes): (r: real)
    ensures t.detailsFee.None? ==> r == 0.0
    ensures t.detailsFee.Some? ==> r == t.detailsFee.value
  {
    if t.detailsFee.Some? then t.detailsFee.value else 0.0
  }

  function CoinbaseAccount(nickname: string): Endpoint {
    FreshPlatform(Coinbase, nickname)
  }

  /**
   * The guards of `toAtomicTransactions`, in order: `Ok(None)` for a canceled transfer,
   * `Ok(Some(currency))` when legs are to be built in the account's currency.
   */
  function Guarded(t: Transfer, accountIdToCurrency: map<string, string>): Result<Option<string>, TransferError> {
    var a := t.attributes;
    if Present(a.completedAt) == Present(a.canceledAt) then Err(NotCompletedXorCanceled)
    else if !Present(a.completedAt) then Ok(None)
    else if a.transferType !in {"deposit", "withdraw"} then Err(UnknownType)
    else if a.accountId !in accountIdToCurrency || accountIdToCurrency[a.accountId] == "" then Err(UnknownAccount)
    else Ok(Some(accountIdToCurrency[a.accountId]))
  }

  /** `toDepositAtomicTransactions` as written: only a payout, from a bank account, gets past its void address. */
  function DepositLegs(t: Transfer, currency: string): Result<seq<Leg>, TransferError> {
    if Fee(t.attributes) != 0.0 then Err(DepositWithFee)
    else if !Present(t.attributes.coinbasePayoutAt) then Err(VoidWithoutNote)
    else Ok([Leg(t.attributes.createdAt, "-----", currency, FreshBankAccount, CoinbaseAccount(t.accountNickname),
      Amount(t.attributes), MissingBundleId)])
  }

  /** `toAtomicTransactions(accountIdToCurrencyMap)`, as written; a withdrawal always reaches the void address. */
  function PlannedLegs(t: Transfer, accountIdToCurrency: map<string, string>): Result<seq<Leg>, TransferError> {
    match Guarded(t, accountIdToCurrency)
    case Err(e) => Err(e)
    case Ok(None) => Ok([])
    case Ok(Some(currency)) =>
      if t.attributes.transferType == "deposit" then DepositLegs(t, currency) else Err(VoidWithoutNote)
  }

  /**
   * The unknown chain of the comments "Not really void, it comes from (goes to) an unknown
   * chain": a fresh void address with a note, as the corrected mapper would build it.
   */
  const UnknownChain: Endpoint := FreshVoid("Unknown chain")

  function CorrectedDepositLegs(t: Transfer, currency: string): Result<seq<Leg>, TransferError> {
    if Fee(t.attributes) != 0.0 then Err(DepositWithFee)
    else
      var from := if Present(t.attributes.coinbasePayoutAt) then FreshBankAccount else UnknownChain;
      Ok([Leg(t.attributes.createdAt, "-----", currency, from, CoinbaseAccount(t.accountNickname),
        Amount(t.attributes), MissingBundleId)])
  }

  function CorrectedWithdrawLegs(t: Transfer, currency: string): seq<Leg> {
    [Leg(t.attributes.createdAt, "-----", currency, CoinbaseAccount(t.accountNickname), UnknownChain,
      Amount(t.attributes), MissingBundleId)]
  }

  /** `toAtomicTransactions` with a void address that carries a note. */
  function CorrectedPlannedLegs(t: Transfer, accountIdToCurrency: map<string, string>): Result<seq<Leg>, TransferError> {
    match Guarded(t, accountIdToCurrency)
    case Err(e) => Err(e)
    case Ok(None) => Ok([])
    case Ok(Some(currency)) =>
      if t.attributes.transferType == "deposit" then CorrectedDepositLegs(t, currency)
      else Ok(CorrectedWithdrawLegs(t, currency))
  }

  /** The currency the account map gives, when it gives a usable one. */
  predicate KnownAccount(a: TransferAttributes, accountIdToCurrency: map<string, string>) {
    a.accountId in accountIdToCurrency && accountIdToCurrency[a.accountId] != ""
  }

  /** What the guards decide of a plan: exactly one of completed and canceled; canceled yields nothing; then type, account, fee. */
  predicate GuardsDecide(t: Transfer, accountIdToCurrency: map<string, string>, r: Result<seq<Leg>, TransferError>) {
    var a := t.attributes;
    (Present(a.completedAt) == Present(a.canceledAt) ==> r == Err(NotCompletedXorCanceled)) &&
    (Present(a.canceledAt) && !Present(a.completedAt) ==> r == Ok([])) &&
    (Present(a.completedAt) && !Present(a.canceledAt) ==>
      (a.transferType !in {"deposit", "withdraw"} ==> r == Err(UnknownType)) &&
      (a.transferType in {"deposit", "withdraw"} && !KnownAccount(a, accountIdToCurrency) ==> r == Err(UnknownAccount)) &&
      (a.transferType == "deposit" && KnownAccount(a, accountIdToCurrency) ==> (r == Err(DepositWithFee) <==> Fee(a) != 0.0)))
  }

  /** The guards in order, for the code as written and for the corrected plan alike. */
  lemma Guards(t: Transfer, accountIdToCurrency: map<string, string>)
    ensures GuardsDecide(t, accountIdToCurrency, PlannedLegs(t, accountIdToCurrency))
    ensures GuardsDecide(t, accountIdToCurrency, CorrectedPlannedLegs(t, accountIdToCurrency))
  {
  }

  /**
   * As written, the noteless void address throws exactly for a completed withdrawal and for a
   * completed fee-less deposit that is not a payout, once the guards pass; the only legs ever
   * built are those of a payout deposit, from a bank account.
   */
  lemma AsWrittenVoidThrows(t: Transfer, accountIdToCurrency: map<string, string>)
    ensures var a := t.attributes;
      PlannedLegs(t, accountIdToCurrency) == Err(VoidWithoutNote) <==>
        Present(a.completedAt) && !Present(a.canceledAt) && KnownAccount(a, accountIdToCurrency) &&
        (a.transferType == "withdraw" ||
         (a.transferType == "deposit" && Fee(a) == 0.0 && !Present(a.coinbasePayoutAt)))
    ensures var r := PlannedLegs(t, accountIdToCurrency);
      r.Ok? && r.value != [] ==>
        t.attributes.transferType == "deposit" && Present(t.attributes.coinbasePayoutAt) &&
        |r.value| == 1 && r.value[0].from == FreshBankAccount
  {
  }

  /** The code as written and the corrected plan agree wherever the noteless void address is not reached. */
  lemma CorrectionOnlyAtVoid(t: Transfer, accountIdToCurrency: map<string, string>)
    ensures PlannedLegs(t, accountIdToCurrency) != Err(VoidWithoutNote) ==>
      PlannedLegs(t, accountIdToCurrency) == CorrectedPlannedLegs(t, accountIdToCurrency)
    ensures CorrectedPlannedLegs(t, accountIdToCurrency) != Err(VoidWithoutNote)
  {
  }

  /** A corrected plan that succeeds is empty for a canceled transfer and a single leg for a completed one. */
  lemma OneLegWhenCompleted(t: Transfer, accountIdToCurrency: map<string, string>)
    requires CorrectedPlannedLegs(t, accountIdToCurrency).Ok?
    ensures var legs := CorrectedPlannedLegs(t, accountIdToCurrency).value;
      (legs == [] <==> !Present(t.attributes.completedAt)) &&
      (legs != [] ==>
        |legs| == 1 && KnownAccount(t.attributes, accountIdToCurrency) &&
        legs[0].currency == accountIdToCurrency[t.attributes.accountId] &&
        legs[0].amount == Amount(t.attributes) && legs[0].ms == t.attributes.createdAt &&
        legs[0].bundleId == MissingBundleId)
  {
  }

  /** Where the corrected leg goes: into the account for a deposit, out of it for a withdrawal. */
  lemma LegDirection(t: Transfer, accountIdToCurrency: map<string, string>)
    requires CorrectedPlannedLegs(t, accountIdToCurrency).Ok? && CorrectedPlannedLegs(t, accountIdToCurrency).value != []
    ensures var l := CorrectedPlannedLegs(t, accountIdToCurrency).value[0];
      (t.attributes.transferType == "deposit" ==>
        l.to == FreshPlatform(Coinbase, t.accountNickname) &&
        l.from == (if Present(t.attributes.coinbasePayoutAt) then FreshBankAccount else FreshVoid("Unknown chain")) &&
        Fee(t.attributes) == 0.0) &&
      (t.attributes.transferType == "withdraw" ==>
        l.from == FreshPlatform(Coinbase, t.accountNickname) && l.to == FreshVoid("Unknown chain"))
  {
  }

  /** A corrected feeless deposit not paid out from a bank and a withdrawal of the same record are mirror images. */
  lemma DepositMirrorsWithdraw(t: Transfer, currency: string)
    requires Fee(t.attributes) == 0.0 && !Present(t.attributes.coinbasePayoutAt)
    ensures var d := CorrectedDepositLegs(t, currency).value[0]; var w := CorrectedWithdrawLegs(t, currency)[0];
      CorrectedDepositLegs(t, currency).Ok? && d.from == w.to && d.to == w.from && d.amount == w.amount && d.currency == w.currency
  {
  }
}
