/**
 * `Config`: the account configuration. The constructor drops empty account objects,
 * lowercases the platform, chain and wallet fields, checks every account, and rejects
 * nicknames used twice across both lists.
 */
module Configs {
  import opened Wrappers
  import opened Strings
  import opened Collections
  import opened Records

  /** An account object: its fields and their text values. */
  type Account = map<string, string>

  datatype ConfigError =
    | FieldNotText(field: string)                // `undefined.toLowerCase()` on a missing field
    | UnsupportedPlatformName(account: Account)
    | UnsupportedBlockchainName(account: Account)
    | MissingValue(account: Account)             // 'Please add a value for each field'
    | DuplicatedNicknames(nicknames: set<string>)

  const SupportedPlatforms: seq<string> := ["kucoin", "coinbase", "binance"]

  const SupportedBlockchains: seq<string> := ["ethereum", "polygon", "binancesmartchain"]

  /** The fields lowercased in each list, in the order the spread literal evaluates them. */
  const CentralizedLowered: seq<string> := ["platformName"]

  const DecentralizedLowered: seq<string> := ["blockchainName", "walletAddress"]

  /** `notEmpty`: the object has at least one key. */
  predicate NotEmptyAccount(a: Account) {
    |a| > 0
  }

  /** The account with the given fields lowercased; a missing field throws, the first one first. */
  function Lowered(a: Account, fields: seq<string>): (r: Result<Account, ConfigError>)
    ensures r.Err? <==> FirstMissing(fields, a.Keys).Some?
    ensures r.Err? ==> r.error == FieldNotText(FirstMissing(fields, a.Keys).value)
    decreases |fields|
  {
    if fields == [] then Ok(a)
    else if fields[0] !in a then Err(FieldNotText(fields[0]))
    else
      var a' := a[fields[0] := ToLower(a[fields[0]])];
      assert a'.Keys == a.Keys;
      Lowered(a', fields[1..])
  }

  /** Lowering keeps the fields and changes exactly the values of the named ones. */
  lemma {:induction false} LoweredValues(a: Account, fields: seq<string>)
    requires Lowered(a, fields).Ok?
    ensures Lowered(a, fields).value.Keys == a.Keys
    ensures forall f | f in a :: Lowered(a, fields).value[f] == if f in fields then ToLower(a[f]) else a[f]
    decreases |fields|
  {
    if fields != [] {
      var f := fields[0];
      var a' := a[f := ToLower(a[f])];
      LoweredValues(a', fields[1..]);
      var r := Lowered(a', fields[1..]).value;
      forall g | g in a ensures r[g] == if g in fields then ToLower(a[g]) else a[g] {
        ToLowerIdempotent(a[g]);
        if g != f && g !in fields[1..] {
          assert g !in fields;
        }
      }
    }
  }

  /** The `map` step over the non-empty accounts: the first account that fails decides the error. */
  function NormalizeAll(accounts: seq<Account>, fields: seq<string>): (r: Result<seq<Account>, ConfigError>)
    ensures r.Ok? <==> forall i | 0 <= i < |accounts| :: Lowered(accounts[i], fields).Ok?
    ensures r.Ok? ==> |r.value| == |accounts| && forall i | 0 <= i < |accounts| :: Lowered(accounts[i], fields) == Ok(r.value[i])
  {
    if accounts == [] then Ok([])
    else
      var head := Lowered(accounts[0], fields);
      if head.Err? then Err(head.error)
      else
        var rest := NormalizeAll(accounts[1..], fields);
        assert forall i | 1 <= i < |accounts| :: accounts[i] == accounts[1..][i - 1];
        if rest.Err? then Err(rest.error)
        else
          var r := [head.value] + rest.value;
          assert forall i | 1 <= i < |r| :: r[i] == rest.value[i - 1];
          Ok(r)
  }

  /** Account `i` is the first one whose lowering fails, and it fails with `e`. */
  predicate FirstErrorAt(accounts: seq<Account>, fields: seq<string>, i: int, e: ConfigError) {
    0 <= i < |accounts| && Lowered(accounts[i], fields) == Err(e) &&
    forall j | 0 <= j < i :: Lowered(accounts[j], fields).Ok?
  }

  lemma FirstErrorAtShift(accounts: seq<Account>, fields: seq<string>, i: int, e: ConfigError)
    requires |accounts| > 0 && Lowered(accounts[0], fields).Ok?
    requires FirstErrorAt(accounts[1..], fields, i, e)
    ensures FirstErrorAt(accounts, fields, i + 1, e)
  {
    assert accounts[i + 1] == accounts[1..][i];
    forall j | 0 <= j < i + 1 ensures Lowered(accounts[j], fields).Ok? {
      if j > 0 { assert accounts[j] == accounts[1..][j - 1]; }
    }
  }

  /** The error is that of the first account that fails. */
  lemma {:induction false} NormalizeAllFirstError(accounts: seq<Account>, fields: seq<string>)
    requires NormalizeAll(accounts, fields).Err?
    ensures exists i :: FirstErrorAt(accounts, fields, i, NormalizeAll(accounts, fields).error)
  {
    var e := NormalizeAll(accounts, fields).error;
    if Lowered(accounts[0], fields).Ok? {
      var tail := accounts[1..];
      assert NormalizeAll(tail, fields).Err? && NormalizeAll(tail, fields).error == e;
      NormalizeAllFirstError(tail, fields);
      var i :| FirstErrorAt(tail, fields, i, e);
      FirstErrorAtShift(accounts, fields, i, e);
    } else {
      assert FirstErrorAt(accounts, fields, 0, e);
    }
  }

  /** Some field of the account has an empty value. */
  predicate HasEmptyValue(a: Account) {
    exists f | f in a :: a[f] == ""
  }

  /**
   * One account's `forEach` body: the name check comes before the empty-value check, so an
   * account failing both reports the unsupported name.
   */
  function AccountCheck(a: Account, nameField: string, supported: seq<string>, unsupported: ConfigError): (r: Option<ConfigError>)
    ensures r.None? <==> nameField in a && a[nameField] in supported && !HasEmptyValue(a)
    ensures (nameField !in a || a[nameField] !in supported) ==> r == Some(unsupported)
    ensures nameField in a && a[nameField] in supported && HasEmptyValue(a) ==> r == Some(MissingValue(a))
  {
    if nameField !in a || a[nameField] !in supported then Some(unsupported)
    else if HasEmptyValue(a) then Some(MissingValue(a))
    else None
  }

  function CentralizedCheck(a: Account): Option<ConfigError> {
    AccountCheck(a, "platformName", SupportedPlatforms, UnsupportedPlatformName(a))
  }

  function DecentralizedCheck(a: Account): Option<ConfigError> {
    AccountCheck(a, "blockchainName", SupportedBlockchains, UnsupportedBlockchainName(a))
  }

  /** A `forEach` over the accounts: the first account that fails throws. */
  function FirstFailure(accounts: seq<Account>, check: Account -> Option<ConfigError>): (r: Option<ConfigError>)
    ensures r.None? <==> forall i | 0 <= i < |accounts| :: check(accounts[i]).None?
  {
    if accounts == [] then None
    else if check(accounts[0]).Some? then check(accounts[0])
    else
      assert forall i | 1 <= i < |accounts| :: accounts[i] == accounts[1..][i - 1];
      FirstFailure(accounts[1..], check)
  }

  /** The reported failure is that of the first failing account. */
  lemma {:induction false} FirstFailureIsFirst(accounts: seq<Account>, check: Account -> Option<ConfigError>)
    requires FirstFailure(accounts, check).Some?
    ensures exists i | 0 <= i < |accounts| ::
      check(accounts[i]) == FirstFailure(accounts, check) && forall j | 0 <= j < i :: check(accounts[j]).None?
  {
    if check(accounts[0]).None? {
      FirstFailureIsFirst(accounts[1..], check);
      var i :| 0 <= i < |accounts[1..]| && check(accounts[1..][i]) == FirstFailure(accounts[1..], check) &&
        forall j | 0 <= j < i :: check(accounts[1..][j]).None?;
      assert accounts[i + 1] == accounts[1..][i];
      forall j | 0 <= j < i + 1 ensures check(accounts[j]).None? {
        if j > 0 { assert accounts[j] == accounts[1..][j - 1]; }
      }
    }
  }

  /** `account.nickname`; a missing nickname is `undefined`, counted under that name. */
  function Nickname(a: Account): string {
    if "nickname" in a then a["nickname"] else "undefined"
  }

  /** The nicknames in the order the constructor lists them: decentralized accounts first. */
  function Nicknames(centralized: seq<Account>, decentralized: seq<Account>): seq<string> {
    Project(decentralized, Nickname) + Project(centralized, Nickname)
  }

  /** The nicknames occurring more than once. */
  function Duplicated(nicknames: seq<string>): (r: set<string>)
    ensures forall k :: k in r <==> multiset(nicknames)[k] > 1
  {
    set k | k in nicknames && multiset(nicknames)[k] > 1
  }

  /** The first pass: empty objects dropped, then the lowercasing `map` over each list. */
  function Normalized(centralized: seq<Account>, decentralized: seq<Account>): Result<(seq<Account>, seq<Account>), ConfigError> {
    var cs :- NormalizeAll(Filter(centralized, NotEmptyAccount), CentralizedLowered);
    var ds :- NormalizeAll(Filter(decentralized, NotEmptyAccount), DecentralizedLowered);
    Ok((cs, ds))
  }

  /** The second pass: the centralized accounts are checked before the decentralized ones. */
  function CheckFailure(cs: seq<Account>, ds: seq<Account>): Option<ConfigError> {
    var c := FirstFailure(cs, CentralizedCheck);
    if c.Some? then c else FirstFailure(ds, DecentralizedCheck)
  }

  /** The whole constructor: the normalised lists it stores, or the error it throws. */
  function NewConfigSpec(centralized: seq<Account>, decentralized: seq<Account>): Result<(seq<Account>, seq<Account>), ConfigError> {
    match Normalized(centralized, decentralized)
    case Err(e) => Err(e)
    case Ok(lists) =>
      match CheckFailure(lists.0, lists.1)
      case Some(e) => Err(e)
      case None =>
        var dups := Duplicated(Nicknames(lists.0, lists.1));
        if dups != {} then Err(DuplicatedNicknames(dups)) else Ok(lists)
  }

  lemma {:induction false} FilterIdempotent<T>(s: seq<T>, p: T -> bool)
    ensures Filter(Filter(s, p), p) == Filter(s, p)
  {
    if s != [] {
      FilterIdempotent(s[1..], p);
      var f := Filter(s, p);
      if p(s[0]) {
        assert f == [s[0]] + Filter(s[1..], p);
        assert f[0] == s[0] && f[1..] == Filter(s[1..], p);
        assert Filter(f, p) == [s[0]] + Filter(f[1..], p);
      } else {
        assert f == Filter(s[1..], p);
      }
    }
  }

  /** Empty account objects play no part: dropping them beforehand changes nothing. */
  lemma EmptyAccountsIgnored(centralized: seq<Account>, decentralized: seq<Account>)
    ensures NewConfigSpec(centralized, decentralized) ==
      NewConfigSpec(Filter(centralized, NotEmptyAccount), Filter(decentralized, NotEmptyAccount))
  {
    FilterIdempotent(centralized, NotEmptyAccount);
    FilterIdempotent(decentralized, NotEmptyAccount);
  }

  /** `r` is `a` with the named fields, all present, lowercased and every other field kept. */
  predicate LoweredFrom(a: Account, r: Account, fields: seq<string>) {
    r.Keys == a.Keys &&
    (forall i | 0 <= i < |fields| :: fields[i] in a && r[fields[i]] == ToLower(a[fields[i]])) &&
    (forall f | f in a && f !in fields :: r[f] == a[f])
  }

  lemma LoweredAccount(a: Account, fields: seq<string>)
    requires Lowered(a, fields).Ok?
    ensures LoweredFrom(a, Lowered(a, fields).value, fields)
  {
    LoweredValues(a, fields);
    var r := Lowered(a, fields).value;
    forall i | 0 <= i < |fields| ensures fields[i] in a && r[fields[i]] == ToLower(a[fields[i]]) {
      assert fields[i] in a.Keys;
    }
  }

  /** The normalised accounts, one for one: each is its source account with the fields lowercased. */
  lemma NormalizedAccounts(accounts: seq<Account>, fields: seq<string>)
    requires NormalizeAll(accounts, fields).Ok?
    ensures var out := NormalizeAll(accounts, fields).value;
      |out| == |accounts| && forall i | 0 <= i < |out| :: LoweredFrom(accounts[i], out[i], fields)
  {
    var out := NormalizeAll(accounts, fields).value;
    forall i | 0 <= i < |out| ensures LoweredFrom(accounts[i], out[i], fields) {
      LoweredAccount(accounts[i], fields);
    }
  }

  /**
   * An accepted configuration stores the non-empty accounts in order, lowercased as above,
   * every one of them passing its check.
   */
  lemma AcceptedAccounts(centralized: seq<Account>, decentralized: seq<Account>)
    requires NewConfigSpec(centralized, decentralized).Ok?
    ensures var lists := NewConfigSpec(centralized, decentralized).value;
      var c0 := Filter(centralized, NotEmptyAccount);
      var d0 := Filter(decentralized, NotEmptyAccount);
      |lists.0| == |c0| && |lists.1| == |d0| &&
      (forall i | 0 <= i < |lists.0| :: LoweredFrom(c0[i], lists.0[i], CentralizedLowered)) &&
      (forall i | 0 <= i < |lists.1| :: LoweredFrom(d0[i], lists.1[i], DecentralizedLowered)) &&
      (forall i | 0 <= i < |lists.0| :: CentralizedCheck(lists.0[i]).None?) &&
      (forall i | 0 <= i < |lists.1| :: DecentralizedCheck(lists.1[i]).None?)
  {
    NormalizedAccounts(Filter(centralized, NotEmptyAccount), CentralizedLowered);
    NormalizedAccounts(Filter(decentralized, NotEmptyAccount), DecentralizedLowered);
  }

  /** In an accepted configuration no nickname is shared, across both lists. */
  lemma AcceptedNicknamesUnique(centralized: seq<Account>, decentralized: seq<Account>)
    requires NewConfigSpec(centralized, decentralized).Ok?
    ensures var lists := NewConfigSpec(centralized, decentralized).value;
      var names := Nicknames(lists.0, lists.1);
      forall i, j | 0 <= i < j < |names| :: names[i] != names[j]
  {
    var lists := NewConfigSpec(centralized, decentralized).value;
    var names := Nicknames(lists.0, lists.1);
    assert Duplicated(names) == {};
    forall i, j | 0 <= i < j < |names| ensures names[i] != names[j] {
      NoRepeatWithoutDuplicates(names, i, j);
    }
  }

  lemma NoRepeatWithoutDuplicates(names: seq<string>, i: nat, j: nat)
    requires i < j < |names| && Duplicated(names) == {}
    ensures names[i] != names[j]
  {
    SplitAt(names, j);
    var rest := names[..j] + names[j + 1..];
    assert rest[i] == names[i];
    assert names[i] in multiset(rest);
  }

  /** Once both passes succeed, the constructor throws exactly when a nickname is reused, naming each such one. */
  lemma DuplicatesReported(centralized: seq<Account>, decentralized: seq<Account>)
    requires Normalized(centralized, decentralized).Ok?
    requires var lists := Normalized(centralized, decentralized).value; CheckFailure(lists.0, lists.1).None?
    ensures var lists := Normalized(centralized, decentralized).value;
      var names := Nicknames(lists.0, lists.1);
      (NewConfigSpec(centralized, decentralized).Err? <==> exists n :: multiset(names)[n] > 1) &&
      (NewConfigSpec(centralized, decentralized).Err? ==>
        NewConfigSpec(centralized, decentralized).error.DuplicatedNicknames? &&
        forall n :: n in NewConfigSpec(centralized, decentralized).error.nicknames <==> multiset(names)[n] > 1)
  {
    var lists := Normalized(centralized, decentralized).value;
    var names := Nicknames(lists.0, lists.1);
    if exists n :: multiset(names)[n] > 1 {
      var n :| multiset(names)[n] > 1;
      assert n in Duplicated(names);
    }
  }

  /**
   * The `reduce` over the nicknames: a count per nickname, each nickname counted as often
   * as it occurs.
   */
  method CountNicknames(nicknames: seq<string>) returns (counts: map<string, nat>)
    ensures forall k :: k in counts <==> k in nicknames
    ensures forall k | k in counts :: counts[k] == multiset(nicknames)[k]
  {
    counts := map[];
    for i := 0 to |nicknames|
      invariant forall k :: k in counts <==> k in nicknames[..i]
      invariant forall k | k in counts :: counts[k] == multiset(nicknames[..i])[k]
    {
      var name := nicknames[i];
      assert nicknames[..i + 1] == nicknames[..i] + [name];
      if name in counts {
        counts := counts[name := counts[name] + 1];
      } else {
        counts := counts[name := 1];
      }
    }
    assert nicknames[..|nicknames|] == nicknames;
  }

  class Config {
    const centralizedAccounts: seq<Account>
    const decentralizedAccounts: seq<Account>

    constructor (centralizedAccounts: seq<Account>, decentralizedAccounts: seq<Account>)
      ensures this.centralizedAccounts == centralizedAccounts && this.decentralizedAccounts == decentralizedAccounts
    {
      this.centralizedAccounts := centralizedAccounts;
      this.decentralizedAccounts := decentralizedAccounts;
    }
  }

  /** `new Config({ centralizedAccounts, decentralizedAccounts })`. */
  method NewConfig(centralized: seq<Account>, decentralized: seq<Account>) returns (r: Result<Config, ConfigError>)
    ensures NewConfigSpec(centralized, decentralized).Err? ==> r == Err(NewConfigSpec(centralized, decentralized).error)
    ensures NewConfigSpec(centralized, decentralized).Ok? ==>
      r.Ok? && fresh(r.value) &&
      r.value.centralizedAccounts == NewConfigSpec(centralized, decentralized).value.0 &&
      r.value.decentralizedAccounts == NewConfigSpec(centralized, decentralized).value.1
  {
    var lists := Normalized(centralized, decentralized);
    if lists.Err? {
      return Err(lists.error);
    }
    var cs, ds := lists.value.0, lists.value.1;
    var failure := CheckFailure(cs, ds);
    if failure.Some? {
      return Err(failure.value);
    }
    var counts := CountNicknames(Nicknames(cs, ds));
    var duplicated := set k | k in counts && counts[k] > 1;
    assert duplicated == Duplicated(Nicknames(cs, ds));
    if duplicated != {} {
      return Err(DuplicatedNicknames(duplicated));
    }
    var config := new Config(cs, ds);
    return Ok(config);
  }
}
