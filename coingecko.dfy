/**
 * The CoinGecko client's own logic: the `DD-MM-YYYY` date its history query takes, the
 * symbol-to-id table built from the coin list, the three-way id lookup, and the in-memory
 * price cache in front of the history query.
 */
module Coingecko {
  import opened Wrappers
  import opened Strings

  /** The value of a string of decimal digits, most significant first. */
  function DecimalValue(s: string): int {
    if s == [] then 0 else DecimalValue(s[..|s| - 1]) * 10 + (s[|s| - 1] as int - '0' as int)
  }

  lemma {:induction false} NatToStringValue(n: nat)
    ensures DecimalValue(NatToString(n)) == n
  {
    if n >= 10 {
      NatToStringValue(n / 10);
      var s := NatToString(n);
      assert s[..|s| - 1] == NatToString(n / 10);
    }
  }

  /** `padWithOneZero`: numbers below ten get a leading zero (a negative one too, as `0-5`). */
  function PadWithOneZero(n: int): (r: string)
    ensures n >= 10 ==> r == NatToString(n)
    ensures 0 <= n < 10 ==> |r| == 2 && r[0] == '0'
  {
    if n < 10 then "0" + IntToString(n) else NatToString(n)
  }

  /** Between 0 and 99 the padded text is two digits that read back as the number. */
  lemma PadTwoDigits(n: int)
    requires 0 <= n < 100
    ensures var r := PadWithOneZero(n);
      |r| == 2 && '0' <= r[0] <= '9' && '0' <= r[1] <= '9' && DecimalValue(r) == n
  {
    var r := PadWithOneZero(n);
    NatToStringValue(n);
    if n < 10 {
      assert r == "0" + NatToString(n);
      assert r[..1] == "0";
    }
  }

  /** The local calendar fields a `Date` reports: `getFullYear()`, `getMonth()` (from 0) and `getDate()`. */
  datatype CalendarDate = CalendarDate(year: int, month0: int, day: int)

  predicate ValidDate(d: CalendarDate) {
    0 <= d.month0 < 12 && 1 <= d.day <= 31
  }

  /** `convertDate`: the day, then the month counted from 1, then the year, joined by dashes. */
  function ConvertDate(d: CalendarDate): string {
    PadWithOneZero(d.day) + "-" + PadWithOneZero(d.month0 + 1) + "-" + IntToString(d.year)
  }

  /** Reads a `DD-MM-YYYY` text back as (day, month from 1, year). */
  function ParseDate(s: string): (int, int, int)
    requires |s| >= 6
  {
    (DecimalValue(s[..2]), DecimalValue(s[3..5]), DecimalValue(s[6..]))
  }

  /** For a real date of a year from 0 on, the text has the `DD-MM-YYYY` layout and reads back. */
  lemma ConvertDateRoundTrip(d: CalendarDate)
    requires ValidDate(d) && d.year >= 0
    ensures var s := ConvertDate(d);
      |s| >= 7 && s[2] == '-' && s[5] == '-' && ParseDate(s) == (d.day, d.month0 + 1, d.year)
  {
    var dd := PadWithOneZero(d.day);
    var mm := PadWithOneZero(d.month0 + 1);
    var yy := IntToString(d.year);
    PadTwoDigits(d.day);
    PadTwoDigits(d.month0 + 1);
    NatToStringValue(d.year);
    DashedFields(dd, mm, yy);
  }

  lemma DashedFields(dd: string, mm: string, yy: string)
    requires |dd| == 2 && |mm| == 2 && |yy| >= 1
    ensures var s := dd + "-" + mm + "-" + yy;
      |s| >= 7 && s[2] == '-' && s[5] == '-' && s[..2] == dd && s[3..5] == mm && s[6..] == yy
  {
  }

  /** One element of `/coins/list`. */
  datatype CoinEntry = CoinEntry(id: string, symbol: string, name: string)

  /** The `reduce` that builds `symbolToMap`: each entry in turn, a later one overwriting an earlier one. */
  function SymbolMap(list: seq<CoinEntry>): map<string, string> {
    if list == [] then map[]
    else SymbolMap(list[..|list| - 1])[list[|list| - 1].symbol := list[|list| - 1].id]
  }

  /** A symbol is in the table exactly when some entry has it. */
  lemma {:induction false} SymbolMapKeys(list: seq<CoinEntry>, symbol: string)
    ensures symbol in SymbolMap(list) <==> exists i | 0 <= i < |list| :: list[i].symbol == symbol
  {
    if list != [] {
      var init := list[..|list| - 1];
      SymbolMapKeys(init, symbol);
      if exists i | 0 <= i < |init| :: init[i].symbol == symbol {
        var i :| 0 <= i < |init| && init[i].symbol == symbol;
        assert list[i] == init[i];
      }
      if exists i | 0 <= i < |list| :: list[i].symbol == symbol {
        var i :| 0 <= i < |list| && list[i].symbol == symbol;
        if i < |list| - 1 {
          assert init[i] == list[i];
        }
      }
    }
  }

  /** The id stored for a symbol is that of the last entry with the symbol. */
  lemma {:induction false} SymbolMapLastWins(list: seq<CoinEntry>, j: nat)
    requires j < |list|
    requires forall k | j < k < |list| :: list[k].symbol != list[j].symbol
    ensures list[j].symbol in SymbolMap(list) && SymbolMap(list)[list[j].symbol] == list[j].id
  {
    if j < |list| - 1 {
      var init := list[..|list| - 1];
      forall k | j < k < |init| ensures init[k].symbol != init[j].symbol {
        assert init[k] == list[k];
      }
      SymbolMapLastWins(init, j);
    }
  }

  /** `CoinList`: the symbol-to-id table of the listed coins. */
  class CoinList {
    const symbolToMap: map<string, string>

    constructor (list: seq<CoinEntry>)
      ensures symbolToMap == SymbolMap(list)
    {
      var m: map<string, string> := map[];
      for i := 0 to |list|
        invariant m == SymbolMap(list[..i])
      {
        assert list[..i + 1][..i] == list[..i];
        m := m[list[i].symbol := list[i].id];
      }
      assert list[..|list|] == list;
      symbolToMap := m;
    }

    /** A JavaScript index into the table: `undefined` for a symbol it lacks. */
    function Lookup(symbol: string): Option<string> {
      if symbol in symbolToMap then Some(symbolToMap[symbol]) else None
    }

    /**
     * `getId`: the exact symbol, then its lowercase, then its uppercase; an `||` chain, so
     * an empty id counts as missing and the last lookup is returned when none is truthy.
     */
    function GetId(symbol: string): (r: Option<string>)
      ensures Truthy(Lookup(symbol)) ==> r == Lookup(symbol)
      ensures !Truthy(Lookup(symbol)) && Truthy(Lookup(ToLower(symbol))) ==> r == Lookup(ToLower(symbol))
      ensures !Truthy(Lookup(symbol)) && !Truthy(Lookup(ToLower(symbol))) ==> r == Lookup(ToUpper(symbol))
      ensures Truthy(r) <==>
        Truthy(Lookup(symbol)) || Truthy(Lookup(ToLower(symbol))) || Truthy(Lookup(ToUpper(symbol)))
    {
      var exact := Lookup(symbol);
      if Truthy(exact) then exact
      else
        var lower := Lookup(ToLower(symbol));
        if Truthy(lower) then lower else Lookup(ToUpper(symbol))
    }
  }

  /** A looked-up id is truthy when it is present and not the empty string. */
  predicate Truthy(id: Option<string>) {
    id.Some? && id.value != ""
  }

  /**
   * A ticker listed only under its lowercase symbol finds the last coin listed with that
   * symbol, whatever the ticker's case.
   */
  lemma LowercaseSymbolFound(list: seq<CoinEntry>, c: CoinList, ticker: string, j: nat)
    requires c.symbolToMap == SymbolMap(list)
    requires j < |list| && list[j].symbol == ToLower(ticker) && list[j].id != ""
    requires forall k | j < k < |list| :: list[k].symbol != list[j].symbol
    requires forall k | 0 <= k < |list| :: list[k].symbol != ticker
    ensures c.GetId(ticker) == Some(list[j].id)
  {
    SymbolMapLastWins(list, j);
    SymbolMapKeys(list, ticker);
  }

  /** The cache: coin id, then the instant in milliseconds as decimal text, to the USD price. */
  type PriceCache = map<string, map<string, real>>

  /** `this.cache[coinId]?.[key]`, where a price of zero is falsy and so never a hit. */
  function CachedPrice(cache: PriceCache, coinId: string, key: string): Option<real> {
    if coinId in cache && key in cache[coinId] && cache[coinId][key] != 0.0 then Some(cache[coinId][key]) else None
  }

  /** `this.cache[coinId] ||= {}` followed by the store of the fetched price. */
  function Store(cache: PriceCache, coinId: string, key: string, price: real): (r: PriceCache)
    ensures r.Keys == cache.Keys + {coinId}
    ensures r[coinId].Keys == (if coinId in cache then cache[coinId].Keys else {}) + {key}
    ensures r[coinId][key] == price
  {
    var entries := if coinId in cache then cache[coinId] else map[];
    cache[coinId := entries[key := price]]
  }

  /** A stored price other than zero is found again; every other cached price is untouched. */
  lemma StoreThenHit(cache: PriceCache, coinId: string, key: string, price: real)
    ensures price != 0.0 ==> CachedPrice(Store(cache, coinId, key, price), coinId, key) == Some(price)
    ensures price == 0.0 ==> CachedPrice(Store(cache, coinId, key, price), coinId, key) == None
    ensures forall id, k | (id != coinId || k != key) ::
      CachedPrice(Store(cache, coinId, key, price), id, k) == CachedPrice(cache, id, k)
  {
  }

  /** `(+at).toString()`: the cache key of an instant. */
  function InstantKey(ms: int): string {
    IntToString(ms)
  }

  /** An instant: its milliseconds since the epoch and the local calendar date it falls on. */
  datatype Instant = Instant(ms: int, local: CalendarDate)

  datatype PriceError = NotListed(ticker: string)

  /**
   * `getPrice` on the in-memory cache. `history(coinId, date)` stands for the USD price the
   * history query returns.
   */
  class CoingeckoClient {
    const coinList: CoinList
    var cache: PriceCache

    constructor (coinList: CoinList, cache: PriceCache)
      ensures this.coinList == coinList && this.cache == cache
    {
      this.coinList := coinList;
      this.cache := cache;
    }

    method GetPrice(at: Instant, ticker: string, history: (string, string) -> real) returns (r: Result<real, PriceError>)
      modifies this
      ensures var id := coinList.GetId(ticker);
        (!Truthy(id) ==> r == Err(NotListed(ticker)) && cache == old(cache)) &&
        (Truthy(id) && CachedPrice(old(cache), id.value, InstantKey(at.ms)).Some? ==>
          r == Ok(CachedPrice(old(cache), id.value, InstantKey(at.ms)).value) && cache == old(cache)) &&
        (Truthy(id) && CachedPrice(old(cache), id.value, InstantKey(at.ms)).None? ==>
          var price := history(id.value, ConvertDate(at.local));
          r == Ok(price) && cache == Store(old(cache), id.value, InstantKey(at.ms), price))
    {
      var coinId := coinList.GetId(ticker);
      if !Truthy(coinId) {
        return Err(NotListed(ticker));
      }
      var key := InstantKey(at.ms);
      var cached := CachedPrice(cache, coinId.value, key);
      if cached.Some? {
        return Ok(cached.value);
      }
      var price := history(coinId.value, ConvertDate(at.local));
      cache := Store(cache, coinId.value, key, price);
      return Ok(price);
    }
  }
}
