/** `Currency`: one shared object per ticker, handed out by a registry. */
module Currencies {

  class Currency {
    const ticker: string

    constructor (ticker: string)
      ensures this.ticker == ticker
    {
      this.ticker := ticker;
    }
  }

  /** `isFiat`: only the two fiat tickers count, compared case-sensitively. */
  function IsFiat(ticker: string): (r: bool)
    ensures r <==> ticker in {"USD", "EUR"}
  {
    ticker == "USD" || ticker == "EUR"
  }

  lemma IsFiatIsCaseSensitive()
    ensures !IsFiat("usd") && !IsFiat("Eur") && IsFiat("USD")
  {
  }

  /** The module-level `instances` record. */
  class CurrencyRegistry {
    var instances: map<string, Currency>

    ghost predicate Valid()
      reads this
    {
      forall t | t in instances :: instances[t].ticker == t
    }

    constructor ()
      ensures Valid() && instances == map[]
    {
      instances := map[];
    }

    /** `Currency.getInstance({ ticker })`. */
    method GetInstance(ticker: string) returns (c: Currency)
      requires Valid()
      modifies this
      ensures Valid()
      ensures ticker in instances && instances[ticker] == c && c.ticker == ticker
      ensures ticker in old(instances) ==> c == old(instances)[ticker] && instances == old(instances)
      ensures ticker !in old(instances) ==> fresh(c) && instances == old(instances)[ticker := c]
    {
      if ticker in instances {
        c := instances[ticker];
      } else {
        c := new Currency(ticker);
        instances := instances[ticker := c];
      }
    }
  }

  /** Two requests for one ticker give the same object, and nothing already registered moves. */
  method SameTickerSameInstance(registry: CurrencyRegistry, ticker: string) returns (a: Currency, b: Currency)
    requires registry.Valid()
    modifies registry
    ensures registry.Valid()
    ensures a == b && a.ticker == ticker
    ensures forall t | t in old(registry.instances) :: t in registry.instances && registry.instances[t] == old(registry.instances)[t]
  {
    a := registry.GetInstance(ticker);
    b := registry.GetInstance(ticker);
  }
}
