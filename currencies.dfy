/**
 The two currency lists LoadSettings builds: the global pairs
 `quote-base` for each always-traded base currency, and their
 exchange-native symbols.
 */
module Currencies {

  /** The global pair for one base currency. */
  function GlobalPair(quote: string, base: string): string {
    quote + "-" + base
  }

  /** The global pairs for a list of base currencies, in list order. */
  function GlobalSymbols(quote: string, bases: seq<string>): (r: seq<string>)
    ensures |r| == |bases|
  {
    if bases == [] then []
    else GlobalSymbols(quote, bases[..|bases| - 1]) + [GlobalPair(quote, bases[|bases| - 1])]
  }

  /** Element `i` of the global pairs is the pair of base currency `i`. */
  lemma {:induction false} GlobalSymbolsAt(quote: string, bases: seq<string>, i: nat)
    requires i < |bases|
    ensures GlobalSymbols(quote, bases)[i] == quote + "-" + bases[i]
  {
    if i < |bases| - 1 {
      GlobalSymbolsAt(quote, bases[..|bases| - 1], i);
    }
  }

  /** The exchange-native symbols of a list of global pairs, in list order,
      under the exchange's (unseen) mapping `toExchange`. */
  function ExchangeSymbols(toExchange: string -> string, globals: seq<string>): (r: seq<string>)
    ensures |r| == |globals|
  {
    if globals == [] then []
    else ExchangeSymbols(toExchange, globals[..|globals| - 1]) + [toExchange(globals[|globals| - 1])]
  }

  /** Element `i` of the exchange symbols is the mapping of global pair `i`. */
  lemma {:induction false} ExchangeSymbolsAt(toExchange: string -> string, globals: seq<string>, i: nat)
    requires i < |globals|
    ensures ExchangeSymbols(toExchange, globals)[i] == toExchange(globals[i])
  {
    if i < |globals| - 1 {
      ExchangeSymbolsAt(toExchange, globals[..|globals| - 1], i);
    }
  }
}
