/**
 The runtime state shared by the trader (the static class `Runtime`) and the
 two operations of `RuntimeSettings` that change it: LoadSettings, which
 selects the exchange, builds the tracked currency lists and decides whether
 to subscribe to the ticker feed, and OnWebsocketTickersUpdated, the feed's
 callback that upserts tracked tickers into the cache.
 */
module RuntimeSettings {
  import opened Exchanges
  import opened Currencies
  import opened Tickers

  /** The trade options LoadSettings reads. */
  datatype TradeOptions = TradeOptions(quoteCurrency: string, alwaysTradeList: seq<string>)

  class Runtime {
    /** `Runtime.WebSocketTickers`: exchange symbol to its cache entry. */
    var webSocketTickers: map<string, Ticker>
    /** `Runtime.GlobalCurrencys`: the tracked pairs in `quote-base` form. */
    var globalCurrencys: seq<string>
    /** `Runtime.ExchangeCurrencys`: the tracked pairs in the exchange's form. */
    var exchangeCurrencys: seq<string>
    /** Whether the ticker feed has been subscribed to this runtime's callback. */
    ghost var subscribed: bool
    /** The prices the cache currently holds, symbol by symbol. */
    ghost var cache: map<string, Quote>

    /** Every cache entry is its own object and holds the prices `cache`
        records for its symbol, and the cache holds tracked symbols only. */
    ghost predicate Valid()
      reads this`webSocketTickers, this`exchangeCurrencys, this`cache, webSocketTickers.Values
    {
      && (forall k, k' :: k in webSocketTickers && k' in webSocketTickers && k != k' ==>
            webSocketTickers[k] != webSocketTickers[k'])
      && (forall k :: k in webSocketTickers ==> k in exchangeCurrencys)
      && cache.Keys == webSocketTickers.Keys
      && (forall k :: k in webSocketTickers ==> webSocketTickers[k].Value() == cache[k])
    }

    /** The state before any settings are loaded: empty lists, empty cache. */
    constructor ()
      ensures Valid()
      ensures webSocketTickers == map[] && cache == map[] && globalCurrencys == [] && exchangeCurrencys == []
      ensures !subscribed
    {
      webSocketTickers := map[];
      cache := map[];
      globalCurrencys := [];
      exchangeCurrencys := [];
      subscribed := false;
    }

    /** Resolves the first configured exchange option, appends the tracked
        pairs to both currency lists, and subscribes to the ticker feed unless
        the option is a simulation. `globalToExchangeSymbol(api)` is the
        symbol mapping of the full API behind the selected gateway. */
    method LoadSettings(options: seq<ExchangeOption>, trade: TradeOptions,
                        globalToExchangeSymbol: ExchangeApi -> string -> string)
      returns (api: ExchangeApi)
      requires Valid()
      requires options != []
      modifies this`globalCurrencys, this`exchangeCurrencys, this`subscribed, options[0]
      ensures Valid()
      ensures Resolution(options[0].exchange, options[0].isSimulation, api) == Resolve(old(options[0].exchange))
      ensures globalCurrencys == old(globalCurrencys) + GlobalSymbols(trade.quoteCurrency, trade.alwaysTradeList)
      ensures exchangeCurrencys == old(exchangeCurrencys) + ExchangeSymbols(globalToExchangeSymbol(api), globalCurrencys)
      ensures subscribed == (old(subscribed) || !options[0].isSimulation)
      ensures webSocketTickers == old(webSocketTickers) && cache == old(cache)
      ensures old(globalCurrencys) == [] && old(exchangeCurrencys) == [] ==>
        && |exchangeCurrencys| == |globalCurrencys| == |trade.alwaysTradeList|
        && forall i :: 0 <= i < |globalCurrencys| ==> exchangeCurrencys[i] == globalToExchangeSymbol(api)(globalCurrencys[i])
      ensures !old(subscribed) ==> (subscribed <==> !old(options[0].exchange).IsSimulationVariant())
    {
      var option := options[0];
      api := SelectExchange(option);
      var fullApi := globalToExchangeSymbol(api);
      AddGlobalCurrencies(trade);
      AddExchangeCurrencies(fullApi);
      if !option.isSimulation {
        subscribed := true;
      }
      forall i | 0 <= i < |globalCurrencys|
        ensures ExchangeSymbols(fullApi, globalCurrencys)[i] == fullApi(globalCurrencys[i])
      {
        ExchangeSymbolsAt(fullApi, globalCurrencys, i);
      }
    }

    /** The first loop of LoadSettings: one `quote-base` pair per always-traded
        base currency, appended in order. */
    method AddGlobalCurrencies(trade: TradeOptions)
      modifies this`globalCurrencys
      ensures globalCurrencys == old(globalCurrencys) + GlobalSymbols(trade.quoteCurrency, trade.alwaysTradeList)
    {
      var bases := trade.alwaysTradeList;
      var i := 0;
      while i < |bases|
        invariant 0 <= i <= |bases|
        invariant globalCurrencys == old(globalCurrencys) + GlobalSymbols(trade.quoteCurrency, bases[..i])
      {
        assert bases[..i + 1][..i] == bases[..i];
        globalCurrencys := globalCurrencys + [trade.quoteCurrency + "-" + bases[i]];
        i := i + 1;
      }
      assert bases[..i] == bases;
    }

    /** The second loop of LoadSettings: the exchange symbol of every global
        pair, the old ones included, appended in order. */
    method AddExchangeCurrencies(toExchange: string -> string)
      requires Valid()
      modifies this`exchangeCurrencys
      ensures Valid()
      ensures exchangeCurrencys == old(exchangeCurrencys) + ExchangeSymbols(toExchange, globalCurrencys)
    {
      var globals := globalCurrencys;
      var k := 0;
      while k < |globals|
        invariant 0 <= k <= |globals|
        invariant exchangeCurrencys == old(exchangeCurrencys) + ExchangeSymbols(toExchange, globals[..k])
        invariant Valid()
      {
        assert globals[..k + 1][..k] == globals[..k];
        exchangeCurrencys := exchangeCurrencys + [toExchange(globals[k])];
        k := k + 1;
      }
      assert globals[..k] == globals;
    }

    /** The body of the feed callback's loop for one update. */
    method UpsertTicker(update: Update)
      requires Valid()
      modifies this`webSocketTickers, this`cache
      modifies if update.0 in webSocketTickers then {webSocketTickers[update.0]} else {}
      ensures Valid()
      ensures cache == Upsert(old(cache), exchangeCurrencys, update)
      ensures forall s :: s in old(webSocketTickers) ==> s in webSocketTickers && webSocketTickers[s] == old(webSocketTickers[s])
      ensures forall s :: s in webSocketTickers && s !in old(webSocketTickers) ==> fresh(webSocketTickers[s])
    {
      if update.0 in exchangeCurrencys {
        if update.0 in webSocketTickers {
          OverwriteTicker(update);
        } else {
          InsertTicker(update);
        }
      }
    }

    /** An update for a cached symbol: the entry's three prices are
        overwritten in place, one field after another. */
    method OverwriteTicker(update: Update)
      requires Valid() && update.0 in webSocketTickers
      modifies webSocketTickers[update.0], this`cache
      ensures Valid()
      ensures cache == old(cache)[update.0 := update.1]
    {
      var ticker := webSocketTickers[update.0];
      ticker.ask := update.1.ask;
      ticker.bid := update.1.bid;
      ticker.last := update.1.last;
      cache := cache[update.0 := update.1];
      forall s | s in webSocketTickers && s != update.0
        ensures webSocketTickers[s].Value() == cache[s]
      {
        assert webSocketTickers[s] != ticker;
      }
    }

    /** An update for a tracked symbol not yet cached: a new entry. */
    method InsertTicker(update: Update)
      requires Valid() && update.0 !in webSocketTickers && update.0 in exchangeCurrencys
      modifies this`webSocketTickers, this`cache
      ensures Valid()
      ensures cache == old(cache)[update.0 := update.1]
      ensures update.0 in webSocketTickers
      ensures webSocketTickers == old(webSocketTickers)[update.0 := webSocketTickers[update.0]]
      ensures fresh(webSocketTickers[update.0])
    {
      var ticker := new Ticker(update.1);
      webSocketTickers := webSocketTickers[update.0 := ticker];
      cache := cache[update.0 := update.1];
    }

    /** The ticker feed's callback: for each update of the batch, in order,
        an update for an untracked symbol is dropped, one for a cached symbol
        overwrites that entry's prices in place, and one for a tracked symbol
        not yet cached inserts a new entry. */
    method OnWebsocketTickersUpdated(updatedTickers: seq<Update>)
      requires Valid()
      modifies this`webSocketTickers, this`cache, webSocketTickers.Values
      ensures Valid()
      ensures cache == ApplyBatch(old(cache), exchangeCurrencys, updatedTickers)
      ensures forall s :: s in old(webSocketTickers) ==> s in webSocketTickers && webSocketTickers[s] == old(webSocketTickers[s])
      ensures forall s :: s in webSocketTickers && s !in old(webSocketTickers) ==> fresh(webSocketTickers[s])
    {
      var i := 0;
      assert updatedTickers[..0] == [];
      while i < |updatedTickers|
        invariant 0 <= i <= |updatedTickers|
        invariant Valid()
        invariant cache == ApplyBatch(old(cache), exchangeCurrencys, updatedTickers[..i])
        invariant forall s :: s in old(webSocketTickers) ==> s in webSocketTickers && webSocketTickers[s] == old(webSocketTickers[s])
        invariant forall s :: s in webSocketTickers && s !in old(webSocketTickers) ==> fresh(webSocketTickers[s])
      {
        ApplyBatchStep(old(cache), exchangeCurrencys, updatedTickers, i);
        UpsertTicker(updatedTickers[i]);
        i := i + 1;
      }
      assert updatedTickers[..i] == updatedTickers;
    }
  }

  /** The tracked pairs for quote currency BTC and base currencies ETH and LTC
      on an exchange whose symbols are the global pairs themselves: an update
      for BTC-ETH is cached, one for BTC-XRP is dropped. */
  lemma TrackedPairsExample(eth: Quote, xrp: Quote)
    ensures GlobalSymbols("BTC", ["ETH", "LTC"]) == ["BTC-ETH", "BTC-LTC"]
    ensures ApplyBatch(map[], ExchangeSymbols(s => s, GlobalSymbols("BTC", ["ETH", "LTC"])),
                       [("BTC-ETH", eth), ("BTC-XRP", xrp)])
         == map["BTC-ETH" := eth]
  {
    var globals := GlobalSymbols("BTC", ["ETH", "LTC"]);
    GlobalSymbolsAt("BTC", ["ETH", "LTC"], 0);
    GlobalSymbolsAt("BTC", ["ETH", "LTC"], 1);
    assert globals[0] == "BTC" + "-" + "ETH" == "BTC-ETH";
    assert globals[1] == "BTC" + "-" + "LTC" == "BTC-LTC";
    assert globals == ["BTC-ETH", "BTC-LTC"];
    var tracked := ExchangeSymbols(s => s, globals);
    ExchangeSymbolsAt(s => s, globals, 0);
    ExchangeSymbolsAt(s => s, globals, 1);
    assert tracked == globals;
    var first := ApplyBatch(map[], tracked, [("BTC-ETH", eth)]);
    ApplyBatchSnoc(map[], tracked, [], ("BTC-ETH", eth));
    assert first == map["BTC-ETH" := eth];
    ApplyBatchSnoc(map[], tracked, [("BTC-ETH", eth)], ("BTC-XRP", xrp));
    assert "BTC-XRP" !in tracked by {
      assert "BTC-XRP"[4] != "BTC-ETH"[4] && "BTC-XRP"[4] != "BTC-LTC"[4];
    }
    assert [("BTC-ETH", eth)] + [("BTC-XRP", xrp)] == [("BTC-ETH", eth), ("BTC-XRP", xrp)];
  }
}
