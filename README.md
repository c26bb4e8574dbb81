# MachinaTrader runtime settings — a Dafny model

This project models the start-up and ticker-cache logic of MachinaTrader's
`RuntimeSettings` (file `MachinaTrader/RuntimeSettings.cs`). That logic runs
over the shared state of the static class `Runtime`, and it does three things:

- **Exchange selection** (`LoadSettings`). The first configured exchange option
  is read. A `GdaxSimulation` or `BinanceSimulation` exchange is rewritten to
  `Gdax` or `Binance`. Its gateway is the simulation decorator around that
  exchange's client, and `IsSimulation` becomes true. Any other exchange is
  kept, gets a live gateway, and `IsSimulation` becomes false.
- **Tracked currency lists** (`LoadSettings`). One `quote-base` pair per
  always-traded base currency is appended to `GlobalCurrencys`, in order. Then
  the exchange-native symbol of every entry of `GlobalCurrencys` is appended to
  `ExchangeCurrencys`. The ticker feed is subscribed only when the option is
  not a simulation.
- **Ticker cache** (`OnWebsocketTickersUpdated`). The callback processes a batch
  of `(symbol, prices)` updates in order. An update for a symbol that is not in
  `ExchangeCurrencys` is dropped. For a cached symbol, the existing `Ticker`
  object gets its `Ask`, `Bid` and `Last` overwritten in place. For any other
  tracked symbol, a new `Ticker` is inserted.

Files:

- `exchanges.dfy` (module `Exchanges`) holds these parts:
  - the `Exchange` identifier;
  - the gateway tag `ExchangeApi` (`Live` or `Simulated`);
  - the mutable `ExchangeOption`;
  - `Resolve`, the function that specifies the switch;
  - `SelectExchange`, the switch itself.
- `currencies.dfy` (module `Currencies`) holds `GlobalSymbols` and
  `ExchangeSymbols`. These functions specify the two list-building loops.
- `tickers.dfy` (module `Tickers`) holds these parts:
  - the price triple `Quote`;
  - the mutable `Ticker` class;
  - `Upsert` and `ApplyBatch`, which give the effect of one update and of a
    batch on the cache's contents;
  - the lemmas about them.
- `runtime_settings.dfy` (module `RuntimeSettings`) holds the class `Runtime`:
  - the three static fields `WebSocketTickers`, `GlobalCurrencys` and
    `ExchangeCurrencys`;
  - a ghost `subscribed` flag;
  - the methods `LoadSettings` and `OnWebsocketTickersUpdated`, whose loops
    are proved against the functions above.

The ghost field `Runtime.cache` is the abstract view of the cache: each
symbol mapped to the prices its `Ticker` currently holds. The class invariant
`Runtime.Valid()` has three parts:

- Distinct cached symbols hold distinct `Ticker` objects, so an in-place
  overwrite touches one entry only.
- The cache holds tracked symbols only.
- Every `Ticker` holds the prices `cache` records for its symbol.

Foreign calls become parameters or tags:

- The gateway objects (`BaseExchange`, `ExchangeSimulationApi`, the Gdax and
  Binance clients) become the `ExchangeApi` tag.
- `GetFullApi().Result` and its `GlobalSymbolToExchangeSymbol` become the
  uninterpreted parameter `globalToExchangeSymbol: ExchangeApi -> string -> string`.
- `GetTickersWebSocket` becomes the ghost `subscribed` flag.

Behaviour of the code that the model keeps as written:

- A second `LoadSettings` call on the same runtime appends the pairs again.
  Its second loop maps the whole of `GlobalCurrencys` again, which includes the
  pairs from the first call. So `ExchangeCurrencys` then no longer matches
  `GlobalCurrencys` element by element. The element-wise match
  (`LoadSettings`'s ensures) is promised only when both lists start empty, as
  they do at start-up.
- After the switch, the option's exchange is the real one. Running the switch
  on it again gives a live gateway (`ReResolveIsLive`).

What the code does not do, and the model therefore does not do either:

- The code does not reject duplicate pairs.
- The code does not check that a pair has the `-` separator.
- The code does not require ticker prices to be non-negative.
- The code writes the three ticker fields one after another, not atomically.

## Model

| member | source | states |
|---|---|---|
| `Exchanges.Resolve` | MachinaTrader/RuntimeSettings.cs:111-127 | the option ends up simulated exactly when its exchange was a simulation variant; the resulting exchange is never a simulation variant; `GdaxSimulation` becomes `Gdax`, `BinanceSimulation` becomes `Binance`, any other exchange is kept; the gateway is the simulation wrapper around the resulting exchange when simulated and the live client otherwise |
| `Exchanges.ReResolveIsLive` | MachinaTrader/RuntimeSettings.cs:113-126 | running the switch on an already rewritten option gives a live gateway with `IsSimulation` false |
| `Exchanges.SelectExchange` | MachinaTrader/RuntimeSettings.cs:110-127 | the option's new `Exchange` and `IsSimulation`, and the gateway returned, are exactly those `Resolve` gives for the option's old exchange |
| `Currencies.GlobalSymbols` | MachinaTrader/RuntimeSettings.cs:133-136 | one pair per base currency: the list of pairs is as long as the list of base currencies |
| `Currencies.GlobalSymbolsAt` | MachinaTrader/RuntimeSettings.cs:133-136 | pair `i` is `quote + "-" + bases[i]`, so the pairs follow the base currencies' order |
| `Currencies.ExchangeSymbols` | MachinaTrader/RuntimeSettings.cs:138-141 | one exchange symbol per global pair: the list of symbols is as long as the list of pairs |
| `Currencies.ExchangeSymbolsAt` | MachinaTrader/RuntimeSettings.cs:138-141 | symbol `i` is the mapping applied to pair `i`, so the symbols follow the pairs' order |
| `Tickers.Ticker.constructor` | MachinaTrader/RuntimeSettings.cs:164-169 | a new entry holds exactly the update's Ask, Bid and Last |
| `Tickers.Upsert` | MachinaTrader/RuntimeSettings.cs:154-170 | the reference definition of one update's effect on the cache's contents: a tracked symbol is set to the update's prices, an untracked one is dropped; its properties are stated by `Tickers.UpsertEffect` |
| `Tickers.ApplyBatch` | MachinaTrader/RuntimeSettings.cs:152-172 | the reference definition of a whole batch: the updates applied one after another in batch order; its properties are stated by `Tickers.ApplyBatchKeys`, `Tickers.LastUpdateWins`, `Tickers.UntouchedKeyIsKept` and `Tickers.UntrackedBatchIsNoop` |
| `Tickers.UpsertEffect` | MachinaTrader/RuntimeSettings.cs:154-170 | an untracked update leaves the cache unchanged; a tracked one makes its symbol hold its prices; the key set grows by the symbol only when tracked; no other entry changes; an update for a cached symbol keeps the number of entries |
| `Tickers.ApplyBatchKeys` | MachinaTrader/RuntimeSettings.cs:152-172 | after a batch, the keys are exactly the old keys plus the tracked symbols the batch mentions, so the key set only grows, and only by tracked symbols |
| `Tickers.ApplyBatchStep` | MachinaTrader/RuntimeSettings.cs:152 | the updates of a batch take effect one after another, in batch order |
| `Tickers.UntrackedBatchIsNoop` | MachinaTrader/RuntimeSettings.cs:154 | a batch whose symbols are all untracked leaves the cache's keys and values identical |
| `Tickers.LastUpdateWins` | MachinaTrader/RuntimeSettings.cs:152-171 | a tracked symbol of the batch ends up cached with the prices of its last update in the batch |
| `Tickers.UntouchedKeyIsKept` | MachinaTrader/RuntimeSettings.cs:152-171 | a symbol with no tracked update in the batch keeps its presence or absence and its prices |
| `RuntimeSettings.Runtime.Valid` | MachinaTrader/RuntimeSettings.cs:32-35 | the class invariant over the shared state: distinct cached symbols hold distinct `Ticker` objects, the cache holds only symbols of `ExchangeCurrencys`, and each `Ticker` holds the prices the abstract cache records for its symbol |
| `RuntimeSettings.Runtime.constructor` | MachinaTrader/RuntimeSettings.cs:32-35 | the runtime starts with an empty cache, empty currency lists and no subscription |
| `RuntimeSettings.Runtime.LoadSettings` | MachinaTrader/RuntimeSettings.cs:108-144 | the option and gateway are resolved as `Resolve` says; `GlobalCurrencys` is its old contents followed by the new pairs; `ExchangeCurrencys` is its old contents followed by the mapping of all of `GlobalCurrencys`; starting from empty lists, both lists have the length of the base list and match element by element; the feed is subscribed exactly when the resolved option is not a simulation; the cache is unchanged |
| `RuntimeSettings.Runtime.AddGlobalCurrencies` | MachinaTrader/RuntimeSettings.cs:133-136 | the first loop appends exactly `GlobalSymbols` of the trade options |
| `RuntimeSettings.Runtime.AddExchangeCurrencies` | MachinaTrader/RuntimeSettings.cs:138-141 | the second loop appends exactly `ExchangeSymbols` of the whole `GlobalCurrencys` |
| `RuntimeSettings.Runtime.UpsertTicker` | MachinaTrader/RuntimeSettings.cs:154-171 | one update changes the cache's contents as `Upsert` says; existing entries keep their `Ticker` objects; new entries are fresh objects |
| `RuntimeSettings.Runtime.OverwriteTicker` | MachinaTrader/RuntimeSettings.cs:156-161 | overwriting the three fields of a cached entry changes that symbol's prices and no other entry |
| `RuntimeSettings.Runtime.InsertTicker` | MachinaTrader/RuntimeSettings.cs:162-170 | inserting adds exactly one fresh entry, holding the update's prices, and keeps the invariant |
| `RuntimeSettings.Runtime.OnWebsocketTickersUpdated` | MachinaTrader/RuntimeSettings.cs:150-173 | the cache after the batch is `ApplyBatch` of the cache before it; every cached symbol keeps its `Ticker` object (overwritten in place, never replaced); added entries are fresh objects; the invariant is kept |
| `RuntimeSettings.TrackedPairsExample` | MachinaTrader/RuntimeSettings.cs:133-141 | quote BTC with bases ETH and LTC tracks BTC-ETH and BTC-LTC; on an identity symbol mapping, an update for BTC-ETH is cached and one for BTC-XRP is dropped |

## Left out

- `RuntimeSettings.Init` (lines 43-106) is not modelled. It only wires foreign libraries: notification managers, the MongoDB or LiteDB stores, SignalR hub look-ups, and Quartz job and trigger scheduling with next-fire-time logging. The cron semantics live inside Quartz, whose code is not part of this model.
- `functions/Mynt.TestConsole/Program.cs` is not modelled. It is a console demonstration of SQL Server store I/O with no logic of its own.
- The assignment of the Telegram notification options (line 147) is not modelled. It copies configuration into a field that the modelled code never reads.
- `GetFullApi().Result` (line 130) is a network call. It becomes the `globalToExchangeSymbol` parameter applied to the selected gateway.
- `GetTickersWebSocket` (line 144) is a network subscription. It becomes the ghost `subscribed` flag.
- The gateway objects (`BaseExchange`, `ExchangeSimulationApi` and the exchange clients) are foreign. They are represented by the `ExchangeApi` tag. The model does not capture that `BaseExchange` keeps a reference to the option, and so sees `IsSimulation` set after the gateway is built.
- The `Exchange` enumeration's declaration is not part of this model. Its members other than the four the switch names are represented by `Other(name)`.
- `FirstOrDefault()` returning null when no exchange option is configured (line 110) is not modelled. `LoadSettings` requires at least one option.
- Concurrency is not modelled: the concurrent dictionary, the websocket callback thread, a `TryAdd` that could lose a race, and readers seeing a partly overwritten ticker. Updates are applied in sequence.
- Decimal prices are modelled as `real`. They are only copied, never computed.
- Only the `Ask`, `Bid` and `Last` fields of an exchange ticker update are modelled. They are the only fields the callback reads.
- `Currencies.ExchangeSymbols`: no round-trip, bijection or duplicate-freedom is stated for the symbol mapping, because the code neither shows nor enforces any of them.
- RuntimeSettings.Runtime.LoadSettings: the foreign calls it makes are assumed to succeed, so the model always runs to the end. In the code, any of them can throw out of the method partway and leave the state half-written. Client construction (lines 115, 120, 124) throwing leaves the rewritten `Exchange` with `IsSimulation` still at its configured value. `GetFullApi().Result` (line 130) throws on a faulted task before any list is built. `GlobalSymbolToExchangeSymbol` (line 140) throwing on element k leaves only k new symbols in `ExchangeCurrencys`. `GetTickersWebSocket` (line 144) can also throw.
