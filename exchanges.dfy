/**
 Exchange selection: the switch at the start of LoadSettings that turns a
 configured "*Simulation" exchange into the real exchange wrapped in the
 simulation decorator, and every other exchange into a live gateway.
 */
module Exchanges {

  /** The configured exchange identifier. The enumeration's other members are
      not named by the switch; they are represented by `Other`, whose `name`
      is never that of one of the four members named here. */
  datatype Exchange = Gdax | GdaxSimulation | Binance | BinanceSimulation | Other(name: string)
  {
    /** True for the identifiers the switch rewrites to a real exchange. */
    predicate IsSimulationVariant() {
      GdaxSimulation? || BinanceSimulation?
    }
  }

  /** Stands for the gateway object built by the switch: a live client of an
      exchange, or the simulation decorator around the client of an exchange. */
  datatype ExchangeApi = Live(exchange: Exchange) | Simulated(inner: Exchange)

  /** What the switch leaves behind: the option's new exchange and simulation
      flag, and the gateway it built. */
  datatype Resolution = Resolution(exchange: Exchange, isSimulation: bool, api: ExchangeApi)

  /** The outcome of the switch for a configured exchange. */
  function Resolve(e: Exchange): (r: Resolution)
    ensures r.isSimulation <==> e.IsSimulationVariant()
    ensures !r.exchange.IsSimulationVariant()
    ensures r.api == if r.isSimulation then Simulated(r.exchange) else Live(r.exchange)
    ensures e == GdaxSimulation ==> r.exchange == Gdax
    ensures e == BinanceSimulation ==> r.exchange == Binance
    ensures !e.IsSimulationVariant() ==> r.exchange == e
  {
    match e
    case GdaxSimulation => Resolution(Gdax, true, Simulated(Gdax))
    case BinanceSimulation => Resolution(Binance, true, Simulated(Binance))
    case _ => Resolution(e, false, Live(e))
  }

  /** Resolving an already resolved exchange again yields a live gateway:
      after the rewrite, the option no longer records that it was simulated. */
  lemma ReResolveIsLive(e: Exchange)
    ensures Resolve(Resolve(e).exchange) == Resolution(Resolve(e).exchange, false, Live(Resolve(e).exchange))
  {
  }

  /** The configured exchange option; the switch updates both fields in place. */
  class ExchangeOption {
    var exchange: Exchange
    var isSimulation: bool

    /** Stands for loading the option from configuration, which is not part
        of this model; it has no counterpart in the modelled code. */
    constructor (exchange: Exchange, isSimulation: bool)
      ensures this.exchange == exchange && this.isSimulation == isSimulation
    {
      this.exchange := exchange;
      this.isSimulation := isSimulation;
    }
  }

  /** The switch itself: rewrites the option and returns the gateway built for it. */
  method SelectExchange(option: ExchangeOption) returns (api: ExchangeApi)
    modifies option
    ensures Resolution(option.exchange, option.isSimulation, api) == Resolve(old(option.exchange))
  {
    match option.exchange
    case GdaxSimulation =>
      option.exchange := Gdax;
      api := Simulated(Gdax);
      option.isSimulation := true;
    case BinanceSimulation =>
      option.exchange := Binance;
      api := Simulated(Binance);
      option.isSimulation := true;
    case _ =>
      api := Live(option.exchange);
      option.isSimulation := false;
  }
}
