/** The strategy boundary: bounded read-only views and the callback protocol. */
module Strategy {
  import opened Domain
  import opened Accounting
  import opened Indicators
  import opened Regime

  datatype Context = Context(
    index: int, current: Option<Candle>, history: seq<Candle>, portfolio: Portfolio,
    openOrders: seq<Order>, lastFill: Option<Fill>, halt: bool, regime: Option<RegimePoint>)

  predicate StrictlyOrdered(cs: seq<Candle>) {
    forall i, j :: 0 <= i < j < |cs| ==> cs[i].openTime < cs[j].openTime
  }

  predicate AllOpen(orders: seq<Order>) { forall i :: 0 <= i < |orders| ==> orders[i].status == Open }

  /** The contract every view is checked against when it is constructed. */
  predicate ValidContext(c: Context) {
    && -1 <= c.index
    && (c.current.None? ==> c.index == -1 && c.history == [] && c.regime.None?)
    && (c.current.Some? ==>
          && 0 <= c.index && c.history != [] && c.history[|c.history| - 1] == c.current.value
          && StrictlyOrdered(c.history)
          && AllOpen(c.openOrders)
          && (c.regime.Some? ==> c.regime.value.Valid() && c.regime.value.time == c.current.value.closeTime))
  }

  datatype Call =
    | OnStart(context: Context)
    | OnWarmup(context: Context, candle: Candle)
    | OnFill(context: Context, fill: Fill)
    | OnCandle(context: Context, candle: Candle)
    | OnEnd(context: Context)

  datatype Reply = Nothing | Intents(intents: seq<Intent>) | Raised

  /** A deterministic strategy. Its private state can only be a function of the calls it has
      received, so it answers from the whole sequence of calls, the last one included. */
  datatype Strategy = Strategy(respond: seq<Call> -> Reply, acceptsWarmup: bool)

  /** What a run is parameterized by. */
  datatype Env = Env(cfg: Config, strategy: Strategy, R: Arithmetic)
}
