/** The candle state machine as functions on values: what each step of a run computes. */
module EngineSpec {
  import opened Domain
  import opened Accounting
  import opened Execution
  import opened Risk
  import opened Ledger
  import opened Regime
  import opened Strategy
  import opened CandleFeed

  datatype EquityPoint = EquityPoint(
    candleIndex: nat, time: int, close: real, cash: real, base: real,
    equity: real, peak: real, drawdown: real, drawdownPct: real)

  /** The money and the orders. */
  datatype Book = Book(portfolio: Portfolio, orders: seq<Order>, fills: seq<Fill>, ledger: Books)

  datatype State = State(
    book: Book, halt: bool, lastFill: Option<Fill>, calls: seq<Call>, equity: seq<EquityPoint>,
    history: seq<Candle>, lastCandle: Option<Candle>, seen: nat, processed: nat,
    accumulator: Option<RegimeState>, lastRegime: Option<RegimePoint>, regimes: seq<RegimePoint>,
    pending: seq<Intent>)

  // Orders

  predicate IsStop(o: Order) { o.intent.tag == StopLossTag }

  predicate OpenStop(o: Order) { o.status == Open && IsStop(o) }

  function OpenCount(orders: seq<Order>): nat {
    if orders == [] then 0
    else OpenCount(orders[..|orders| - 1]) + (if orders[|orders| - 1].status == Open then 1 else 0)
  }

  /** Which OPEN orders a cancellation sweep closes. */
  datatype Sweep = Everything | OnlyStops | KeepStops {
    predicate Hits(o: Order) {
      o.status == Open && (this == Everything || (this == OnlyStops <==> IsStop(o)))
    }
  }

  function Cancel(o: Order, t: int): Order { o.(status := Cancelled, terminalAt := Some(t), rejection := None) }

  function CancelSwept(orders: seq<Order>, sweep: Sweep, t: int): seq<Order> {
    seq(|orders|, i requires 0 <= i < |orders| => if sweep.Hits(orders[i]) then Cancel(orders[i], t) else orders[i])
  }

  function OrderLimit(cfg: Config): nat {
    if cfg.maxOrders <= cfg.limits.maxTotalOrders then cfg.maxOrders else cfg.limits.maxTotalOrders
  }

  function Opened(o: Order, t: int): Order { o.(status := Open, openedAt := Some(t)) }

  function StopOrder(quantity: Positive, price: Positive, sequence: nat, t: int, index: int): Order {
    Opened(CreateOrder(Intent(Sell, StopMarket(price), quantity, GTC, StopLossTag), sequence, t, index), t)
  }

  /** Replaces the engine's protective stop by one that fits the current position. */
  function Reconcile(cfg: Config, p: Portfolio, orders: seq<Order>, t: int, index: int): Outcome<seq<Order>> {
    var cleared := CancelSwept(orders, OnlyStops, t);
    var decision :- EvaluateStop(cfg, p);
    match decision
    case NoStop => Ok(cleared)
    case ProtectAt(quantity, price) =>
      if |cleared| >= OrderLimit(cfg) then Err(MaximumEvents)
      else if OpenCount(cleared) >= cfg.limits.maxOpenOrders then Err(MaximumEvents)
      else Ok(cleared + [StopOrder(quantity, price, |cleared| + 1, t, index)])
  }

  /** Sizes one intent, asks the risk manager, and records the order OPEN or REJECTED. */
  function Decide(cfg: Config, p: Portfolio, orders: seq<Order>, i: Intent, index: int, t: int, reference: real,
                  halt: bool): Outcome<Order>
  {
    var sizing :- Size(cfg, i, p, reference);
    var sequence := |orders| + 1;
    if sizing.quantity > 0.0 then
      var sized := i.(quantity := sizing.quantity);
      match EvaluateOrder(cfg, sized, p, reference, OpenCount(orders), |orders|, halt)
      case Accept(normalized, _) => Transition(CreateOrder(normalized, sequence, t, index), Open, t, None)
      case Reject(code, _) => Transition(CreateOrder(sized, sequence, t, index), Rejected, t, Some(code))
    else
      Transition(CreateOrder(i, sequence, t, index), Rejected, t, Some(InvalidQuantity))
  }

  function SubmitOne(cfg: Config, p: Portfolio, orders: seq<Order>, i: Intent, index: int, t: int, reference: real,
                     halt: bool): Outcome<seq<Order>>
  {
    if i.tag == StopLossTag then Err(StrategyFailure)
    else if |orders| >= cfg.maxOrders then Err(MaximumEvents)
    else
      var order :- Decide(cfg, p, orders, i, index, t, reference, halt);
      Ok(orders + [order])
  }

  function Submit(cfg: Config, p: Portfolio, orders: seq<Order>, intents: seq<Intent>, index: int, t: int,
                  reference: real, halt: bool): Outcome<seq<Order>>
  {
    if intents == [] then Ok(orders)
    else
      var before :- Submit(cfg, p, orders, intents[..|intents| - 1], index, t, reference, halt);
      SubmitOne(cfg, p, before, intents[|intents| - 1], index, t, reference, halt)
  }

  // Priorities

  /** Canonical order of two positions: engine stops first when asked, then eligibility, then age. */
  predicate Precedes(orders: seq<Order>, stopsFirst: bool, a: nat, b: nat)
    requires a < |orders| && b < |orders|
  {
    var x, y := orders[a], orders[b];
    if stopsFirst && IsStop(x) != IsStop(y) then IsStop(x)
    else if x.eligibleIndex != y.eligibleIndex then x.eligibleIndex < y.eligibleIndex
    else x.sequence <= y.sequence
  }

  predicate Within(ps: seq<nat>, n: nat) { forall i :: 0 <= i < |ps| ==> ps[i] < n }

  function InsertSorted(orders: seq<Order>, stopsFirst: bool, sorted: seq<nat>, p: nat): (r: seq<nat>)
    requires p < |orders| && Within(sorted, |orders|)
    ensures Within(r, |orders|) && |r| == |sorted| + 1
  {
    if sorted == [] || Precedes(orders, stopsFirst, sorted[|sorted| - 1], p) then sorted + [p]
    else InsertSorted(orders, stopsFirst, sorted[..|sorted| - 1], p) + [sorted[|sorted| - 1]]
  }

  /** Positions below `n` of OPEN orders that are due by `bound`, sorted by priority. */
  function DuePositions(orders: seq<Order>, stopsFirst: bool, bound: Option<int>, n: nat): (r: seq<nat>)
    requires n <= |orders|
    ensures Within(r, |orders|)
  {
    if n == 0 then []
    else
      var rest := DuePositions(orders, stopsFirst, bound, n - 1);
      if Due(orders[n - 1], bound) then InsertSorted(orders, stopsFirst, rest, n - 1) else rest
  }

  predicate Due(o: Order, bound: Option<int>) {
    o.status == Open && (bound.Some? ==> o.eligibleIndex <= bound.value)
  }

  function EligiblePositions(orders: seq<Order>, index: int): seq<nat> {
    DuePositions(orders, true, Some(index), |orders|)
  }

  function OpenOrderView(orders: seq<Order>): seq<Order> {
    var ps := DuePositions(orders, false, None, |orders|);
    seq(|ps|, i requires 0 <= i < |ps| => orders[ps[i]])
  }

  // Calling the strategy

  function View(s: State, index: int, current: Option<Candle>, history: seq<Candle>, regime: Option<RegimePoint>,
                lastFill: Option<Fill>): Context
  {
    Context(index, current, history, s.book.portfolio.View(), OpenOrderView(s.book.orders), lastFill, s.halt, regime)
  }

  datatype Called = Called(state: State, reply: Reply)

  /** Constructs the view's checks, records the call and obtains the reply. */
  function CallStrategy(env: Env, s: State, call: Call): Outcome<Called> {
    if !ValidContext(call.context) then Err(InvalidContext)
    else
      var calls := s.calls + [call];
      var reply := env.strategy.respond(calls);
      if reply.Raised? then Err(StrategyFailure) else Ok(Called(s.(calls := calls), reply))
  }

  function EventCount(s: State): nat { |s.book.orders| + |s.book.fills| + |s.book.ledger| + |s.equity| }

  function WithinEventLimit(env: Env, s: State): Outcome<State> {
    if EventCount(s) > env.cfg.maxEvents then Err(MaximumEvents) else Ok(s)
  }

  function SubmitIntents(env: Env, s: State, intents: seq<Intent>, index: int, t: int,
                         reference: real): Outcome<State> {
    var orders :- Submit(env.cfg, s.book.portfolio, s.book.orders, intents, index, t, reference, s.halt);
    WithinEventLimit(env, s.(book := s.book.(orders := orders)))
  }

  function SubmitReply(env: Env, called: Called, index: int, t: int, reference: real): Outcome<State> {
    if !called.reply.Intents? then Err(StrategyFailure)
    else SubmitIntents(env, called.state, called.reply.intents, index, t, reference)
  }

  /** Calls the strategy and submits the intents it answers with. */
  function Respond(env: Env, s: State, call: Call, index: int, t: int, reference: real): Outcome<State> {
    var called :- CallStrategy(env, s, call);
    SubmitReply(env, called, index, t, reference)
  }

  // One eligible order

  function CloseOrder(b: Book, position: nat, to: Status, t: int): Outcome<Book>
    requires position < |b.orders|
  {
    var closed :- Transition(b.orders[position], to, t, None);
    Ok(b.(orders := b.orders[position := closed]))
  }

  /** Applies a fill to the portfolio, the ledger, the order table and the protective stop. */
  function TakeFill(cfg: Config, b: Book, position: nat, f: Fill, index: int): Outcome<Book>
    requires position < |b.orders|
  {
    var m :- ApplyFill(b.portfolio, f);
    var ledger :- RecordFill(b.ledger, f, m);
    var filled :- CloseOrder(Book(m.after, b.orders, b.fills + [f], ledger), position, Filled, f.time);
    var orders :- Reconcile(cfg, m.after, filled.orders, f.time, index);
    Ok(filled.(orders := orders))
  }

  function FillContext(s: State, f: Fill): Context {
    if s.history == [] then View(s, -1, None, [], None, Some(f))
    else
      View(s, if f.candleIndex == 0 then 0 else f.candleIndex - 1, Some(s.history[|s.history| - 1]),
           s.history, s.lastRegime, Some(f))
  }

  function AfterFill(env: Env, s: State, f: Fill): Outcome<State> {
    Respond(env, s, OnFill(FillContext(s, f), f), f.candleIndex, f.time, f.price)
  }

  datatype Verdict = Leave | Expire(at: int) | Refuse | Execute(fill: Fill)

  /** What an eligible order meets at a candle. */
  function Judge(cfg: Config, b: Book, o: Order, c: Candle, index: nat): Outcome<Verdict> {
    if DayExpired(o, c) then Ok(Expire(c.openTime))
    else
      var quote :- QuoteOrder(cfg, o, c, index);
      if quote.None? then
        Ok(if o.intent.tif == IOC && index >= o.eligibleIndex then Expire(c.closeTime) else Leave)
      else
        var fill :- MakeFill(cfg, o, quote.value, c.openTime, index, |b.fills| + 1);
        if !IsStop(o) && ValidateFill(cfg, fill, b.portfolio).Some? then Ok(Refuse) else Ok(Execute(fill))
  }

  function ProcessOrder(env: Env, s: State, c: Candle, position: nat): Outcome<State> {
    if position >= |s.book.orders| then Err(MissingState)
    else
      var verdict :- Judge(env.cfg, s.book, s.book.orders[position], c, s.processed);
      match verdict
      case Leave => Ok(s)
      case Expire(at) =>
        var b :- CloseOrder(s.book, position, Expired, at);
        Ok(s.(book := b))
      case Refuse =>
        var b :- CloseOrder(s.book, position, Cancelled, c.openTime);
        Ok(s.(book := b))
      case Execute(f) =>
        var b :- TakeFill(env.cfg, s.book, position, f, s.processed);
        AfterFill(env, s.(book := b, lastFill := Some(f)), f)
  }

  function ProcessOrders(env: Env, s: State, c: Candle, positions: seq<nat>): Outcome<State> {
    if positions == [] then Ok(s)
    else
      var before :- ProcessOrders(env, s, c, positions[..|positions| - 1]);
      ProcessOrder(env, before, c, positions[|positions| - 1])
  }

  // One candle

  function PointOf(index: nat, c: Candle, p: Portfolio): EquityPoint {
    EquityPoint(index, c.closeTime, c.close, p.cash, p.base, p.equity, p.peak, p.drawdown, p.drawdownPct)
  }

  function Push(history: seq<Candle>, c: Candle, window: Count): seq<Candle> {
    var all := history + [c];
    if |all| <= window then all else all[|all| - window..]
  }

  predicate Succeeds(c: Candle, previous: Option<Candle>) {
    previous.Some? ==> previous.value.openTime < c.openTime && previous.value.identity == c.identity
  }

  function CheckCandle(c: Candle, previous: Option<Candle>): Outcome<()> {
    if !c.spot then Err(UnsupportedMarket)
    else if !c.closed then Err(SnapshotInvalid)
    else if !Succeeds(c, previous) then Err(SnapshotInvalid)
    else Ok(())
  }

  datatype Regimes = Regimes(accumulator: Option<RegimeState>, point: Option<RegimePoint>)

  function ObserveRegime(env: Env, accumulator: Option<RegimeState>, c: Candle): Outcome<Regimes> {
    if env.cfg.regime.None? || accumulator.None? then Ok(Regimes(accumulator, None))
    else
      var o :- Observe(env.R, env.cfg.regime.value, accumulator.value, c);
      Ok(Regimes(Some(o.state), Some(o.point)))
  }

  function WarmupCandle(env: Env, s: State, c: Candle, regime: Option<RegimePoint>): Outcome<State> {
    var s1 := s.(history := Push(s.history, c, env.cfg.historyWindow));
    var called :- CallStrategy(env, s1, OnWarmup(View(s1, s.seen - 1, Some(c), s1.history, regime, None), c));
    if !called.reply.Nothing? then Err(StrategyFailure) else Ok(called.state.(lastRegime := regime))
  }

  function SubmitPending(env: Env, s: State, c: Candle): Outcome<State> {
    if s.processed == 0 && s.pending != [] then SubmitIntents(env, s, s.pending, -1, c.openTime, c.open) else Ok(s)
  }

  /** Marks at the close, records the equity point and may latch the drawdown halt. */
  function CloseCandle(env: Env, s: State, c: Candle): Outcome<State> {
    var p :- MarkToMarket(s.book.portfolio, c.close);
    var ledger :- RecordMark(s.book.ledger, p, c.closeTime, s.processed, false);
    var latch := !s.halt && HaltRequired(env.cfg, p);
    var orders := if latch then CancelSwept(s.book.orders, KeepStops, c.closeTime) else s.book.orders;
    Ok(s.(book := Book(p, orders, s.book.fills, ledger), halt := s.halt || latch,
          equity := s.equity + [PointOf(s.processed, c, p)]))
  }

  function FinishCandle(env: Env, s: State, c: Candle, regime: Option<RegimePoint>): Outcome<State> {
    var s1 := s.(history := Push(s.history, c, env.cfg.historyWindow));
    var call := OnCandle(View(s1, s.processed, Some(c), s1.history, regime, s.lastFill), c);
    var s2 :- Respond(env, s1, call, s.processed, c.closeTime, c.close);
    Ok(s2.(regimes := if regime.Some? then s2.regimes + [regime.value] else s2.regimes,
           lastRegime := regime, processed := s2.processed + 1))
  }

  /** Pending start intents, then every order eligible at this candle. */
  function TradeCandle(env: Env, s: State, c: Candle): Outcome<State> {
    var s1 :- SubmitPending(env, s, c);
    ProcessOrders(env, s1, c, EligiblePositions(s1.book.orders, s1.processed))
  }

  function EvaluateCandle(env: Env, s: State, c: Candle, regime: Option<RegimePoint>): Outcome<State> {
    var s2 :- TradeCandle(env, s, c);
    var s3 :- CloseCandle(env, s2, c);
    FinishCandle(env, s3, c, regime)
  }

  function Admitted(s: State, c: Candle, accumulator: Option<RegimeState>): State {
    s.(seen := s.seen + 1, lastCandle := Some(c), accumulator := accumulator)
  }

  function StepCandle(env: Env, s: State, c: Candle): Outcome<State> {
    if s.seen >= env.cfg.maxCandles then Err(MaximumCandles)
    else
      var _ :- CheckCandle(c, s.lastCandle);
      var observed :- ObserveRegime(env, s.accumulator, c);
      var s1 := Admitted(s, c, observed.accumulator);
      if c.openTime < env.cfg.evaluationStart then WarmupCandle(env, s1, c, observed.point)
      else EvaluateCandle(env, s1, c, observed.point)
  }

  // Whole runs

  function Fresh(env: Env): State {
    var ledger := [Post([], InitialEvent(env.cfg.capital, env.cfg.evaluationStart))];
    State(Book(Initialize(env.cfg.capital), [], [], ledger), false, None, [], [], [], None, 0, 0,
          if env.cfg.regime.None? then None else Some(FRESH), None, [], [])
  }

  predicate LifecycleSupported(env: Env) {
    if env.cfg.lifecycle == 1 then env.cfg.evaluationStart <= env.cfg.contextStart else env.strategy.acceptsWarmup
  }

  function Start(env: Env): Outcome<State> {
    if !LifecycleSupported(env) then Err(StrategyFailure)
    else
      var s := Fresh(env);
      var called :- CallStrategy(env, s, OnStart(View(s, -1, None, [], None, None)));
      Ok(called.state.(pending := if called.reply.Intents? then called.reply.intents else []))
  }

  function StateAfter(env: Env, cs: seq<Candle>): Outcome<State> {
    if cs == [] then Start(env)
    else
      var before :- StateAfter(env, cs[..|cs| - 1]);
      StepCandle(env, before, cs[|cs| - 1])
  }

  function ContextRange(env: Env): DataRange { DataRange(env.cfg.contextStart, env.cfg.rangeEnd) }

  function EvaluationRange(env: Env): DataRange { DataRange(env.cfg.evaluationStart, env.cfg.rangeEnd) }

  /** The candles a run visits: those inside the context range, up to the first one past it. */
  function Visited(env: Env, cs: seq<Candle>): seq<Candle> { Read(ContextRange(env), cs) }

  function LiquidationOrder(p: Portfolio, sequence: nat, c: Candle, index: int): Order
    requires p.base > 0.0
  {
    Opened(CreateOrder(Intent(Sell, Market, p.base, IOC, OtherTag("force-close")), sequence, c.openTime, index - 1),
           c.openTime)
  }

  function LiquidationFill(cfg: Config, order: Order, c: Candle, index: nat, sequence: nat): Outcome<Fill> {
    var quote :- AdverseQuote(cfg, c.close, Sell, ForceClose);
    MakeFill(cfg, order, quote, c.closeTime, index, sequence)
  }

  /** Fills the liquidation order and marks at the last close. */
  function SettleLiquidation(cfg: Config, b: Book, order: Order, f: Fill, price: real, t: int,
                             index: int): Outcome<Book> {
    var m :- ApplyFill(b.portfolio, f);
    var ledger :- RecordFill(b.ledger, f, m);
    var closed :- Transition(order, Filled, t, None);
    var p :- MarkToMarket(m.after, price);
    var orders :- Reconcile(cfg, p, b.orders + [closed], t, index);
    Ok(Book(p, orders, b.fills + [f], ledger))
  }

  function LiquidateBook(cfg: Config, b: Book, c: Candle, index: nat): Outcome<Book>
    requires b.portfolio.base > 0.0
  {
    if |b.orders| >= OrderLimit(cfg) then Err(MaximumEvents)
    else
      var order := LiquidationOrder(b.portfolio, |b.orders| + 1, c, index);
      var fill :- LiquidationFill(cfg, order, c, index, |b.fills| + 1);
      SettleLiquidation(cfg, b, order, fill, c.close, c.closeTime, index)
  }

  /** Sells the whole position at the last close and rewrites the last equity point. */
  function Liquidate(env: Env, s: State, c: Candle): (r: Outcome<State>)
    requires s.processed > 0 && s.book.portfolio.base > 0.0
    ensures r.Ok? ==> r.value.processed == s.processed
  {
    var b :- LiquidateBook(env.cfg, s.book, c, s.processed - 1);
    if s.equity == [] || b.fills == [] then Err(MissingState)
    else
      Ok(s.(book := b, lastFill := Some(b.fills[|b.fills| - 1]),
            equity := s.equity[..|s.equity| - 1] + [PointOf(s.processed - 1, c, b.portfolio)]))
  }

  function ForceCloseIfAsked(env: Env, s: State, c: Candle): (r: Outcome<State>)
    requires s.processed > 0
    ensures r.Ok? ==> r.value.processed == s.processed
  {
    if env.cfg.forceClose && s.book.portfolio.base > 0.0 then Liquidate(env, s, c) else Ok(s)
  }

  function CancelRemaining(s: State, cancelAtEnd: bool, t: int): State {
    if cancelAtEnd then s.(book := s.book.(orders := CancelSwept(s.book.orders, Everything, t))) else s
  }

  /** Writes the final ledger state and makes the last callback. */
  function FinalRecord(env: Env, s: State, c: Candle): Outcome<State>
    requires s.processed > 0
  {
    var ledger :- RecordMark(s.book.ledger, s.book.portfolio, c.closeTime, s.processed - 1, true);
    var s1 := s.(book := s.book.(ledger := ledger));
    var called :- CallStrategy(env, s1,
      OnEnd(View(s1, s1.processed - 1, Some(c), s1.history, s1.lastRegime, s1.lastFill)));
    WithinEventLimit(env, called.state)
  }

  function Conclude(env: Env, s: State, cancelAtEnd: bool): Outcome<State> {
    if s.processed == 0 || s.lastCandle.None? then Err(SnapshotInvalid)
    else
      var c := s.lastCandle.value;
      var s1 := CancelRemaining(s, cancelAtEnd, c.closeTime);
      var s2 :- ForceCloseIfAsked(env, s1, c);
      FinalRecord(env, s2, c)
  }

  /** A run: either a named error or the final state whose tables are published. */
  function Run(env: Env, candles: seq<Candle>, cancelAtEnd: bool): Outcome<State> {
    var s :- StateAfter(env, Visited(env, candles));
    Conclude(env, s, cancelAtEnd)
  }
}
