/** The engine itself: one object stepped candle by candle, proved against the value model. */
module Engine {
  import opened Domain
  import opened Accounting
  import opened Execution
  import opened Risk
  import opened Ledger
  import opened HashChain
  import opened Regime
  import opened Strategy
  import opened CandleFeed
  import opened EngineSpec

  /** A failed prefix of submissions, orders or candles fails the whole the same way. */
  lemma {:induction false} SubmissionFails(cfg: Config, p: Portfolio, orders: seq<Order>, intents: seq<Intent>, n: nat,
                                           index: int, t: int, reference: real, halt: bool)
    requires n <= |intents| && Submit(cfg, p, orders, intents[..n], index, t, reference, halt).Err?
    ensures Submit(cfg, p, orders, intents, index, t, reference, halt)
         == Submit(cfg, p, orders, intents[..n], index, t, reference, halt)
    decreases |intents|
  {
    if n == |intents| {
      assert intents[..n] == intents;
    } else {
      var rest := intents[..|intents| - 1];
      assert rest[..n] == intents[..n];
      SubmissionFails(cfg, p, orders, rest, n, index, t, reference, halt);
    }
  }

  lemma {:induction false} ProcessingFails(env: Env, s: State, c: Candle, positions: seq<nat>, n: nat)
    requires n <= |positions| && ProcessOrders(env, s, c, positions[..n]).Err?
    ensures ProcessOrders(env, s, c, positions) == ProcessOrders(env, s, c, positions[..n])
    decreases |positions|
  {
    if n == |positions| {
      assert positions[..n] == positions;
    } else {
      var rest := positions[..|positions| - 1];
      assert rest[..n] == positions[..n];
      ProcessingFails(env, s, c, rest, n);
    }
  }

  lemma {:induction false} CandlesFail(env: Env, cs: seq<Candle>, n: nat)
    requires n <= |cs| && StateAfter(env, cs[..n]).Err?
    ensures StateAfter(env, cs) == StateAfter(env, cs[..n])
    decreases |cs|
  {
    if n == |cs| {
      assert cs[..n] == cs;
    } else {
      var rest := cs[..|cs| - 1];
      assert rest[..n] == cs[..n];
      CandlesFail(env, rest, n);
    }
  }

  class BacktestEngine {
    const env: Env
    const ledger: BacktestLedger
    const accumulator: MarketRegimeAccumulator?
    var portfolio: Portfolio
    var orders: seq<Order>
    var fills: seq<Fill>
    var equity: seq<EquityPoint>
    var halt: bool
    var lastFill: Option<Fill>
    var calls: seq<Call>
    var history: seq<Candle>
    var lastCandle: Option<Candle>
    var seen: nat
    var processed: nat
    var lastRegime: Option<RegimePoint>
    var regimes: seq<RegimePoint>
    var pending: seq<Intent>

    ghost predicate Valid()
      reads this, ledger
    {
      && ledger.Valid()
      && (env.cfg.regime.Some? <==> accumulator != null)
      && (accumulator != null ==> accumulator.R == env.R && accumulator.policy == env.cfg.regime.value)
    }

    function Book(): Book
      reads this, ledger
    {
      EngineSpec.Book(portfolio, orders, fills, ledger.Contents())
    }

    /** The whole state as a value. */
    function State(): State
      reads this, ledger, accumulator
    {
      EngineSpec.State(Book(), halt, lastFill, calls, equity, history, lastCandle, seen, processed,
                       if accumulator == null then None else Some(accumulator.State()),
                       lastRegime, regimes, pending)
    }

    constructor (env: Env, hash: HashFunction)
      ensures Valid() && State() == Fresh(env) && this.env == env
      ensures fresh(ledger) && (accumulator != null ==> fresh(accumulator)) && ledger.hash == hash
    {
      this.env := env;
      var chain := new BacktestLedger(hash);
      var _ := chain.RecordInitialCapital(env.cfg.capital, env.cfg.evaluationStart);
      ledger := chain;
      if env.cfg.regime.Some? {
        accumulator := new MarketRegimeAccumulator(env.R, env.cfg.regime.value);
      } else {
        accumulator := null;
      }
      portfolio := Initialize(env.cfg.capital);
      orders, fills, equity, halt, lastFill, calls := [], [], [], false, None, [];
      history, lastCandle, seen, processed, lastRegime, regimes, pending := [], None, 0, 0, None, [], [];
    }

    /** Closes every OPEN order the sweep names, in place. */
    method CancelOpenOrders(sweep: Sweep, t: int)
      modifies this`orders
      ensures orders == CancelSwept(old(orders), sweep, t)
    {
      var position := 0;
      while position < |orders|
        invariant 0 <= position <= |orders| == |old(orders)|
        invariant forall i :: 0 <= i < |orders| ==>
          orders[i] == if i < position && sweep.Hits(old(orders)[i]) then Cancel(old(orders)[i], t) else old(orders)[i]
      {
        if sweep.Hits(orders[position]) {
          var cancelled := Transition(orders[position], Cancelled, t, None).value;
          orders := orders[position := cancelled];
        }
        position := position + 1;
      }
    }

    /** Cancels the standing engine stop and opens one that fits the position. */
    method ReconcileStopLoss(t: int, index: int) returns (status: Outcome<()>)
      modifies this`orders
      ensures status.Ok? ==> Reconcile(env.cfg, portfolio, old(orders), t, index) == Ok(orders)
      ensures status.Err? ==> Reconcile(env.cfg, portfolio, old(orders), t, index) == Err(status.error)
    {
      CancelOpenOrders(OnlyStops, t);
      var decision :- EvaluateStop(env.cfg, portfolio);
      if decision.NoStop? {
        return Ok(());
      }
      if |orders| >= OrderLimit(env.cfg) {
        return Err(MaximumEvents);
      }
      if OpenCount(orders) >= env.cfg.limits.maxOpenOrders {
        return Err(MaximumEvents);
      }
      orders := orders + [StopOrder(decision.quantity, decision.price, |orders| + 1, t, index)];
      status := Ok(());
    }

    /** Turns intents into orders one by one, each seeing the orders before it. */
    method SubmitIntents(intents: seq<Intent>, index: int, t: int, reference: real) returns (status: Outcome<()>)
      modifies this`orders
      ensures status.Ok? ==> Submit(env.cfg, portfolio, old(orders), intents, index, t, reference, halt) == Ok(orders)
      ensures status.Err? ==>
        Submit(env.cfg, portfolio, old(orders), intents, index, t, reference, halt) == Err(status.error)
    {
      ghost var start := orders;
      var n := 0;
      while n < |intents|
        invariant 0 <= n <= |intents|
        invariant Submit(env.cfg, portfolio, start, intents[..n], index, t, reference, halt) == Ok(orders)
      {
        var intent := intents[n];
        assert intents[..n + 1][..n] == intents[..n];
        if intent.tag == StopLossTag {
          SubmissionFails(env.cfg, portfolio, start, intents, n + 1, index, t, reference, halt);
          return Err(StrategyFailure);
        }
        if |orders| >= env.cfg.maxOrders {
          SubmissionFails(env.cfg, portfolio, start, intents, n + 1, index, t, reference, halt);
          return Err(MaximumEvents);
        }
        var order := Decide(env.cfg, portfolio, orders, intent, index, t, reference, halt);
        if order.Err? {
          SubmissionFails(env.cfg, portfolio, start, intents, n + 1, index, t, reference, halt);
          return Err(order.error);
        }
        orders := orders + [order.value];
        n := n + 1;
      }
      assert intents[..n] == intents;
      status := Ok(());
    }

    /** Calls the strategy with a checked view. */
    method Ask(call: Call) returns (reply: Outcome<Reply>)
      requires Valid()
      modifies this`calls
      ensures reply.Ok? ==> CallStrategy(env, old(State()), call) == Ok(Called(State(), reply.value))
      ensures reply.Err? ==> CallStrategy(env, old(State()), call) == Err(reply.error)
    {
      if !ValidContext(call.context) {
        return Err(InvalidContext);
      }
      calls := calls + [call];
      var answer := env.strategy.respond(calls);
      if answer.Raised? {
        return Err(StrategyFailure);
      }
      reply := Ok(answer);
    }

    method CheckEventLimit() returns (status: Outcome<()>)
      requires Valid()
      ensures status.Ok? ==> WithinEventLimit(env, State()) == Ok(State())
      ensures status.Err? ==> WithinEventLimit(env, State()) == Err(status.error)
    {
      if |orders| + |fills| + |ledger.entries| + |equity| > env.cfg.maxEvents {
        return Err(MaximumEvents);
      }
      status := Ok(());
    }

    method SubmitAndCheck(intents: seq<Intent>, index: int, t: int, reference: real) returns (status: Outcome<()>)
      requires Valid()
      modifies this`orders
      ensures status.Ok? ==> EngineSpec.SubmitIntents(env, old(State()), intents, index, t, reference) == Ok(State())
      ensures status.Err? ==>
        EngineSpec.SubmitIntents(env, old(State()), intents, index, t, reference) == Err(status.error)
    {
      var _ :- SubmitIntents(intents, index, t, reference);
      status := CheckEventLimit();
    }

    method AskAndSubmit(call: Call, index: int, t: int, reference: real) returns (status: Outcome<()>)
      requires Valid()
      modifies this`calls, this`orders
      ensures status.Ok? ==> Respond(env, old(State()), call, index, t, reference) == Ok(State())
      ensures status.Err? ==> Respond(env, old(State()), call, index, t, reference) == Err(status.error)
    {
      hide CallStrategy, EngineSpec.SubmitIntents;
      var reply :- Ask(call);
      if !reply.Intents? {
        return Err(StrategyFailure);
      }
      status := SubmitAndCheck(reply.intents, index, t, reference);
    }

    /** Fills the order at `position`: portfolio, ledger, fill table, order table, protective stop. */
    method FillOrder(position: nat, f: Fill) returns (status: Outcome<()>)
      requires Valid() && position < |orders|
      modifies this`portfolio, this`orders, this`fills, this`lastFill, ledger
      ensures Valid()
      ensures status.Ok? ==> TakeFill(env.cfg, old(Book()), position, f, processed) == Ok(Book()) && lastFill == Some(f)
      ensures status.Err? ==> TakeFill(env.cfg, old(Book()), position, f, processed) == Err(status.error)
    {
      var mutation :- ApplyFill(portfolio, f);
      portfolio := mutation.after;
      var _ :- ledger.RecordFillEvents(f, mutation);
      fills := fills + [f];
      lastFill := Some(f);
      var filled :- Transition(orders[position], Filled, f.time, None);
      orders := orders[position := filled];
      status := ReconcileStopLoss(f.time, processed);
    }

    /** One order that was eligible when the candle began. */
    method ProcessEligibleOrder(c: Candle, position: nat) returns (status: Outcome<()>)
      requires Valid()
      modifies this`portfolio, this`orders, this`fills, this`lastFill, this`calls, ledger
      ensures Valid()
      ensures status.Ok? ==> ProcessOrder(env, old(State()), c, position) == Ok(State())
      ensures status.Err? ==> ProcessOrder(env, old(State()), c, position) == Err(status.error)
    {
      hide Judge, TakeFill, Respond, FillContext;
      if position >= |orders| {
        return Err(MissingState);
      }
      var order := orders[position];
      var verdict :- Judge(env.cfg, Book(), order, c, processed);
      match verdict
      case Leave =>
        status := Ok(());
      case Expire(at) =>
        var expired :- Transition(order, Expired, at, None);
        orders := orders[position := expired];
        status := Ok(());
      case Refuse =>
        var cancelled :- Transition(order, Cancelled, c.openTime, None);
        orders := orders[position := cancelled];
        status := Ok(());
      case Execute(f) =>
        var _ :- FillOrder(position, f);
        status := AskAndSubmit(OnFill(FillContext(State(), f), f), f.candleIndex, f.time, f.price);
    }

    /** Every order eligible at this candle, in the order fixed before the first is processed. */
    method ProcessEligibleOrders(c: Candle) returns (status: Outcome<()>)
      requires Valid()
      modifies this`portfolio, this`orders, this`fills, this`lastFill, this`calls, ledger
      ensures Valid()
      ensures
        var before := old(State());
        var r := ProcessOrders(env, before, c, EligiblePositions(before.book.orders, before.processed));
        (status.Ok? ==> r == Ok(State())) && (status.Err? ==> r == Err(status.error))
    {
      hide ProcessOrder, EligiblePositions;
      ghost var start := State();
      var positions := EligiblePositions(orders, processed);
      var n := 0;
      while n < |positions|
        invariant 0 <= n <= |positions|
        invariant Valid() && processed == start.processed
        invariant ProcessOrders(env, start, c, positions[..n]) == Ok(State())
      {
        assert positions[..n + 1][..n] == positions[..n];
        var step := ProcessEligibleOrder(c, positions[n]);
        if step.Err? {
          ProcessingFails(env, start, c, positions, n + 1);
          return step;
        }
        n := n + 1;
      }
      assert positions[..n] == positions;
      status := Ok(());
    }

    /** Marks at the close, records the mark and the equity point, and may latch the halt. */
    method MarkCandle(c: Candle) returns (status: Outcome<()>)
      requires Valid()
      modifies this`portfolio, this`orders, this`equity, this`halt, ledger
      ensures Valid()
      ensures status.Ok? ==> CloseCandle(env, old(State()), c) == Ok(State())
      ensures status.Err? ==> CloseCandle(env, old(State()), c) == Err(status.error)
    {
      hide MarkToMarket, RecordMark, HaltRequired, PointOf, CancelSwept, BacktestLedger.Valid,
        BacktestLedger.Contents, MarketRegimeAccumulator.State;
      var _ :- MarkPosition(c);
      equity := equity + [PointOf(processed, c, portfolio)];
      if !halt && HaltRequired(env.cfg, portfolio) {
        halt := true;
        CancelOpenOrders(KeepStops, c.closeTime);
      }
      status := Ok(());
    }

    /** Values the position at the close and posts the mark. */
    method MarkPosition(c: Candle) returns (status: Outcome<()>)
      requires Valid()
      modifies this`portfolio, ledger
      ensures Valid()
      ensures status.Ok? ==>
        && MarkToMarket(old(portfolio), c.close) == Ok(portfolio)
        && RecordMark(old(ledger.Contents()), portfolio, c.closeTime, processed, false) == Ok(ledger.Contents())
      ensures status.Err? ==>
        var p := MarkToMarket(old(portfolio), c.close);
        && (p.Err? ==> p == Err(status.error))
        && (p.Ok? ==> RecordMark(old(ledger.Contents()), p.value, c.closeTime, processed, false) == Err(status.error))
    {
      hide MarkToMarket, RecordMark, BacktestLedger.Valid, BacktestLedger.Contents;
      var marked :- MarkToMarket(portfolio, c.close);
      portfolio := marked;
      status := ledger.RecordMarkEvent(portfolio, c.closeTime, processed, false);
    }

    method CallOnCandle(c: Candle, regime: Option<RegimePoint>) returns (status: Outcome<()>)
      requires Valid()
      modifies this`history, this`calls, this`orders, this`regimes, this`lastRegime, this`processed
      ensures status.Ok? ==> FinishCandle(env, old(State()), c, regime) == Ok(State())
      ensures status.Err? ==> FinishCandle(env, old(State()), c, regime) == Err(status.error)
    {
      hide Respond, View, Push, BacktestLedger.Valid, BacktestLedger.Contents, MarketRegimeAccumulator.State;
      history := Push(history, c, env.cfg.historyWindow);
      var call := OnCandle(View(State(), processed, Some(c), history, regime, lastFill), c);
      var _ :- AskAndSubmit(call, processed, c.closeTime, c.close);
      CountCandle(regime);
      status := Ok(());
    }

    /** Publishes the candle's regime, when one was observed, and counts the candle. */
    method CountCandle(regime: Option<RegimePoint>)
      requires Valid()
      modifies this`regimes, this`lastRegime, this`processed
      ensures State() == old(State()).(
        regimes := if regime.Some? then old(regimes) + [regime.value] else old(regimes),
        lastRegime := regime, processed := old(processed) + 1)
    {
      if regime.Some? {
        regimes := regimes + [regime.value];
      }
      lastRegime := regime;
      processed := processed + 1;
    }

    method RunEvaluatedCandle(c: Candle, regime: Option<RegimePoint>) returns (status: Outcome<()>)
      requires Valid()
      modifies this, ledger
      ensures Valid()
      ensures status.Ok? ==> EvaluateCandle(env, old(State()), c, regime) == Ok(State())
      ensures status.Err? ==> EvaluateCandle(env, old(State()), c, regime) == Err(status.error)
    {
      hide CloseCandle, FinishCandle, ProcessOrders, EligiblePositions, EngineSpec.SubmitIntents;
      hide BacktestLedger.Valid, BacktestLedger.Contents, MarketRegimeAccumulator.State;
      if processed == 0 && pending != [] {
        var _ :- SubmitAndCheck(pending, -1, c.openTime, c.open);
      }
      var _ :- ProcessEligibleOrders(c);
      var _ :- MarkCandle(c);
      status := CallOnCandle(c, regime);
    }

    method RunWarmupCandle(c: Candle, regime: Option<RegimePoint>) returns (status: Outcome<()>)
      requires Valid()
      modifies this
      ensures Valid()
      ensures status.Ok? ==> WarmupCandle(env, old(State()), c, regime) == Ok(State())
      ensures status.Err? ==> WarmupCandle(env, old(State()), c, regime) == Err(status.error)
    {
      hide CallStrategy, View, Push;
      history := Push(history, c, env.cfg.historyWindow);
      var reply :- Ask(OnWarmup(View(State(), seen - 1, Some(c), history, regime, None), c));
      if !reply.Nothing? {
        return Err(StrategyFailure);
      }
      lastRegime := regime;
      status := Ok(());
    }

    /** One candle of the context range. */
    method RunCandle(c: Candle) returns (status: Outcome<()>)
      requires Valid()
      modifies this, ledger, accumulator
      ensures Valid()
      ensures status.Ok? ==> StepCandle(env, old(State()), c) == Ok(State())
      ensures status.Err? ==> StepCandle(env, old(State()), c) == Err(status.error)
    {
      hide EvaluateCandle, WarmupCandle, Observe;
      if seen >= env.cfg.maxCandles {
        return Err(MaximumCandles);
      }
      var _ :- CheckCandle(c, lastCandle);
      var regime := None;
      if accumulator != null {
        var point :- accumulator.Update(c);
        regime := Some(point);
      }
      seen := seen + 1;
      lastCandle := Some(c);
      if c.openTime < env.cfg.evaluationStart {
        status := RunWarmupCandle(c, regime);
      } else {
        status := RunEvaluatedCandle(c, regime);
      }
    }

    method CallOnStart() returns (status: Outcome<()>)
      requires Valid() && State() == Fresh(env)
      modifies this`calls, this`pending
      ensures status.Ok? ==> Start(env) == Ok(State())
      ensures status.Err? ==> Start(env) == Err(status.error)
    {
      if !LifecycleSupported(env) {
        return Err(StrategyFailure);
      }
      var reply :- Ask(OnStart(View(State(), -1, None, [], None, None)));
      pending := if reply.Intents? then reply.intents else [];
      status := Ok(());
    }

    /** Books the liquidation fill, marks at the last close and drops the engine stop. */
    method SettleLiquidationFill(order: Order, f: Fill, c: Candle, index: nat) returns (status: Outcome<()>)
      requires Valid()
      modifies this`portfolio, this`orders, this`fills, ledger
      ensures Valid()
      ensures status.Ok? ==>
        SettleLiquidation(env.cfg, old(Book()), order, f, c.close, c.closeTime, index) == Ok(Book())
      ensures status.Ok? ==> fills == old(fills) + [f]
      ensures status.Err? ==>
        SettleLiquidation(env.cfg, old(Book()), order, f, c.close, c.closeTime, index) == Err(status.error)
    {
      hide ApplyFill, RecordFill, MarkToMarket, Reconcile;
      var mutation :- ApplyFill(portfolio, f);
      var _ :- ledger.RecordFillEvents(f, mutation);
      var closed :- Transition(order, Filled, c.closeTime, None);
      var marked :- MarkToMarket(mutation.after, c.close);
      portfolio := marked;
      orders := orders + [closed];
      fills := fills + [f];
      status := ReconcileStopLoss(c.closeTime, index);
    }

    /** Sells the whole position at the last close. */
    method ForceClosePosition(c: Candle) returns (status: Outcome<()>)
      requires Valid() && processed > 0 && portfolio.base > 0.0
      modifies this`portfolio, this`orders, this`fills, this`lastFill, this`equity, ledger
      ensures Valid()
      ensures status.Ok? ==> Liquidate(env, old(State()), c) == Ok(State())
      ensures status.Err? ==> Liquidate(env, old(State()), c) == Err(status.error)
    {
      hide SettleLiquidation, LiquidationFill, LiquidationOrder, PointOf;
      if |orders| >= OrderLimit(env.cfg) {
        return Err(MaximumEvents);
      }
      var index := processed - 1;
      var order := LiquidationOrder(portfolio, |orders| + 1, c, index);
      var fill :- LiquidationFill(env.cfg, order, c, index, |fills| + 1);
      var _ :- SettleLiquidationFill(order, fill, c, index);
      if equity == [] {
        return Err(MissingState);
      }
      lastFill := Some(fill);
      equity := equity[..|equity| - 1] + [PointOf(index, c, portfolio)];
      status := Ok(());
    }

    method ConcludeRun(cancelAtEnd: bool) returns (status: Outcome<()>)
      requires Valid()
      modifies this, ledger
      ensures Valid()
      ensures status.Ok? ==> Conclude(env, old(State()), cancelAtEnd) == Ok(State())
      ensures status.Err? ==> Conclude(env, old(State()), cancelAtEnd) == Err(status.error)
    {
      hide Liquidate, FinalRecord, CancelSwept;
      if processed == 0 || lastCandle.None? {
        return Err(SnapshotInvalid);
      }
      var c := lastCandle.value;
      if cancelAtEnd {
        CancelOpenOrders(Everything, c.closeTime);
      }
      if env.cfg.forceClose && portfolio.base > 0.0 {
        var _ :- ForceClosePosition(c);
      }
      status := RecordFinalState(c);
    }

    /** The final ledger state and the last callback. */
    method RecordFinalState(c: Candle) returns (status: Outcome<()>)
      requires Valid() && processed > 0
      modifies this`calls, ledger
      ensures Valid()
      ensures status.Ok? ==> FinalRecord(env, old(State()), c) == Ok(State())
      ensures status.Err? ==> FinalRecord(env, old(State()), c) == Err(status.error)
    {
      hide CallStrategy, View, RecordMark;
      var _ :- ledger.RecordMarkEvent(portfolio, c.closeTime, processed - 1, true);
      var _ :- Ask(OnEnd(View(State(), processed - 1, Some(c), history, lastRegime, lastFill)));
      status := CheckEventLimit();
    }

    /** Runs the strategy over the candles of the context range, then concludes. */
    method RunAll(candles: seq<Candle>, cancelAtEnd: bool) returns (r: Outcome<EngineSpec.State>)
      requires Valid() && State() == Fresh(env)
      modifies this, ledger, accumulator
      ensures Valid()
      ensures r == Run(env, candles, cancelAtEnd)
      ensures r.Ok? ==> r.value == State()
    {
      hide StepCandle, Start, Conclude;
      var started := CallOnStart();
      if started.Err? {
        assert Visited(env, candles)[..0] == [];
        CandlesFail(env, Visited(env, candles), 0);
        return Err(started.error);
      }
      var n := 0;
      while n < |candles|
        invariant 0 <= n <= |candles|
        invariant Valid()
        invariant forall i :: 0 <= i < n ==> !Stops(ContextRange(env), candles[i])
        invariant StateAfter(env, Visited(env, candles[..n])) == Ok(State())
      {
        var c := candles[n];
        ReadOne(ContextRange(env), candles, n);
        if c.openTime < env.cfg.contextStart {
          assert Visited(env, candles[..n + 1]) == Visited(env, candles[..n]);
          n := n + 1;
          continue;
        }
        if c.openTime >= env.cfg.rangeEnd {
          break;
        }
        ghost var visited := Visited(env, candles[..n]) + [c];
        assert visited[..|visited| - 1] == Visited(env, candles[..n]);
        var step := RunCandle(c);
        if step.Err? {
          ReadSplit(ContextRange(env), candles, n + 1);
          assert Visited(env, candles)[..|visited|] == visited;
          CandlesFail(env, Visited(env, candles), |visited|);
          return Err(step.error);
        }
        n := n + 1;
      }
      if n == |candles| { assert candles[..n] == candles; }
      assert StateAfter(env, Visited(env, candles)) == Ok(State());
      var concluded := ConcludeRun(cancelAtEnd);
      if concluded.Err? {
        return Err(concluded.error);
      }
      r := Ok(State());
    }
  }
}
