/** The main results about whole runs, for every strategy, configuration and candle sequence. */
module RunTheorems {
  import opened Domain
  import opened RealArithmetic
  import opened Accounting
  import opened Execution
  import opened Risk
  import opened Ledger
  import opened Regime
  import opened Strategy
  import opened EngineSpec
  import opened OrderTable
  import opened BookInvariant
  import opened RunInvariant
  import opened RunSafety
  import opened RunConclusion

  /** A run never stops because its own components disagree, and what it publishes is sound. */
  lemma {:induction false} RunsNeverAccuseTheirBooks(env: Env, candles: seq<Candle>, cancelAtEnd: bool)
    ensures Run(env, candles, cancelAtEnd).Err? ==> !Run(env, candles, cancelAtEnd).error.AccusesOwnBooks()
    ensures Run(env, candles, cancelAtEnd).Ok? ==>
      && FinalInv(env, Run(env, candles, cancelAtEnd).value, cancelAtEnd)
      && StateAfter(env, Visited(env, candles)).Ok?
      && Concludes(StateAfter(env, Visited(env, candles)).value, Run(env, candles, cancelAtEnd).value)
  {
    EveryStateIsSound(env, Visited(env, candles));
    var s := StateAfter(env, Visited(env, candles));
    if s.Ok? { ConcludeKeeps(env, s.value, cancelAtEnd); }
  }

  /** The errors a run can stop with: the strategy's, the data's, a limit's or a price's. */
  lemma {:induction false} RunErrorsAreOutside(env: Env, candles: seq<Candle>, cancelAtEnd: bool)
    requires Run(env, candles, cancelAtEnd).Err?
    ensures var e := Run(env, candles, cancelAtEnd).error;
      && !e.InsufficientCash? && !e.InsufficientPosition? && !e.InvalidPortfolio? && !e.LedgerNegative?
      && !e.LedgerDivergence? && !e.IllegalTransition? && !e.InvalidContext? && !e.MissingState?
  {
    hide Run;
    RunsNeverAccuseTheirBooks(env, candles, cancelAtEnd);
  }

  /** After every candle, a position is covered by exactly one OPEN engine stop for its whole
      quantity at the tick floor of average entry times one minus the percentage; a flat book has
      none. */
  lemma {:induction false} OneStopPerPosition(env: Env, cs: seq<Candle>)
    requires StateAfter(env, cs).Ok?
    ensures var b := StateAfter(env, cs).value.book;
      && (env.cfg.limits.stop == StopDisabled || b.portfolio.base == 0.0 ==>
            forall i :: 0 <= i < |b.orders| ==> !OpenStop(b.orders[i]))
      && (env.cfg.limits.stop.FixedPercent? && b.portfolio.base != 0.0 ==>
            exists i :: 0 <= i < |b.orders| && OpenStop(b.orders[i])
              && (forall j :: 0 <= j < |b.orders| && OpenStop(b.orders[j]) ==> j == i)
              && b.orders[i].intent.side == Sell
              && b.orders[i].intent.quantity == b.portfolio.base
              && b.orders[i].intent.kind.StopMarket?
              && TickFloor(env.cfg, b.orders[i].intent.kind.stop, b.portfolio.average))
  {
    EveryStateIsSound(env, cs);
    var b := StateAfter(env, cs).value.book;
    if env.cfg.limits.stop.FixedPercent? && b.portfolio.base != 0.0 {
      StopPriceIsTickFloor(env.cfg, b.portfolio.average);
      var i :| 0 <= i < |b.orders| && OpenStop(b.orders[i]);
      assert FitsPosition(env.cfg, b.orders[i], b.portfolio);
    }
  }

  /** In every finished run an engine-stop fill is the first fill of its candle, sells, and leaves
      the position at zero. */
  lemma {:induction false} StopFillsOpenTheirCandle(env: Env, candles: seq<Candle>, cancelAtEnd: bool, j: nat)
    requires Run(env, candles, cancelAtEnd).Ok?
    requires var b := Run(env, candles, cancelAtEnd).value.book;
      j < |b.fills| && 1 <= b.fills[j].orderId <= |b.orders| && IsStop(b.orders[b.fills[j].orderId - 1])
    ensures var fills := Run(env, candles, cancelAtEnd).value.book.fills;
      && fills[j].side == Sell
      && Held(fills[..j + 1]) == 0.0
      && (forall i :: 0 <= i < j ==> fills[i].candleIndex < fills[j].candleIndex)
  {
    hide Run, StateAfter, Visited, Concludes, PortfolioInv, Records, OpenBounded, Punctual, Protected;
    RunsNeverAccuseTheirBooks(env, candles, cancelAtEnd);
    var s := Run(env, candles, cancelAtEnd).value;
    var b := s.book;
    assert FillOk(env.cfg, b.orders, b.fills, j);
    var o := b.orders[b.fills[j].orderId - 1];
    assert OrderShape(env.cfg, o, b.fills[j].orderId - 1, s.processed - 1);
    if j > 0 {
      forall i | 0 <= i < j ensures b.fills[i].candleIndex < b.fills[j].candleIndex {
        FillIndexesRise(env.cfg, b.orders, b.fills, i, j - 1);
      }
    }
  }

  lemma {:induction false} FillIndexesRise(cfg: Config, orders: seq<Order>, fills: seq<Fill>, i: nat, j: nat)
    requires i <= j < |fills| && FillsOk(cfg, orders, fills)
    ensures fills[i].candleIndex <= fills[j].candleIndex
    decreases j - i
  {
    if i < j {
      FillIndexesRise(cfg, orders, fills, i, j - 1);
      assert FillOk(cfg, orders, fills, j);
    }
  }

  /** Once the drawdown halt is latched it stays latched, no BUY fills again, and at most one more
      fill occurs in the rest of the run: a SELL of the whole position. */
  lemma {:induction false} HaltAllowsOnlyTheExit(env: Env, candles: seq<Candle>, cancelAtEnd: bool, k: nat)
    requires k <= |Visited(env, candles)| && Run(env, candles, cancelAtEnd).Ok?
    requires StateAfter(env, Visited(env, candles)[..k]).Ok? ==> StateAfter(env, Visited(env, candles)[..k]).value.halt
    ensures StateAfter(env, Visited(env, candles)[..k]).Ok?
    ensures var s, f := StateAfter(env, Visited(env, candles)[..k]).value, Run(env, candles, cancelAtEnd).value;
      && f.halt
      && s.book.fills <= f.book.fills && |f.book.fills| <= |s.book.fills| + 1
      && (forall j :: |s.book.fills| <= j < |f.book.fills| ==>
            f.book.fills[j].side == Sell && f.book.fills[j].quantity == s.book.portfolio.base
              && f.book.portfolio.base == 0.0)
  {
    hide Run, StateAfter, Visited, FinalInv, Evolves;
    var cs := Visited(env, candles);
    RunsNeverAccuseTheirBooks(env, candles, cancelAtEnd);
    RunsOnlyExtend(env, cs, k);
    GrowsTransitive(StateAfter(env, cs[..k]).value, StateAfter(env, cs).value, Run(env, candles, cancelAtEnd).value);
  }

  /** The fill answers one FILLED order of equal side and quantity, after its creation candle and, for
      DAY orders, no later than its creation day. */
  predicate Answers(f: Fill, orders: seq<Order>) {
    && 1 <= f.orderId <= |orders|
    && var o := orders[f.orderId - 1];
    && o.status == Filled && o.intent.side == f.side && o.intent.quantity == f.quantity
    && f.candleIndex >= o.createdIndex + 1 && o.terminalAt == Some(f.time) && OnItsDay(o, f.time)
  }

  lemma {:induction false} FillsAnswerOrders(cfg: Config, orders: seq<Order>, fills: seq<Fill>)
    requires FillsOk(cfg, orders, fills)
    ensures forall j :: 0 <= j < |fills| ==> Answers(fills[j], orders)
  {
    forall j | 0 <= j < |fills| ensures Answers(fills[j], orders) { assert FillOk(cfg, orders, fills, j); }
  }

  /** After the first `k` candles no MARKET or IOC order that was due is OPEN, and the OPEN count is
      bounded. */
  predicate InStep(env: Env, cs: seq<Candle>, k: nat)
    requires k <= |cs|
  {
    var r := StateAfter(env, cs[..k]);
    r.Ok? && Punctual(r.value.book.orders, r.value.processed)
    && OpenCount(r.value.book.orders) <= env.cfg.limits.maxOpenOrders
  }

  lemma {:induction false} EveryPrefixIsInStep(env: Env, cs: seq<Candle>, k: nat)
    requires k <= |cs| && StateAfter(env, cs).Ok?
    ensures InStep(env, cs, k)
  {
    hide StateAfter, Extends, Punctual, OpenCount;
    RunsOnlyExtend(env, cs, k);
    EveryStateIsSound(env, cs[..k]);
  }

  /** The order lifecycle of a finished run: fills and FILLED orders are one-to-one with equal side
      and quantity, none is early, after every candle none of the immediate orders lingers and the
      OPEN count is bounded, and every order is terminal when open orders are cancelled at the end. */
  lemma {:induction false} OrdersLiveTheirLifecycle(env: Env, candles: seq<Candle>, cancelAtEnd: bool)
    requires Run(env, candles, cancelAtEnd).Ok?
    ensures
      var s := Run(env, candles, cancelAtEnd).value;
      var orders, fills := s.book.orders, s.book.fills;
      && (forall j :: 0 <= j < |fills| ==> Answers(fills[j], orders))
      && OneFillPerOrder(fills) && FilledHaveFills(orders, fills)
      && Punctual(orders, s.processed)
      && OpenCount(orders) <= env.cfg.limits.maxOpenOrders
      && (cancelAtEnd ==> AllTerminal(orders))
    ensures forall k :: 0 <= k <= |Visited(env, candles)| ==> InStep(env, Visited(env, candles), k)
  {
    hide StateAfter, Visited, Conclude, InStep;
    RunsNeverAccuseTheirBooks(env, candles, cancelAtEnd);
    var b := Run(env, candles, cancelAtEnd).value.book;
    FillsAnswerOrders(env.cfg, b.orders, b.fills);
    forall k | 0 <= k <= |Visited(env, candles)| ensures InStep(env, Visited(env, candles), k) {
      EveryPrefixIsInStep(env, Visited(env, candles), k);
    }
  }

  /** Conservation, in every state between candles: money is conserved, the mark splits into
      realized and unrealized profit, and the ledger's sums are the portfolio's balances. */
  lemma {:induction false} MoneyIsConserved(env: Env, cs: seq<Candle>)
    requires StateAfter(env, cs).Ok?
    ensures var b := StateAfter(env, cs).value.book;
      ConservesMoney(env.cfg, b.portfolio, b.ledger)
  {
    EveryStateIsSound(env, cs);
    BalancesAreSums(StateAfter(env, cs).value.book.ledger);
  }

  predicate ConservesMoney(cfg: Config, p: Portfolio, ledger: Books) {
    && p.cash + p.cost == cfg.capital + p.realized
    && p.equity - cfg.capital == p.realized + p.unrealized
    && TotalQuote(ledger) == p.cash && TotalBase(ledger) == p.base
    && TotalFees(ledger) == p.fees && TotalRealized(ledger) == p.realized
  }

  lemma {:induction false} FinalMoneyIsConserved(env: Env, candles: seq<Candle>, cancelAtEnd: bool)
    requires Run(env, candles, cancelAtEnd).Ok?
    ensures var b := Run(env, candles, cancelAtEnd).value.book;
      ConservesMoney(env.cfg, b.portfolio, b.ledger)
  {
    RunsNeverAccuseTheirBooks(env, candles, cancelAtEnd);
    BalancesAreSums(Run(env, candles, cancelAtEnd).value.book.ledger);
  }

  /** The position is what the fills add up to, a nonnegative whole number of steps. */
  predicate PositionOnGrid(cfg: Config, b: Book) {
    0.0 <= b.portfolio.base == Held(b.fills) && OnGrid(b.portfolio.base, cfg.constraints.step)
  }

  lemma {:induction false} EveryPositionOnGrid(env: Env, cs: seq<Candle>, k: nat)
    requires k <= |cs| && StateAfter(env, cs).Ok?
    ensures StateAfter(env, cs[..k]).Ok? && PositionOnGrid(env.cfg, StateAfter(env, cs[..k]).value.book)
  {
    hide StateAfter, Extends, CallsOk, HistoryOk, Punctual, Records, OrdersShaped, FillsMatch, Protected, OnGrid, Held;
    RunsOnlyExtend(env, cs, k);
    EveryStateIsSound(env, cs[..k]);
  }

  lemma {:induction false} FinalPositionOnGrid(env: Env, f: State, cancelAtEnd: bool)
    requires FinalInv(env, f, cancelAtEnd)
    ensures PositionOnGrid(env.cfg, f.book)
  {}

  /** Exposure over a whole run: no ledger posting ever leaves cash below the floor, the position is
      a nonnegative whole number of steps after every candle and at the end, and every BUY left the
      position within its limit at its own execution price. */
  lemma {:induction false} ExposureIsBounded(env: Env, candles: seq<Candle>, cancelAtEnd: bool, i: nat, j: nat)
    requires Run(env, candles, cancelAtEnd).Ok?
    ensures
      var b := Run(env, candles, cancelAtEnd).value.book;
      var limit := env.cfg.limits.maxPositionNotional;
      && (i < |b.ledger| ==> CashFloor(env.cfg) <= b.ledger[i].quoteBalance)
      && CashFloor(env.cfg) <= b.portfolio.cash
      && PositionOnGrid(env.cfg, b)
      && (j < |b.fills| && b.fills[j].side == Buy && limit.Some? ==>
            Held(b.fills[..j + 1]) * b.fills[j].price <= limit.value)
    ensures forall k: nat :: k <= |Visited(env, candles)| ==>
      var r := StateAfter(env, Visited(env, candles)[..k]); r.Ok? && PositionOnGrid(env.cfg, r.value.book)
  {
    hide StateAfter, Visited, Conclude, Concludes, PositionOnGrid;
    forall k: nat | k <= |Visited(env, candles)|
      ensures var r := StateAfter(env, Visited(env, candles)[..k]); r.Ok? && PositionOnGrid(env.cfg, r.value.book)
    {
      EveryPositionOnGrid(env, Visited(env, candles), k);
    }
    assert PositionOnGrid(env.cfg, Run(env, candles, cancelAtEnd).value.book) by {
      RunsNeverAccuseTheirBooks(env, candles, cancelAtEnd);
      FinalPositionOnGrid(env, Run(env, candles, cancelAtEnd).value, cancelAtEnd);
    }
    RunsNeverAccuseTheirBooks(env, candles, cancelAtEnd);
    var b := Run(env, candles, cancelAtEnd).value.book;
    if j < |b.fills| { assert FillOk(env.cfg, b.orders, b.fills, j); }
  }

  // Liveness

  lemma {:induction false} FinishSubmits(env: Env, s: State, c: Candle, regime: Option<RegimePoint>)
    requires TradingInv(env, s, c) && FinishCandle(env, s, c, regime).Ok?
    ensures Submitted(s.book.orders, FinishCandle(env, s, c, regime).value.book.orders, s.processed, s.halt)
  {
    hide BookInv, CallsOk, HistoryOk, Push, View, ValidContext, EngineSpec.Submit;
    var s1 := s.(history := Push(s.history, c, env.cfg.historyWindow));
    var call := OnCandle(View(s1, s.processed, Some(c), s1.history, regime, s.lastFill), c);
    var called := CallStrategy(env, s1, call).value;
    SubmitIntentsKeeps(env, called.state, called.reply.intents, s.processed, c.closeTime, c.close);
  }

  /** Closing orders and appending later ones leaves nothing tradable behind. */
  lemma {:induction false} StaysExhausted(a: seq<Order>, b: seq<Order>, d: seq<Order>, c: Candle, index: nat,
                                          halt: bool, cfg: Config)
    requires Exhausted(a, c, index) && Evolves(a, b) && |a| == |b| && Submitted(b, d, index, halt)
      && OrdersShaped(cfg, d, index)
    ensures Exhausted(d, c, index)
  {
    hide Lingers;
    forall i: nat | i < |d| && d[i].status == Open && d[i].eligibleIndex <= index ensures Lingers(d[i], c) {
      assert OrderShape(cfg, d[i], i, index);
      assert i < |b| && d[i] == b[i] && OrderEvolves(a[i], b[i]);
    }
  }

  lemma {:induction false} EvaluationExhausts(env: Env, s: State, c: Candle, regime: Option<RegimePoint>)
    requires CandleReady(env, s, c) && RegimeFits(regime, c) && env.cfg.evaluationStart <= c.openTime
    requires EvaluateCandle(env, s, c, regime).Ok?
    ensures Exhausted(EvaluateCandle(env, s, c, regime).value.book.orders, c, s.processed)
  {
    hide TradeCandle, FinishCandle, CallsOk, HistoryOk, Punctual, AccumulatorOk, Exhausted, Submitted, PortfolioInv,
      Records, FillsMatch, Protected, MarkToMarket, RecordMark, HaltRequired, OrdersShaped;
    TradeCandleKeeps(env, s, c);
    var s2 := TradeCandle(env, s, c).value;
    CloseCandleKeeps(env, s2, c);
    var s3 := CloseCandle(env, s2, c).value;
    FinishSubmits(env, s3, c, regime);
    FinishCandleKeeps(env, s3, c, regime);
    var s4 := FinishCandle(env, s3, c, regime).value;
    StaysExhausted(s2.book.orders, s3.book.orders, s4.book.orders, c, s.processed, s3.halt, env.cfg);
  }

  /** Nothing tradable is left: after an evaluated candle no order that was due is still OPEN if that
      candle traded at a price that meets it, and no MARKET or IOC order that was due is OPEN at all. */
  lemma {:induction false} NothingTradableIsLeft(env: Env, cs: seq<Candle>)
    requires cs != [] && cs[|cs| - 1].openTime >= env.cfg.evaluationStart && StateAfter(env, cs).Ok?
    ensures var s := StateAfter(env, cs).value;
      Exhausted(s.book.orders, cs[|cs| - 1], s.processed - 1)
  {
    hide EvaluateCandle, BookInv, CallsOk, HistoryOk, Punctual, Exhausted, Observe;
    var rest, c := cs[..|cs| - 1], cs[|cs| - 1];
    EveryStateIsSound(env, rest);
    var s := StateAfter(env, rest).value;
    ObserveRegimeFits(env, s.accumulator, c);
    var observed := ObserveRegime(env, s.accumulator, c).value;
    AdmitKeeps(env, s, c, observed.accumulator);
    var s1 := Admitted(s, c, observed.accumulator);
    EvaluationExhausts(env, s1, c, observed.point);
    EvaluateCandleKeeps(env, s1, c, observed.point);
  }

  /** Every order that is OPEN between candles, the engine's stop aside, is a whole number of steps no
      smaller than the minimum with its trigger on a tick. */
  lemma {:induction false} OpenOrdersArePlaceable(env: Env, cs: seq<Candle>, i: nat)
    requires StateAfter(env, cs).Ok? && i < |StateAfter(env, cs).value.book.orders|
    ensures var o := StateAfter(env, cs).value.book.orders[i];
      o.status == Open && !IsStop(o) ==>
        OnGrid(o.intent.quantity, env.cfg.constraints.step) && Placeable(env.cfg, o.intent)
  {
    hide StateAfter, OnGrid, Placeable;
    EveryStateIsSound(env, cs);
    var s := StateAfter(env, cs).value;
    assert OrderShape(env.cfg, s.book.orders[i], i, s.processed - 1);
  }

  /** Every fill of a finished run keeps the notional limits, engine stops and the forced close aside. */
  lemma {:induction false} FillsKeepLimits(env: Env, candles: seq<Candle>, cancelAtEnd: bool, j: nat)
    requires Run(env, candles, cancelAtEnd).Ok? && j < |Run(env, candles, cancelAtEnd).value.book.fills|
    ensures var b := Run(env, candles, cancelAtEnd).value.book;
      && Answers(b.fills[j], b.orders)
      && (IsStop(b.orders[b.fills[j].orderId - 1]) || b.fills[j].reason == ForceClose
        || WithinLimits(env.cfg, b.fills[j].notional))
  {
    hide Run, StateAfter, Visited, Concludes, Held;
    RunsNeverAccuseTheirBooks(env, candles, cancelAtEnd);
    var b := Run(env, candles, cancelAtEnd).value.book;
    assert FillOk(env.cfg, b.orders, b.fills, j);
  }

  /** The view shows history up to the candle, OPEN orders and the regime observed at its close. */
  predicate HonestView(x: Context, current: Candle) {
    && 0 <= x.index && x.history != [] && x.history[|x.history| - 1] == current
    && (forall i, j :: 0 <= i < j < |x.history| ==> x.history[i].openTime < x.history[j].openTime)
    && (forall i :: 0 <= i < |x.openOrders| ==> x.openOrders[i].status == Open)
    && (x.regime.Some? ==> x.regime.value.time == current.closeTime)
  }

  /** Every view a finished run handed to its strategy met the view contract: its history ascends to the
      current candle, its orders are OPEN and its regime is that candle's. A fill callback saw only candles
      that opened before the fill. */
  lemma {:induction false} EveryViewIsHonest(env: Env, candles: seq<Candle>, cancelAtEnd: bool, i: nat)
    requires Run(env, candles, cancelAtEnd).Ok? && i < |Run(env, candles, cancelAtEnd).value.calls|
    ensures var call := Run(env, candles, cancelAtEnd).value.calls[i];
      && ValidContext(call.context)
      && (call.context.current.Some? ==> HonestView(call.context, call.context.current.value))
      && (call.context.current.None? ==> call.context.history == [] && call.context.index == -1)
      && (call.OnFill? ==> forall k :: 0 <= k < |call.context.history| ==>
        call.context.history[k].openTime < call.fill.time)
  {
    hide Run, StateAfter, Visited, BookSound;
    RunsNeverAccuseTheirBooks(env, candles, cancelAtEnd);
    assert CallOk(Run(env, candles, cancelAtEnd).value.calls[i]);
  }

  // Bounded stop loss

  lemma {:induction false} StopProceeds(base: real, stop: real, slip: real, rate: real, average: real, price: real,
                                        notional: real, fee: real)
    requires price == stop * (1.0 - slip) && notional == base * price && fee == notional * rate
    ensures notional - fee - average * base == base * (stop * (1.0 - slip) * (1.0 - rate) - average)
  {
    assert notional - fee == notional * (1.0 - rate);
    assert notional * (1.0 - rate) == base * (stop * (1.0 - slip) * (1.0 - rate));
  }

  lemma {:induction false} ScalingDown(low: real, high: real, slip: real, rate: real, average: real, base: real)
    requires low < high && 0.0 <= slip < 1.0 && 0.0 <= rate < 1.0 && 0.0 < base
    ensures base * (low * (1.0 - slip) * (1.0 - rate) - average) < base * (high * (1.0 - slip) * (1.0 - rate) - average)
  {
    var keepSlip, keepFee := 1.0 - slip, 1.0 - rate;
    var lowPaid, highPaid := low * keepSlip, high * keepSlip;
    ProductMonotone(low, high, keepSlip);
    var lowNet, highNet := lowPaid * keepFee, highPaid * keepFee;
    ProductMonotone(lowPaid, highPaid, keepFee);
    var lowGain, highGain := lowNet - average, highNet - average;
    ProductMonotone(lowGain, highGain, base);
    assert base * lowGain < base * highGain;
  }

  /** The loss a fixed-percent stop admits when it fires without a gap. */
  function StopLossFloor(cfg: Config, base: real, average: real): real
    requires cfg.limits.stop.FixedPercent?
  {
    base * ((average * (100.0 - cfg.limits.stop.percent) / 100.0 - cfg.constraints.tick)
            * (1.0 - cfg.slippageBps / 10000.0) * (1.0 - cfg.fees.takerBps / 10000.0) - average)
  }

  /** The sale of the whole position at a stop price above the floor's. */
  lemma {:induction false} StopSaleAboveFloor(cfg: Config, p: Portfolio, f: Fill, stop: real)
    requires cfg.limits.stop.FixedPercent? && Sound(p) && 0.0 < p.base && ApplyFill(p, f).Ok?
    requires f.side == Sell && f.quantity == p.base && TickFloor(cfg, stop, p.average)
    requires f.price == stop * (1.0 - cfg.SlippageRate()) && f.notional == Notional(p.base, f.price)
    requires f.fee == f.notional * cfg.fees.Rate(Taker)
    ensures ApplyFill(p, f).value.realizedDelta > StopLossFloor(cfg, p.base, p.average)
  {
    hide MarkToMarket, Checked, OnGrid;
    RatesBounded(cfg, Taker);
    var low := p.average * (100.0 - cfg.limits.stop.percent) / 100.0 - cfg.constraints.tick;
    assert low < stop;
    assert ApplyFill(p, f).value.realizedDelta == f.notional - f.fee - p.cost;
    StopProceeds(p.base, stop, cfg.SlippageRate(), cfg.fees.Rate(Taker), p.average, f.price, f.notional, f.fee);
    ScalingDown(low, stop, cfg.SlippageRate(), cfg.fees.Rate(Taker), p.average, p.base);
  }

  /** When the engine stop fires without a gap, the realized PnL exceeds the configured floor. */
  lemma {:induction false} StopLossIsBounded(env: Env, s: State, c: Candle, position: nat)
    requires TradingInv(env, s, c) && position < |s.book.orders| && OpenStop(s.book.orders[position])
    requires var v := Judge(env.cfg, s.book, s.book.orders[position], c, s.processed);
      v.Ok? && v.value.Execute? && v.value.fill.reason == StopTriggered
    ensures env.cfg.limits.stop.FixedPercent?
    ensures
      var f := Judge(env.cfg, s.book, s.book.orders[position], c, s.processed).value.fill;
      var p := s.book.portfolio;
      && ApplyFill(p, f).Ok?
      && ApplyFill(p, f).value.realizedDelta > StopLossFloor(env.cfg, p.base, p.average)
  {
    var o := s.book.orders[position];
    assert OrderShape(env.cfg, o, position, s.processed);
    TriggeredFill(env.cfg, s.book, o, c, s.processed);
    TriggeredStopPays(env.cfg, s.book, o, Judge(env.cfg, s.book, o, c, s.processed).value.fill, s.processed);
  }

  lemma {:induction false} TriggeredStopPays(cfg: Config, b: Book, o: Order, f: Fill, index: nat)
    requires BookInv(cfg, b, index) && cfg.limits.stop.FixedPercent? && IsStop(o) && o.intent.tif == GTC
    requires 0.0 < b.portfolio.base && FitsPosition(cfg, o, b.portfolio)
    requires FillFor(cfg, o, f, |b.fills| + 1, index)
    requires f.price == o.intent.kind.stop * (1.0 - cfg.SlippageRate()) && f.fee == f.notional * cfg.fees.Rate(Taker)
    ensures ApplyFill(b.portfolio, f).Ok?
    ensures ApplyFill(b.portfolio, f).value.realizedDelta > StopLossFloor(cfg, b.portfolio.base, b.portfolio.average)
  {
    hide TickFloor, StopLossFloor, StopPrice, OnGrid, FeeModel.Rate, Config.SlippageRate, Truncate, ValidateFill,
      OrdersShaped, OpenBounded, FillsMatch, Records;
    ClearedFillIsSound(cfg, b, o, f, |b.fills| + 1, index);
    StopPriceIsTickFloor(cfg, b.portfolio.average);
    StopSaleAboveFloor(cfg, b.portfolio, f, o.intent.kind.stop);
  }

  lemma {:induction false} TriggeredFill(cfg: Config, b: Book, o: Order, c: Candle, index: nat)
    requires OpenStop(o) && o.intent.kind.StopMarket? && o.intent.side == Sell && o.intent.tif == GTC
    requires var v := Judge(cfg, b, o, c, index); v.Ok? && v.value.Execute? && v.value.fill.reason == StopTriggered
    ensures var f := Judge(cfg, b, o, c, index).value.fill;
      && FillFor(cfg, o, f, |b.fills| + 1, index) && f.time == c.openTime
      && f.price == o.intent.kind.stop * (1.0 - cfg.SlippageRate())
      && f.fee == f.notional * cfg.fees.Rate(Taker)
  {
    var quote := QuoteOrder(cfg, o, c, index);
    MakeFillFor(cfg, o, quote.value.value, c.openTime, index, |b.fills| + 1);
  }
}
