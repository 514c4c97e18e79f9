/** Safety over whole runs: the invariant at every candle boundary and at the end. */
module RunSafety {
  import opened Domain
  import opened Accounting
  import opened Execution
  import opened Risk
  import opened Ledger
  import opened Regime
  import opened Strategy
  import opened EngineSpec
  import opened OrderTable
  import opened Priority
  import opened BookInvariant
  import opened RunInvariant

  predicate EquityIndexed(equity: seq<EquityPoint>) {
    forall i :: 0 <= i < |equity| ==> equity[i].candleIndex == i
  }

  /** Past a period's warmup the accumulator holds that period's average. */
  predicate Ready(policy: RegimePolicy, a: RegimeState) {
    && (a.count >= policy.fast ==> a.fast.Some?)
    && (a.count >= policy.slow ==> a.slow.Some?)
    && (a.count >= policy.atr ==> a.atr.Some?)
  }

  predicate AccumulatorOk(env: Env, a: Option<RegimeState>) {
    env.cfg.regime.Some? && a.Some? ==> Ready(env.cfg.regime.value, a.value)
  }

  predicate EndsAt(history: seq<Candle>, last: Option<Candle>) {
    if history == [] then last.None? else last == Some(history[|history| - 1])
  }

  /** Between candles. */
  predicate RunInv(env: Env, s: State) {
    && BookInv(env.cfg, s.book, s.processed - 1)
    && (s.halt ==> OnlyStopsOpen(s.book.orders))
    && CallsOk(s.calls)
    && HistoryOk(s.history, s.lastRegime) && EndsAt(s.history, s.lastCandle)
    && |s.equity| == s.processed && EquityIndexed(s.equity)
    && Punctual(s.book.orders, s.processed)
    && AccumulatorOk(env, s.accumulator)
    && (s.processed > 0 ==> s.lastCandle.Some? && env.cfg.evaluationStart <= s.lastCandle.value.openTime)
  }

  /** Everything a candle may change of what came before it. */
  predicate Extends(s: State, s': State) {
    Grows(s, s') && s.equity <= s'.equity && s.regimes <= s'.regimes && s.processed <= s'.processed
  }

  lemma {:induction false} ExtendsTransitive(a: State, b: State, c: State)
    requires Extends(a, b) && Extends(b, c)
    ensures Extends(a, c)
  {
    GrowsTransitive(a, b, c);
  }

  lemma {:induction false} BookInvLater(cfg: Config, b: Book, i: int, j: int)
    requires BookInv(cfg, b, i) && i <= j
    ensures BookInv(cfg, b, j)
  {
    forall k: nat | k < |b.orders| ensures OrderShape(cfg, b.orders[k], k, j) {
      assert OrderShape(cfg, b.orders[k], k, i);
    }
  }

  lemma {:induction false} PushKeepsOrder(history: seq<Candle>, c: Candle, window: Count)
    requires StrictlyOrdered(history) && OpensBefore(history, c.openTime)
    ensures StrictlyOrdered(Push(history, c, window))
    ensures Push(history, c, window) != [] && Push(history, c, window)[|Push(history, c, window)| - 1] == c
  {}

  predicate RegimeFits(regime: Option<RegimePoint>, c: Candle) {
    regime.Some? ==> regime.value.Valid() && regime.value.time == c.closeTime
  }

  lemma {:induction false} ObserveRegimeFits(env: Env, a: Option<RegimeState>, c: Candle)
    requires AccumulatorOk(env, a)
    ensures ObserveRegime(env, a, c).Ok? ==>
      var o := ObserveRegime(env, a, c).value;
      AccumulatorOk(env, o.accumulator) && RegimeFits(o.point, c)
    ensures ObserveRegime(env, a, c).Err? ==> ObserveRegime(env, a, c).error == InvalidIndicatorInput
  {}

  lemma {:induction false} HistoryPrecedes(history: seq<Candle>, last: Option<Candle>, c: Candle)
    requires StrictlyOrdered(history) && EndsAt(history, last) && Succeeds(c, last)
    ensures OpensBefore(history, c.openTime)
  {}

  // Closing and finishing a candle

  lemma {:induction false} MarkKeepsBook(cfg: Config, b: Book, price: real, t: int, index: nat)
    requires BookInv(cfg, b, index) && 0.0 < price
    ensures MarkToMarket(b.portfolio, price) == Ok(Marked(b.portfolio, price))
    ensures RecordMark(b.ledger, Marked(b.portfolio, price), t, index, false).Ok?
    ensures var b' := b.(portfolio := Marked(b.portfolio, price),
                         ledger := RecordMark(b.ledger, Marked(b.portfolio, price), t, index, false).value);
      BookInv(cfg, b', index) && b.ledger <= b'.ledger && b'.portfolio.base == b.portfolio.base
  {
    MarkKeepsSound(b.portfolio, price);
    RecordMarkAgrees(b.ledger, b.portfolio, Marked(b.portfolio, price), t, index, false);
    RecordMarkFloored(b.ledger, Marked(b.portfolio, price), t, index, false, CashFloor(cfg));
  }

  lemma {:induction false} HaltSweepKeepsBook(cfg: Config, b: Book, t: int, index: int)
    requires BookInv(cfg, b, index)
    ensures var orders := CancelSwept(b.orders, KeepStops, t);
      && BookInv(cfg, b.(orders := orders), index) && OnlyStopsOpen(orders) && Evolves(b.orders, orders)
      && (forall next :: Punctual(b.orders, next) ==> Punctual(orders, next))
  {
    SweepKeepsTable(cfg, b.orders, KeepStops, t, index);
    var orders := CancelSwept(b.orders, KeepStops, t);
    EvolvingKeepsMatch(cfg, b.orders, orders, b.fills, index);
    ClosingKeepsProtection(cfg, b.orders, orders, b.portfolio);
  }

  /** Marking at the close keeps the books; a latched halt leaves only the engine stop open. */
  lemma {:induction false} CloseCandleKeeps(env: Env, s: State, c: Candle)
    requires TradingInv(env, s, c) && Punctual(s.book.orders, s.processed + 1)
    requires |s.equity| == s.processed && EquityIndexed(s.equity)
    ensures CloseCandle(env, s, c).Ok? ==>
      var s' := CloseCandle(env, s, c).value;
      && TradingInv(env, s', c) && Punctual(s'.book.orders, s.processed + 1)
      && Grows(s, s')
      && s' == s.(book := s'.book, halt := s'.halt, equity := s'.equity)
      && s'.equity == s.equity + [PointOf(s.processed, c, s'.book.portfolio)]
      && s'.book.fills == s.book.fills && s'.book.portfolio == Marked(s.book.portfolio, c.close)
      && (s'.halt <==> s.halt || HaltRequired(env.cfg, s'.book.portfolio))
    ensures CloseCandle(env, s, c).Err? ==> CloseCandle(env, s, c).error == InvalidMarkPrice
  {
    if c.close > 0.0 {
      MarkKeepsBook(env.cfg, s.book, c.close, c.closeTime, s.processed);
      var marked := Marked(s.book.portfolio, c.close);
      var b := s.book.(portfolio := marked,
        ledger := RecordMark(s.book.ledger, marked, c.closeTime, s.processed, false).value);
      if !s.halt && HaltRequired(env.cfg, marked) {
        HaltSweepKeepsBook(env.cfg, b, c.closeTime, s.processed);
      }
    }
  }

  lemma {:induction false} CandleViewOk(s: State, index: nat, c: Candle, regime: Option<RegimePoint>,
                                        lastFill: Option<Fill>)
    requires StrictlyOrdered(s.history) && s.history != [] && s.history[|s.history| - 1] == c && RegimeFits(regime, c)
    ensures CallOk(OnCandle(View(s, index, Some(c), s.history, regime, lastFill), c))
  {
    hide OpenOrderView;
    ViewShowsOpenOrders(s.book.orders);
  }

  lemma {:induction false} FinishCandleKeeps(env: Env, s: State, c: Candle, regime: Option<RegimePoint>)
    requires TradingInv(env, s, c) && Punctual(s.book.orders, s.processed + 1)
    requires |s.equity| == s.processed + 1 && EquityIndexed(s.equity) && AccumulatorOk(env, s.accumulator)
    requires s.lastCandle == Some(c) && env.cfg.evaluationStart <= c.openTime && RegimeFits(regime, c)
    ensures FinishCandle(env, s, c, regime).Ok? ==>
      var s' := FinishCandle(env, s, c, regime).value;
      && RunInv(env, s') && Extends(s, s') && s'.processed == s.processed + 1
      && s'.equity == s.equity && s'.book.fills == s.book.fills && s'.book.portfolio == s.book.portfolio
      && s'.halt == s.halt && s'.book.ledger == s.book.ledger
    ensures FinishCandle(env, s, c, regime).Err? ==> !FinishCandle(env, s, c, regime).error.AccusesOwnBooks()
  {
    hide BookInv, Push, View, CallOk, AccumulatorOk, EngineSpec.SubmitIntents, Submitted, Punctual, OnlyStopsOpen,
      CallsOk;
    PushKeepsOrder(s.history, c, env.cfg.historyWindow);
    var s1 := s.(history := Push(s.history, c, env.cfg.historyWindow));
    var call := OnCandle(View(s1, s.processed, Some(c), s1.history, regime, s.lastFill), c);
    CandleViewOk(s1, s.processed, c, regime, s.lastFill);
    CallKeeps(env, s1, call);
    var called := CallStrategy(env, s1, call);
    if called.Ok? && called.value.reply.Intents? {
      var state := called.value.state;
      SubmitIntentsKeeps(env, state, called.value.reply.intents, s.processed, c.closeTime, c.close);
      var s2 := SubmitIntents(env, state, called.value.reply.intents, s.processed, c.closeTime, c.close);
      if s2.Ok? {
        TableIsShaped(env.cfg, s2.value.book, s.processed);
        SubmittedStaysPunctual(env.cfg, s.book.orders, s2.value.book.orders, s.processed, s.halt);
      }
    }
  }

  lemma {:induction false} TableIsShaped(cfg: Config, b: Book, index: int)
    requires BookInv(cfg, b, index)
    ensures OrdersShaped(cfg, b.orders, index)
  {}

  lemma {:induction false} SubmittedStaysPunctual(cfg: Config, a: seq<Order>, b: seq<Order>, index: nat, halt: bool)
    requires Punctual(a, index + 1) && Submitted(a, b, index, halt) && OrdersShaped(cfg, b, index)
    ensures Punctual(b, index + 1)
  {
    forall i: nat | i < |b| && b[i].status == Open && Immediate(b[i]) ensures b[i].eligibleIndex >= index + 1 {
      assert OrderShape(cfg, b[i], i, index);
      if i < |a| { assert b[i] == a[i]; }
    }
  }

  // One whole candle

  /** A candle has been admitted and nothing has been traded on it yet. */
  predicate CandleReady(env: Env, s: State, c: Candle) {
    && BookInv(env.cfg, s.book, s.processed - 1)
    && (s.halt ==> OnlyStopsOpen(s.book.orders))
    && CallsOk(s.calls)
    && HistoryOk(s.history, s.lastRegime) && OpensBefore(s.history, c.openTime)
    && |s.equity| == s.processed && EquityIndexed(s.equity)
    && Punctual(s.book.orders, s.processed)
    && AccumulatorOk(env, s.accumulator)
    && s.lastCandle == Some(c) && s.seen > 0
    && (s.processed > 0 ==> env.cfg.evaluationStart <= c.openTime)
  }

  lemma {:induction false} AdmitKeeps(env: Env, s: State, c: Candle, accumulator: Option<RegimeState>)
    requires RunInv(env, s) && Succeeds(c, s.lastCandle) && AccumulatorOk(env, accumulator)
    ensures CandleReady(env, Admitted(s, c, accumulator), c)
  {
    HistoryPrecedes(s.history, s.lastCandle, c);
  }

  lemma {:induction false} SubmitPendingKeeps(env: Env, s: State, c: Candle)
    requires CandleReady(env, s, c)
    ensures SubmitPending(env, s, c).Ok? ==>
      var s1 := SubmitPending(env, s, c).value;
      && TradingInv(env, s1, c) && NoneAfter(s1.book.fills, s.processed - 1)
      && s1 == s.(book := s.book.(orders := s1.book.orders)) && Evolves(s.book.orders, s1.book.orders)
      && s1.book.fills == s.book.fills
    ensures SubmitPending(env, s, c).Err? ==> !SubmitPending(env, s, c).error.AccusesOwnBooks()
  {
    if s.processed == 0 && s.pending != [] {
      SubmitIntentsKeeps(env, s, s.pending, -1, c.openTime, c.open);
      var r := SubmitIntents(env, s, s.pending, -1, c.openTime, c.open);
      if r.Ok? { BookInvLater(env.cfg, r.value.book, -1, 0); }
    } else {
      BookInvLater(env.cfg, s.book, s.processed - 1, s.processed);
    }
  }

  /** The trading part of a candle: pending intents, then every eligible order. */
  lemma {:induction false} TradeCandleKeeps(env: Env, s: State, c: Candle)
    requires CandleReady(env, s, c)
    ensures TradeCandle(env, s, c).Ok? ==>
      var s2 := TradeCandle(env, s, c).value;
      TradingInv(env, s2, c) && Punctual(s2.book.orders, s.processed + 1) && Exhausted(s2.book.orders, c, s.processed)
      && Grows(s, s2) && SameFeed(s, s2)
    ensures TradeCandle(env, s, c).Err? ==> !TradeCandle(env, s, c).error.AccusesOwnBooks()
  {
    SubmitPendingKeeps(env, s, c);
    var r1 := SubmitPending(env, s, c);
    if r1.Ok? {
      var s1 := r1.value;
      var positions := EligiblePositions(s1.book.orders, s1.processed);
      assert positions[..|positions|] == positions;
      ProcessOrdersKeeps(env, s1, c, positions, |positions|);
      var r2 := ProcessOrders(env, s1, c, positions);
      if r2.Ok? {
        AllProcessed(env.cfg, s1, r2.value, c, positions);
        GrowsTransitive(s, s1, r2.value);
      }
    }
  }

  lemma {:induction false} EvaluateCandleKeeps(env: Env, s: State, c: Candle, regime: Option<RegimePoint>)
    requires CandleReady(env, s, c) && RegimeFits(regime, c) && env.cfg.evaluationStart <= c.openTime
    ensures EvaluateCandle(env, s, c, regime).Ok? ==>
      var s' := EvaluateCandle(env, s, c, regime).value;
      RunInv(env, s') && Extends(s, s') && s'.processed == s.processed + 1
    ensures EvaluateCandle(env, s, c, regime).Err? ==> !EvaluateCandle(env, s, c, regime).error.AccusesOwnBooks()
  {
    hide TradeCandle, CloseCandle, FinishCandle, BookInv, TradingInv, CallsOk, HistoryOk, Punctual, AccumulatorOk,
      Evolves;
    TradeCandleKeeps(env, s, c);
    var r2 := TradeCandle(env, s, c);
    if r2.Ok? {
      CloseCandleKeeps(env, r2.value, c);
      var r3 := CloseCandle(env, r2.value, c);
      if r3.Ok? {
        FinishCandleKeeps(env, r3.value, c, regime);
        GrowsTransitive(s, r2.value, r3.value);
        var r4 := FinishCandle(env, r3.value, c, regime);
        if r4.Ok? { GrowsTransitive(s, r3.value, r4.value); }
      }
    }
  }

  lemma {:induction false} WarmupCandleKeeps(env: Env, s: State, c: Candle, regime: Option<RegimePoint>)
    requires CandleReady(env, s, c) && RegimeFits(regime, c) && c.openTime < env.cfg.evaluationStart
    ensures WarmupCandle(env, s, c, regime).Ok? ==>
      var s' := WarmupCandle(env, s, c, regime).value;
      RunInv(env, s') && Extends(s, s') && s'.processed == s.processed && s'.book == s.book
    ensures WarmupCandle(env, s, c, regime).Err? ==> !WarmupCandle(env, s, c, regime).error.AccusesOwnBooks()
  {
    hide BookInv, Push, CallStrategy, OnlyStopsOpen, OpenOrderView, AccumulatorOk;
    PushKeepsOrder(s.history, c, env.cfg.historyWindow);
    var s1 := s.(history := Push(s.history, c, env.cfg.historyWindow));
    ViewShowsOpenOrders(s1.book.orders);
    CallKeeps(env, s1, OnWarmup(View(s1, s.seen - 1, Some(c), s1.history, regime, None), c));
  }

  lemma {:induction false} StepCandleKeeps(env: Env, s: State, c: Candle)
    requires RunInv(env, s)
    ensures StepCandle(env, s, c).Ok? ==>
      RunInv(env, StepCandle(env, s, c).value) && Extends(s, StepCandle(env, s, c).value)
    ensures StepCandle(env, s, c).Err? ==> !StepCandle(env, s, c).error.AccusesOwnBooks()
  {
    ObserveRegimeFits(env, s.accumulator, c);
    var observed := ObserveRegime(env, s.accumulator, c);
    if CheckCandle(c, s.lastCandle).Ok? && observed.Ok? {
      var s1 := Admitted(s, c, observed.value.accumulator);
      AdmitKeeps(env, s, c, observed.value.accumulator);
      if c.openTime < env.cfg.evaluationStart {
        WarmupCandleKeeps(env, s1, c, observed.value.point);
      } else {
        EvaluateCandleKeeps(env, s1, c, observed.value.point);
      }
    }
  }

  lemma {:induction false} StartKeeps(env: Env)
    ensures Start(env).Ok? ==> RunInv(env, Start(env).value) && Start(env).value.processed == 0
    ensures Start(env).Err? ==> Start(env).error == StrategyFailure
  {
    var s := Fresh(env);
    AppendKeepsBooks([], InitialEvent(env.cfg.capital, env.cfg.evaluationStart));
    GridIsMultiples(0.0, env.cfg.constraints.step);
    assert 0.0 == Multiple(0, env.cfg.constraints.step);
    ViewShowsOpenOrders(s.book.orders);
    CallKeeps(env, s, OnStart(View(s, -1, None, [], None, None)));
  }

  /** The invariant holds after every candle of every run, and no candle accuses the books. */
  lemma {:induction false} EveryStateIsSound(env: Env, cs: seq<Candle>)
    ensures StateAfter(env, cs).Ok? ==> RunInv(env, StateAfter(env, cs).value)
    ensures StateAfter(env, cs).Err? ==> !StateAfter(env, cs).error.AccusesOwnBooks()
  {
    if cs == [] {
      StartKeeps(env);
    } else {
      EveryStateIsSound(env, cs[..|cs| - 1]);
      var before := StateAfter(env, cs[..|cs| - 1]);
      if before.Ok? { StepCandleKeeps(env, before.value, cs[|cs| - 1]); }
    }
  }

  /** Every state of a run extends every earlier one. */
  lemma {:induction false} RunsOnlyExtend(env: Env, cs: seq<Candle>, k: nat)
    requires k <= |cs| && StateAfter(env, cs).Ok?
    ensures StateAfter(env, cs[..k]).Ok?
    ensures Extends(StateAfter(env, cs[..k]).value, StateAfter(env, cs).value)
  {
    if k == |cs| {
      assert cs[..k] == cs;
    } else {
      var rest := cs[..|cs| - 1];
      RunsOnlyExtend(env, rest, k);
      assert rest[..k] == cs[..k];
      EveryStateIsSound(env, rest);
      StepCandleKeeps(env, StateAfter(env, rest).value, cs[|cs| - 1]);
      ExtendsTransitive(StateAfter(env, cs[..k]).value, StateAfter(env, rest).value, StateAfter(env, cs).value);
    }
  }
}
