/** Orders submitted before the first evaluated candle: exactly those the strategy asks for at the start. */
module StartOrders {
  import opened Domain
  import opened Accounting
  import opened Execution
  import opened Risk
  import opened Ledger
  import opened Regime
  import opened Strategy
  import opened EngineSpec
  import opened OrderTable
  import opened BookInvariant
  import opened RunInvariant
  import opened RunSafety
  import opened RunConclusion
  import opened RunTheorems
  import opened ReplayTheorems
  import opened Timing

  /** Some order was submitted before the first evaluated candle. */
  predicate HasStartOrder(orders: seq<Order>) { exists i :: 0 <= i < |orders| && orders[i].createdIndex == -1 }

  /** The strategy answers its first call with intents. */
  predicate AsksAtStart(env: Env) { Start(env).Ok? && Start(env).value.pending != [] }

  /** Orders keep their creation index, and new ones belong to an evaluated candle. */
  predicate Later(a: seq<Order>, b: seq<Order>) {
    && |a| <= |b|
    && (forall i :: 0 <= i < |a| ==> b[i].createdIndex == a[i].createdIndex)
    && (forall i :: |a| <= i < |b| ==> b[i].createdIndex >= 0)
  }

  lemma {:induction false} LaterKeepsStart(a: seq<Order>, b: seq<Order>)
    requires Later(a, b)
    ensures HasStartOrder(a) <==> HasStartOrder(b)
  {
    if HasStartOrder(a) {
      var i :| 0 <= i < |a| && a[i].createdIndex == -1;
      assert b[i].createdIndex == -1;
    }
  }

  lemma {:induction false} LaterTransitive(a: seq<Order>, b: seq<Order>, c: seq<Order>)
    requires Later(a, b) && Later(b, c)
    ensures Later(a, c)
  {}

  lemma {:induction false} EvolvesIsLater(a: seq<Order>, b: seq<Order>)
    requires Evolves(a, b) && forall i :: |a| <= i < |b| ==> b[i].createdIndex >= 0
    ensures Later(a, b)
  {
    forall i | 0 <= i < |a| ensures b[i].createdIndex == a[i].createdIndex { assert OrderEvolves(a[i], b[i]); }
  }

  /** Every intent becomes an order of its own. */
  lemma {:induction false} EveryIntentIsRecorded(cfg: Config, p: Portfolio, orders: seq<Order>, intents: seq<Intent>,
                                                 index: int, t: int, reference: real, halt: bool)
    requires Submit(cfg, p, orders, intents, index, t, reference, halt).Ok?
    ensures |Submit(cfg, p, orders, intents, index, t, reference, halt).value| == |orders| + |intents|
  {
    hide Decide;
    if intents != [] {
      EveryIntentIsRecorded(cfg, p, orders, intents[..|intents| - 1], index, t, reference, halt);
    }
  }

  /** Before the first evaluated candle nothing is recorded; after it, the start intents are. */
  predicate StartKept(env: Env, s: State) {
    && Start(env).Ok?
    && (s.processed == 0 ==> s.book.orders == [] && s.pending == Start(env).value.pending)
    && (s.processed > 0 ==> (HasStartOrder(s.book.orders) <==> AsksAtStart(env)))
  }

  lemma {:induction false} PendingIsRecorded(env: Env, s: State, c: Candle)
    requires CandleReady(env, s, c) && StartKept(env, s) && SubmitPending(env, s, c).Ok?
    ensures HasStartOrder(SubmitPending(env, s, c).value.book.orders) <==> AsksAtStart(env)
  {
    hide Start, BookInv, Submit;
    if s.processed == 0 && s.pending != [] {
      SubmitIntentsKeeps(env, s, s.pending, -1, c.openTime, c.open);
      EveryIntentIsRecorded(env.cfg, s.book.portfolio, s.book.orders, s.pending, -1, c.openTime, c.open, s.halt);
      assert SubmitPending(env, s, c).value.book.orders[0].createdIndex == -1;
    }
  }

  lemma {:induction false} TradingIsLater(env: Env, s: State, c: Candle)
    requires CandleReady(env, s, c) && TradeCandle(env, s, c).Ok?
    ensures SubmitPending(env, s, c).Ok?
    ensures Later(SubmitPending(env, s, c).value.book.orders, TradeCandle(env, s, c).value.book.orders)
  {
    hide BookInv, SubmitPending, ProcessOrders, EligiblePositions, Evolves;
    SubmitPendingKeeps(env, s, c);
    var s1 := SubmitPending(env, s, c).value;
    var positions := EligiblePositions(s1.book.orders, s1.processed);
    assert positions[..|positions|] == positions;
    ProcessOrdersKeeps(env, s1, c, positions, |positions|);
    EvolvesIsLater(s1.book.orders, TradeCandle(env, s, c).value.book.orders);
  }

  lemma {:induction false} ClosingIsLater(env: Env, s: State, c: Candle)
    requires CloseCandle(env, s, c).Ok?
    ensures Later(s.book.orders, CloseCandle(env, s, c).value.book.orders)
  {
    hide MarkToMarket, RecordMark, HaltRequired;
  }

  lemma {:induction false} EvaluationKeepsStart(env: Env, s: State, c: Candle, regime: Option<RegimePoint>)
    requires CandleReady(env, s, c) && RegimeFits(regime, c) && env.cfg.evaluationStart <= c.openTime
    requires StartKept(env, s) && EvaluateCandle(env, s, c, regime).Ok?
    ensures StartKept(env, EvaluateCandle(env, s, c, regime).value)
  {
    hide Start, TradeCandle, CloseCandle, FinishCandle, SubmitPending, BookInv, CallsOk, HistoryOk, Punctual,
      AccumulatorOk, Exhausted, HasStartOrder, AsksAtStart, Later, CandleReady;
    TradingIsLater(env, s, c);
    var s1, s2 := SubmitPending(env, s, c).value, TradeCandle(env, s, c).value;
    PendingIsRecorded(env, s, c);
    TradeCandleKeeps(env, s, c);
    var s3 := CloseCandle(env, s2, c).value;
    ClosingIsLater(env, s2, c);
    ReadyCurve(env, s, c);
    CloseCandleKeeps(env, s2, c);
    FinishSubmits(env, s3, c, regime);
    var s4 := FinishCandle(env, s3, c, regime).value;
    SubmittedIsLater(s3.book.orders, s4.book.orders, s3.processed, s3.halt);
    EvaluationCounts(env, s, c, regime);
    LaterTransitive(s1.book.orders, s2.book.orders, s3.book.orders);
    LaterTransitive(s1.book.orders, s3.book.orders, s4.book.orders);
    LaterKeepsStart(s1.book.orders, s4.book.orders);
  }

  lemma {:induction false} ReadyCurve(env: Env, s: State, c: Candle)
    requires CandleReady(env, s, c)
    ensures |s.equity| == s.processed && EquityIndexed(s.equity)
  {}

  lemma {:induction false} SubmittedIsLater(a: seq<Order>, b: seq<Order>, index: nat, halt: bool)
    requires Submitted(a, b, index, halt)
    ensures Later(a, b)
  {}

  lemma {:induction false} WarmupKeepsStart(env: Env, s: State, c: Candle, regime: Option<RegimePoint>)
    requires StartKept(env, s) && WarmupCandle(env, s, c, regime).Ok?
    ensures StartKept(env, WarmupCandle(env, s, c, regime).value)
  {
    hide Start, HasStartOrder, AsksAtStart, ValidContext, View;
  }

  lemma {:induction false} StepKeepsStart(env: Env, s: State, c: Candle)
    requires RunInv(env, s) && StartKept(env, s) && StepCandle(env, s, c).Ok?
    ensures StartKept(env, StepCandle(env, s, c).value)
  {
    hide EvaluateCandle, WarmupCandle, BookInv, CallsOk, HistoryOk, Punctual, Start, HasStartOrder, AsksAtStart;
    ObserveRegimeFits(env, s.accumulator, c);
    var observed := ObserveRegime(env, s.accumulator, c).value;
    var s1 := Admitted(s, c, observed.accumulator);
    AdmitKeeps(env, s, c, observed.accumulator);
    if c.openTime < env.cfg.evaluationStart {
      WarmupKeepsStart(env, s1, c, observed.point);
    } else {
      EvaluationKeepsStart(env, s1, c, observed.point);
    }
  }

  lemma {:induction false} StartIsKept(env: Env)
    requires Start(env).Ok?
    ensures StartKept(env, Start(env).value)
  {
    hide ValidContext, View;
  }

  lemma {:induction false} EveryStateKeepsStart(env: Env, cs: seq<Candle>)
    requires StateAfter(env, cs).Ok?
    ensures StartKept(env, StateAfter(env, cs).value)
  {
    hide StepCandle, Start, StartKept, RunInv;
    if cs == [] {
      StartIsKept(env);
    } else {
      var rest := cs[..|cs| - 1];
      EveryStateKeepsStart(env, rest);
      EveryStateIsSound(env, rest);
      StepKeepsStart(env, StateAfter(env, rest).value, cs[|cs| - 1]);
    }
  }

  // The end of the run

  lemma {:induction false} ReconcileIsLater(cfg: Config, p: Portfolio, orders: seq<Order>, t: int, index: nat)
    ensures Reconcile(cfg, p, orders, t, index).Ok? ==> Later(orders, Reconcile(cfg, p, orders, t, index).value)
  {
    hide EvaluateStop;
  }

  /** The liquidation order is dated one candle back, which after the first candle is still evaluated. */
  lemma {:induction false} LiquidationIsLater(cfg: Config, b: Book, c: Candle, index: nat)
    requires b.portfolio.base > 0.0 && index > 0 && LiquidateBook(cfg, b, c, index).Ok?
    ensures Later(b.orders, LiquidateBook(cfg, b, c, index).value.orders)
  {
    hide ApplyFill, RecordFill, MarkToMarket, Reconcile, LiquidationFill;
    var order := LiquidationOrder(b.portfolio, |b.orders| + 1, c, index);
    var f := LiquidationFill(cfg, order, c, index, |b.fills| + 1).value;
    var closed := Transition(order, Filled, c.closeTime, None).value;
    var p := MarkToMarket(ApplyFill(b.portfolio, f).value.after, c.close).value;
    ReconcileIsLater(cfg, p, b.orders + [closed], c.closeTime, index);
    assert Later(b.orders, b.orders + [closed]);
    LaterTransitive(b.orders, b.orders + [closed], LiquidateBook(cfg, b, c, index).value.orders);
  }

  lemma {:induction false} ConclusionIsLater(env: Env, s: State, cancelAtEnd: bool)
    requires Conclude(env, s, cancelAtEnd).Ok? && (s.processed > 1 || !ForcesClose(env, s))
    ensures Later(s.book.orders, Conclude(env, s, cancelAtEnd).value.book.orders)
  {
    hide LiquidateBook, RecordMark, ValidContext, View, Transition;
    var c := s.lastCandle.value;
    var s1 := CancelRemaining(s, cancelAtEnd, c.closeTime);
    assert Later(s.book.orders, s1.book.orders);
    if ForcesClose(env, s1) { LiquidationIsLater(env.cfg, s1.book, c, s1.processed - 1); }
  }

  /** A position held after the first candle was bought by an order from before it. */
  lemma {:induction false} FirstPositionWasAskedFor(env: Env, s: State)
    requires RunInv(env, s) && s.processed == 1 && s.book.portfolio.base > 0.0
    ensures HasStartOrder(s.book.orders)
  {
    hide ValidContext, Records, Protected, OpenBounded, CallsOk, HistoryOk, Sound;
    var b := s.book;
    assert b.fills != [];
    assert FillOk(env.cfg, b.orders, b.fills, 0);
    var i := b.fills[0].orderId - 1;
    assert OrderShape(env.cfg, b.orders[i], i, 0);
  }

  lemma {:induction false} EvolvingKeepsStart(a: seq<Order>, b: seq<Order>)
    requires HasStartOrder(a) && Evolves(a, b)
    ensures HasStartOrder(b)
  {
    var i :| 0 <= i < |a| && a[i].createdIndex == -1;
    assert OrderEvolves(a[i], b[i]);
  }

  lemma {:induction false} ConclusionKeepsStart(env: Env, s: State, cancelAtEnd: bool)
    requires RunInv(env, s) && Conclude(env, s, cancelAtEnd).Ok?
    ensures HasStartOrder(s.book.orders) <==> HasStartOrder(Conclude(env, s, cancelAtEnd).value.book.orders)
  {
    hide Conclude, HasStartOrder, Later, RunInv, FinalInv, Evolves;
    var f := Conclude(env, s, cancelAtEnd).value;
    EvaluatedSomething(env, s, cancelAtEnd);
    if s.processed > 1 || !ForcesClose(env, s) {
      ConclusionIsLater(env, s, cancelAtEnd);
      LaterKeepsStart(s.book.orders, f.book.orders);
    } else {
      FirstPositionWasAskedFor(env, s);
      ConcludeKeeps(env, s, cancelAtEnd);
      EvolvingKeepsStart(s.book.orders, f.book.orders);
    }
  }

  /** A finished run shows an order from before its first evaluated candle exactly when the strategy
      answered its first call with intents. */
  lemma {:induction false} StartOrdersAreAskedFor(env: Env, candles: seq<Candle>, cancelAtEnd: bool)
    requires Run(env, candles, cancelAtEnd).Ok?
    ensures HasStartOrder(Run(env, candles, cancelAtEnd).value.book.orders) <==> AsksAtStart(env)
  {
    hide StateAfter, Visited, Conclude, HasStartOrder, AsksAtStart, Start, RunInv;
    var s := StateAfter(env, Visited(env, candles)).value;
    EveryStateKeepsStart(env, Visited(env, candles));
    EveryStateIsSound(env, Visited(env, candles));
    ConclusionKeepsStart(env, s, cancelAtEnd);
    EvaluatedSomething(env, s, cancelAtEnd);
  }

  lemma {:induction false} EvaluatedSomething(env: Env, s: State, cancelAtEnd: bool)
    requires Conclude(env, s, cancelAtEnd).Ok?
    ensures s.processed > 0
  {}
}
