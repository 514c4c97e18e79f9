/** When things happen: the instants and candle indexes every run writes into its tables. */
module Timing {
  import opened Domain
  import opened Accounting
  import opened Risk
  import opened Ledger
  import opened Regime
  import opened Strategy
  import opened EngineSpec
  import opened RunInvariant
  import opened RunSafety
  import opened ReplayTheorems

  /** The instants a table may hold while a candle is processed: orders open by `openBy` and end by
      `endBy`; orders submitted before the first evaluated candle carry the instant `first`. */
  datatype Window = Window(start: int, first: int, openBy: int, endBy: int) {
    predicate Valid() { start <= openBy <= endBy }
  }

  function LifeStart(o: Order): int { if o.openedAt.Some? then o.openedAt.value else o.createdAt }

  predicate OrderTimed(o: Order, w: Window) {
    && w.start <= o.createdAt <= LifeStart(o) <= w.openBy
    && (o.terminalAt.Some? ==> LifeStart(o) <= o.terminalAt.value <= w.endBy)
    && (o.createdIndex == -1 ==> o.createdAt == w.first)
  }

  predicate TableTimed(orders: seq<Order>, w: Window) { forall i :: 0 <= i < |orders| ==> OrderTimed(orders[i], w) }

  predicate EventTimed(e: Event, w: Window, n: nat) { w.start <= e.time <= w.endBy && 0 <= e.candleIndex < n }

  /** The opening entry at the evaluation start, then only entries of evaluated candles. */
  predicate LedgerTimed(b: Books, w: Window, n: nat) {
    && b != []
    && b[0].event.kind == InitialCapital && b[0].event.time == w.start && b[0].event.candleIndex == -1
    && forall i :: 0 < i < |b| ==> EventTimed(b[i].event, w, n)
  }

  predicate BookTimed(b: Book, w: Window, n: nat) { TableTimed(b.orders, w) && LedgerTimed(b.ledger, w, n) }

  /** A later window with the same start admits everything an earlier one does. */
  predicate Widens(a: Window, b: Window) {
    a.start == b.start && a.first == b.first && a.openBy <= b.openBy && a.endBy <= b.endBy
  }

  lemma {:induction false} WideningKeeps(b: Book, v: Window, w: Window, m: nat, n: nat)
    requires BookTimed(b, v, m) && Widens(v, w) && m <= n
    ensures BookTimed(b, w, n)
  {
    forall i | 0 <= i < |b.orders| ensures OrderTimed(b.orders[i], w) { assert OrderTimed(b.orders[i], v); }
    forall i | 0 < i < |b.ledger| ensures EventTimed(b.ledger[i].event, w, n) {
      assert EventTimed(b.ledger[i].event, v, m);
    }
  }

  // Orders

  lemma {:induction false} DecideTimed(cfg: Config, p: Portfolio, orders: seq<Order>, i: Intent, index: int, t: int,
                                       reference: real, halt: bool, w: Window)
    requires w.Valid() && w.start <= t <= w.openBy && (index == -1 ==> t == w.first)
    ensures Decide(cfg, p, orders, i, index, t, reference, halt).Ok? ==>
      OrderTimed(Decide(cfg, p, orders, i, index, t, reference, halt).value, w)
  {
    hide Size, EvaluateOrder;
  }

  lemma {:induction false} SubmitTimed(cfg: Config, p: Portfolio, orders: seq<Order>, intents: seq<Intent>, index: int,
                                       t: int, reference: real, halt: bool,
                                       w: Window)
    requires w.Valid() && w.start <= t <= w.openBy && (index == -1 ==> t == w.first) && TableTimed(orders, w)
    ensures Submit(cfg, p, orders, intents, index, t, reference, halt).Ok? ==>
      TableTimed(Submit(cfg, p, orders, intents, index, t, reference, halt).value, w)
  {
    hide Decide, OrderTimed;
    if intents != [] {
      var rest := intents[..|intents| - 1];
      SubmitTimed(cfg, p, orders, rest, index, t, reference, halt, w);
      var before := Submit(cfg, p, orders, rest, index, t, reference, halt);
      if before.Ok? { DecideTimed(cfg, p, before.value, intents[|intents| - 1], index, t, reference, halt, w); }
    }
  }

  lemma {:induction false} SweepTimed(orders: seq<Order>, sweep: Sweep, t: int, w: Window)
    requires TableTimed(orders, w) && w.openBy <= t <= w.endBy
    ensures TableTimed(CancelSwept(orders, sweep, t), w)
  {
    forall i | 0 <= i < |orders| ensures OrderTimed(CancelSwept(orders, sweep, t)[i], w) {
      assert OrderTimed(orders[i], w);
    }
  }

  lemma {:induction false} ReconcileTimed(cfg: Config, p: Portfolio, orders: seq<Order>, t: int, index: nat, w: Window)
    requires w.Valid() && TableTimed(orders, w) && t == w.openBy
    ensures Reconcile(cfg, p, orders, t, index).Ok? ==> TableTimed(Reconcile(cfg, p, orders, t, index).value, w)
  {
    hide EvaluateStop;
    SweepTimed(orders, OnlyStops, t, w);
  }

  lemma {:induction false} CloseTimed(b: Book, position: nat, to: Status, t: int, w: Window, n: nat)
    requires BookTimed(b, w, n) && position < |b.orders| && w.openBy <= t <= w.endBy && to != Open
    ensures CloseOrder(b, position, to, t).Ok? ==> BookTimed(CloseOrder(b, position, to, t).value, w, n)
  {
    assert OrderTimed(b.orders[position], w);
  }

  // The ledger

  lemma {:induction false} AppendTimed(b: Books, e: Event, w: Window, n: nat)
    requires LedgerTimed(b, w, n) && EventTimed(e, w, n)
    ensures Append(b, e).Ok? ==> LedgerTimed(Append(b, e).value, w, n)
  {}

  lemma {:induction false} RecordFillTimed(b: Books, f: Fill, m: Mutation, w: Window, n: nat)
    requires LedgerTimed(b, w, n) && w.start <= f.time <= w.endBy && f.candleIndex < n
    ensures RecordFill(b, f, m).Ok? ==> LedgerTimed(RecordFill(b, f, m).value, w, n)
  {
    hide Append, LedgerTimed;
    AppendTimed(b, FillEvent(f), w, n);
    var b1 := Append(b, FillEvent(f));
    if b1.Ok? {
      AppendTimed(b1.value, FeeEvent(f), w, n);
      var b2 := if f.fee != 0.0 then Append(b1.value, FeeEvent(f)) else b1;
      if b2.Ok? { AppendTimed(b2.value, RealizedEvent(f, m.realizedDelta), w, n); }
    }
  }

  lemma {:induction false} RecordMarkTimed(b: Books, p: Portfolio, t: int, index: nat, final: bool, w: Window, n: nat)
    requires LedgerTimed(b, w, n) && w.start <= t <= w.endBy && index < n
    ensures RecordMark(b, p, t, index, final).Ok? ==> LedgerTimed(RecordMark(b, p, t, index, final).value, w, n)
  {
    hide Append, LedgerTimed;
    AppendTimed(b, MarkEvent(p, t, index, final), w, n);
  }

  // One candle

  function WindowOf(start: int, first: int, c: Candle): Window { Window(start, first, c.openTime, c.closeTime) }

  lemma {:induction false} TakeFillTimed(cfg: Config, b: Book, position: nat, f: Fill, index: nat, w: Window)
    requires w.Valid() && BookTimed(b, w, index + 1) && position < |b.orders| && f.time == w.openBy
      && f.candleIndex == index
    ensures TakeFill(cfg, b, position, f, index).Ok? ==>
      BookTimed(TakeFill(cfg, b, position, f, index).value, w, index + 1)
  {
    hide ApplyFill, RecordFill, Reconcile, OrderTimed, LedgerTimed, TableTimed;
    var m := ApplyFill(b.portfolio, f);
    if m.Ok? {
      RecordFillTimed(b.ledger, f, m.value, w, index + 1);
      var ledger := RecordFill(b.ledger, f, m.value);
      if ledger.Ok? {
        var next := Book(m.value.after, b.orders, b.fills + [f], ledger.value);
        CloseTimed(next, position, Filled, f.time, w, index + 1);
        var filled := CloseOrder(next, position, Filled, f.time);
        if filled.Ok? { ReconcileTimed(cfg, m.value.after, filled.value.orders, f.time, index, w); }
      }
    }
  }

  lemma {:induction false} RespondTimed(env: Env, s: State, call: Call, index: int, t: int, reference: real, w: Window,
                                        n: nat)
    requires w.Valid() && w.start <= t <= w.openBy && (index == -1 ==> t == w.first) && BookTimed(s.book, w, n)
    ensures Respond(env, s, call, index, t, reference).Ok? ==>
      var s' := Respond(env, s, call, index, t, reference).value;
      BookTimed(s'.book, w, n) && s'.lastCandle == s.lastCandle && s'.processed == s.processed && s'.equity == s.equity
  {
    hide Submit, OrderTimed, LedgerTimed, TableTimed, ValidContext;
    var called := CallStrategy(env, s, call);
    if called.Ok? && called.value.reply.Intents? {
      SubmitTimed(env.cfg, s.book.portfolio, s.book.orders, called.value.reply.intents, index, t, reference, s.halt, w);
    }
  }

  lemma {:induction false} VerdictTimed(cfg: Config, b: Book, o: Order, c: Candle, index: nat)
    ensures var v := Judge(cfg, b, o, c, index);
      && (v.Ok? && v.value.Expire? ==> c.openTime <= v.value.at <= c.closeTime)
      && (v.Ok? && v.value.Execute? ==> v.value.fill.time == c.openTime && v.value.fill.candleIndex == index)
  {}

  lemma {:induction false} ProcessOrderTimed(env: Env, s: State, c: Candle, position: nat, w: Window)
    requires w == WindowOf(w.start, w.first, c) && w.start <= c.openTime && BookTimed(s.book, w, s.processed + 1)
    ensures ProcessOrder(env, s, c, position).Ok? ==>
      var s' := ProcessOrder(env, s, c, position).value;
      BookTimed(s'.book, w, s.processed + 1) && s'.processed == s.processed && s'.equity == s.equity
        && s'.lastCandle == s.lastCandle
  {
    hide Judge, TakeFill, Respond, BookTimed, FillContext;
    if position < |s.book.orders| {
      VerdictTimed(env.cfg, s.book, s.book.orders[position], c, s.processed);
      var verdict := Judge(env.cfg, s.book, s.book.orders[position], c, s.processed);
      if verdict.Ok? {
        match verdict.value
        case Leave =>
        case Expire(at) => CloseTimed(s.book, position, Expired, at, w, s.processed + 1);
        case Refuse => CloseTimed(s.book, position, Cancelled, c.openTime, w, s.processed + 1);
        case Execute(f) =>
          TakeFillTimed(env.cfg, s.book, position, f, s.processed, w);
          var b := TakeFill(env.cfg, s.book, position, f, s.processed);
          if b.Ok? {
            var filled := s.(book := b.value, lastFill := Some(f));
            RespondTimed(env, filled, OnFill(FillContext(filled, f), f), f.candleIndex, f.time, f.price, w,
              s.processed + 1);
          }
      }
    }
  }

  lemma {:induction false} ProcessOrdersTimed(env: Env, s: State, c: Candle, positions: seq<nat>, w: Window)
    requires w == WindowOf(w.start, w.first, c) && w.start <= c.openTime && BookTimed(s.book, w, s.processed + 1)
    ensures ProcessOrders(env, s, c, positions).Ok? ==>
      var s' := ProcessOrders(env, s, c, positions).value;
      BookTimed(s'.book, w, s.processed + 1) && s'.processed == s.processed && s'.equity == s.equity
        && s'.lastCandle == s.lastCandle
  {
    hide ProcessOrder, BookTimed;
    if positions != [] {
      var rest := positions[..|positions| - 1];
      ProcessOrdersTimed(env, s, c, rest, w);
      var before := ProcessOrders(env, s, c, rest);
      if before.Ok? { ProcessOrderTimed(env, before.value, c, positions[|positions| - 1], w); }
    }
  }

  lemma {:induction false} TradeCandleTimed(env: Env, s: State, c: Candle, w: Window)
    requires w == WindowOf(w.start, w.first, c) && w.start <= c.openTime && BookTimed(s.book, w, s.processed + 1)
    requires s.processed == 0 ==> w.first == c.openTime
    ensures TradeCandle(env, s, c).Ok? ==>
      var s' := TradeCandle(env, s, c).value;
      BookTimed(s'.book, w, s.processed + 1) && s'.processed == s.processed && s'.equity == s.equity
        && s'.lastCandle == s.lastCandle
  {
    hide ProcessOrders, Submit, OrderTimed, LedgerTimed, TableTimed, EligiblePositions;
    if s.processed == 0 {
      SubmitTimed(env.cfg, s.book.portfolio, s.book.orders, s.pending, -1, c.openTime, c.open, s.halt, w);
    }
    var s1 := SubmitPending(env, s, c);
    if s1.Ok? {
      ProcessOrdersTimed(env, s1.value, c, EligiblePositions(s1.value.book.orders, s1.value.processed), w);
    }
  }

  /** After the mark every order may have opened and ended up to the close. */
  function ClosedWindow(w: Window): Window { w.(openBy := w.endBy) }

  predicate CurveTimed(equity: seq<EquityPoint>, w: Window) {
    forall i :: 0 <= i < |equity| ==> w.start < equity[i].time <= w.endBy
  }

  lemma {:induction false} CloseCandleTimed(env: Env, s: State, c: Candle, w: Window)
    requires w == WindowOf(w.start, w.first, c) && w.start <= c.openTime && BookTimed(s.book, w, s.processed + 1)
    requires CurveTimed(s.equity, w)
    ensures CloseCandle(env, s, c).Ok? ==>
      var s' := CloseCandle(env, s, c).value;
      && BookTimed(s'.book, ClosedWindow(w), s.processed + 1) && CurveTimed(s'.equity, w)
      && s'.processed == s.processed && s'.lastCandle == s.lastCandle
  {
    hide MarkToMarket, RecordMark, HaltRequired, OrderTimed, LedgerTimed, TableTimed, CancelSwept;
    var p := MarkToMarket(s.book.portfolio, c.close);
    if p.Ok? {
      RecordMarkTimed(s.book.ledger, p.value, c.closeTime, s.processed, false, w, s.processed + 1);
      var ledger := RecordMark(s.book.ledger, p.value, c.closeTime, s.processed, false);
      SweepTimed(s.book.orders, KeepStops, c.closeTime, w);
      var r := CloseCandle(env, s, c);
      if r.Ok? { WideningKeeps(r.value.book, w, ClosedWindow(w), s.processed + 1, s.processed + 1); }
    }
  }

  lemma {:induction false} FinishCandleTimed(env: Env, s: State, c: Candle, regime: Option<RegimePoint>, w: Window)
    requires w.Valid() && w.openBy == c.closeTime && BookTimed(s.book, w, s.processed + 1)
    ensures FinishCandle(env, s, c, regime).Ok? ==>
      var s' := FinishCandle(env, s, c, regime).value;
      BookTimed(s'.book, w, s'.processed) && s'.processed == s.processed + 1 && s'.equity == s.equity
        && s'.lastCandle == s.lastCandle
  {
    hide Respond, BookTimed, View, Push;
    var s1 := s.(history := Push(s.history, c, env.cfg.historyWindow));
    var call := OnCandle(View(s1, s.processed, Some(c), s1.history, regime, s.lastFill), c);
    RespondTimed(env, s1, call, s.processed, c.closeTime, c.close, w, s.processed + 1);
  }

  // Whole runs

  /** Each candle closes no later than the next one opens. */
  predicate WellTimed(cs: seq<Candle>) { forall i :: 0 < i < |cs| ==> cs[i - 1].closeTime <= cs[i].openTime }

  /** Between candles, once evaluation has begun. */
  function RestWindow(env: Env, first: int, last: Option<Candle>): Window {
    var endBy := if last.Some? then last.value.closeTime else env.cfg.evaluationStart;
    Window(env.cfg.evaluationStart, first, endBy, endBy)
  }

  predicate Timed(env: Env, s: State, first: int) {
    && (s.processed == 0 ==>
          && s.book.orders == [] && |s.book.ledger| == 1 && s.equity == []
          && LedgerTimed(s.book.ledger, Window(env.cfg.evaluationStart, first, 0, 0), 0))
    && (s.processed > 0 ==>
          && s.lastCandle.Some? && env.cfg.evaluationStart <= first <= s.lastCandle.value.openTime
          && BookTimed(s.book, RestWindow(env, first, s.lastCandle), s.processed)
          && CurveTimed(s.equity, RestWindow(env, first, s.lastCandle))
          && (s.processed == 1 ==> s.lastCandle.value.openTime == first))
  }

  lemma {:induction false} EvaluateTimed(env: Env, s: State, c: Candle, regime: Option<RegimePoint>, first: int)
    requires env.cfg.evaluationStart <= first <= c.openTime && (s.processed == 0 ==> first == c.openTime)
    requires BookTimed(s.book, WindowOf(env.cfg.evaluationStart, first, c), s.processed + 1)
    requires CurveTimed(s.equity, WindowOf(env.cfg.evaluationStart, first, c))
    requires s.lastCandle == Some(c)
    ensures EvaluateCandle(env, s, c, regime).Ok? ==> Timed(env, EvaluateCandle(env, s, c, regime).value, first)
  {
    hide TradeCandle, CloseCandle, FinishCandle, BookTimed, CurveTimed, LedgerTimed;
    var w := WindowOf(env.cfg.evaluationStart, first, c);
    TradeCandleTimed(env, s, c, w);
    var s2 := TradeCandle(env, s, c);
    if s2.Ok? {
      CloseCandleTimed(env, s2.value, c, w);
      var s3 := CloseCandle(env, s2.value, c);
      if s3.Ok? {
        CurveWidens(s3.value.equity, w, ClosedWindow(w));
        FinishCandleTimed(env, s3.value, c, regime, ClosedWindow(w));
      }
    }
  }

  lemma {:induction false} CurveWidens(equity: seq<EquityPoint>, v: Window, w: Window)
    requires CurveTimed(equity, v) && Widens(v, w)
    ensures CurveTimed(equity, w)
  {}

  lemma {:induction false} StepTimed(env: Env, s: State, c: Candle, first: int)
    requires Timed(env, s, first)
    requires s.processed > 0 ==> s.lastCandle.value.closeTime <= c.openTime
    requires s.processed == 0 && c.openTime >= env.cfg.evaluationStart ==> first == c.openTime
    requires s.processed > 0 ==> env.cfg.evaluationStart <= s.lastCandle.value.openTime
    ensures StepCandle(env, s, c).Ok? ==> Timed(env, StepCandle(env, s, c).value, first)
  {
    hide EvaluateCandle, WarmupCandle, BookTimed, CurveTimed;
    var observed := ObserveRegime(env, s.accumulator, c);
    if observed.Ok? {
      var s1 := Admitted(s, c, observed.value.accumulator);
      if c.openTime < env.cfg.evaluationStart {
        if WarmupCandle(env, s1, c, observed.value.point).Ok? { WarmupKeepsCurve(env, s1, c, observed.value.point); }
      } else {
        ReadyWindow(env, s, c, first);
        EvaluateTimed(env, s1, c, observed.value.point, first);
      }
    }
  }

  lemma {:induction false} ReadyWindow(env: Env, s: State, c: Candle, first: int)
    requires Timed(env, s, first) && env.cfg.evaluationStart <= c.openTime
    requires s.processed > 0 ==> s.lastCandle.value.closeTime <= c.openTime
    requires s.processed == 0 ==> first == c.openTime
    ensures BookTimed(s.book, WindowOf(env.cfg.evaluationStart, first, c), s.processed + 1)
    ensures CurveTimed(s.equity, WindowOf(env.cfg.evaluationStart, first, c))
  {
    var w := WindowOf(env.cfg.evaluationStart, first, c);
    if s.processed > 0 {
      WideningKeeps(s.book, RestWindow(env, first, s.lastCandle), w, s.processed, s.processed + 1);
      CurveWidens(s.equity, RestWindow(env, first, s.lastCandle), w);
    }
  }

  /** `first` is the open of the first candle at or after the evaluation start, if there is one. */
  predicate FirstOpens(env: Env, cs: seq<Candle>, first: int) {
    forall i :: 0 <= i < |cs| && cs[i].openTime >= env.cfg.evaluationStart && BeforeEvaluation(env, cs[..i]) ==>
      cs[i].openTime == first
  }

  predicate BeforeEvaluation(env: Env, cs: seq<Candle>) {
    forall i :: 0 <= i < |cs| ==> cs[i].openTime < env.cfg.evaluationStart
  }

  lemma {:induction false} StepCounts(env: Env, s: State, c: Candle)
    requires StepCandle(env, s, c).Ok?
    ensures StepCandle(env, s, c).value.processed ==
      s.processed + (if c.openTime < env.cfg.evaluationStart then 0 else 1)
    ensures StepCandle(env, s, c).value.lastCandle == Some(c)
  {
    hide EvaluateCandle, WarmupCandle;
    var s1 := Admitted(s, c, ObserveRegime(env, s.accumulator, c).value.accumulator);
    var point := ObserveRegime(env, s.accumulator, c).value.point;
    if c.openTime < env.cfg.evaluationStart {
      WarmupKeepsCurve(env, s1, c, point);
    } else {
      EvaluationCounts(env, s1, c, point);
    }
  }

  lemma {:induction false} EvaluationCounts(env: Env, s: State, c: Candle, regime: Option<RegimePoint>)
    requires EvaluateCandle(env, s, c, regime).Ok?
    ensures EvaluateCandle(env, s, c, regime).value.processed == s.processed + 1
    ensures EvaluateCandle(env, s, c, regime).value.lastCandle == s.lastCandle
  {
    hide TradeCandle, MarkToMarket, RecordMark, HaltRequired;
    TradeKeepsFeed(env, s, c);
  }

  lemma {:induction false} TradeKeepsFeed(env: Env, s: State, c: Candle)
    requires TradeCandle(env, s, c).Ok?
    ensures SameFeed(s, TradeCandle(env, s, c).value)
  {
    hide ProcessOrders;
    var s1 := SubmitPending(env, s, c).value;
    ProcessingKeepsFeed(env, s1, c, EligiblePositions(s1.book.orders, s1.processed));
  }

  lemma {:induction false} ProcessingKeepsFeed(env: Env, s: State, c: Candle, positions: seq<nat>)
    requires ProcessOrders(env, s, c, positions).Ok?
    ensures SameFeed(s, ProcessOrders(env, s, c, positions).value)
  {
    hide ProcessOrder;
    if positions != [] {
      var rest := positions[..|positions| - 1];
      ProcessingKeepsFeed(env, s, c, rest);
      OrderKeepsFeed(env, ProcessOrders(env, s, c, rest).value, c, positions[|positions| - 1]);
    }
  }

  lemma {:induction false} OrderKeepsFeed(env: Env, s: State, c: Candle, position: nat)
    requires ProcessOrder(env, s, c, position).Ok?
    ensures SameFeed(s, ProcessOrder(env, s, c, position).value)
  {
    hide Judge, TakeFill, CloseOrder;
  }

  lemma {:induction false} NothingProcessedBeforeEvaluation(env: Env, cs: seq<Candle>)
    requires StateAfter(env, cs).Ok?
    ensures StateAfter(env, cs).value.processed == 0 ==> BeforeEvaluation(env, cs)
    ensures cs != [] ==> StateAfter(env, cs).value.lastCandle == Some(cs[|cs| - 1])
    ensures cs == [] ==> StateAfter(env, cs).value.processed == 0
  {
    hide StepCandle;
    if cs != [] {
      var rest := cs[..|cs| - 1];
      NothingProcessedBeforeEvaluation(env, rest);
      StepCounts(env, StateAfter(env, rest).value, cs[|cs| - 1]);
      assert forall i :: 0 <= i < |rest| ==> cs[i] == rest[i];
    }
  }

  lemma {:induction false} StartTimed(env: Env, first: int)
    requires Start(env).Ok?
    ensures Timed(env, Start(env).value, first)
  {}

  /** Every state of a run over well-timed candles keeps its instants and indexes in range. */
  lemma {:induction false} EveryStateTimed(env: Env, cs: seq<Candle>, first: int)
    requires WellTimed(cs) && FirstOpens(env, cs, first) && StateAfter(env, cs).Ok?
    ensures Timed(env, StateAfter(env, cs).value, first)
  {
    hide StepCandle, Start, Timed, RunInv;
    if cs == [] {
      StartTimed(env, first);
    } else {
      var rest, c := cs[..|cs| - 1], cs[|cs| - 1];
      PrefixTimed(env, cs, first);
      EveryStateTimed(env, rest, first);
      EveryStateIsSound(env, rest);
      NothingProcessedBeforeEvaluation(env, rest);
      var s := StateAfter(env, rest).value;
      if rest == [] {
        assert BeforeEvaluation(env, cs[..0]);
      } else {
        assert s.lastCandle == Some(cs[|cs| - 2]);
      }
      StepReady(env, s);
      StepTimed(env, s, c, first);
    }
  }

  lemma {:induction false} StepReady(env: Env, s: State)
    requires RunInv(env, s)
    ensures s.processed > 0 ==> s.lastCandle.Some? && env.cfg.evaluationStart <= s.lastCandle.value.openTime
  {}

  lemma {:induction false} PrefixTimed(env: Env, cs: seq<Candle>, first: int)
    requires WellTimed(cs) && FirstOpens(env, cs, first) && cs != []
    ensures WellTimed(cs[..|cs| - 1]) && FirstOpens(env, cs[..|cs| - 1], first)
  {
    var rest := cs[..|cs| - 1];
    forall i | 0 <= i < |rest| ensures rest[..i] == cs[..i] {}
  }

  // The end of a run

  lemma {:induction false} LiquidationTimed(env: Env, s: State, c: Candle, w: Window, index: nat)
    requires w.Valid() && w.endBy == w.openBy == c.closeTime && w.start <= c.openTime
    requires BookTimed(s.book, w, index + 1) && s.book.portfolio.base > 0.0
    requires index == 0 ==> c.openTime == w.first
    ensures LiquidateBook(env.cfg, s.book, c, index).Ok? ==>
      BookTimed(LiquidateBook(env.cfg, s.book, c, index).value, w, index + 1)
  {
    hide ApplyFill, RecordFill, MarkToMarket, Reconcile, LedgerTimed;
    var order := LiquidationOrder(s.book.portfolio, |s.book.orders| + 1, c, index);
    var fill := LiquidationFill(env.cfg, order, c, index, |s.book.fills| + 1);
    if fill.Ok? {
      var m := ApplyFill(s.book.portfolio, fill.value);
      if m.Ok? {
        RecordFillTimed(s.book.ledger, fill.value, m.value, w, index + 1);
        var closed := order.(status := Filled, terminalAt := Some(c.closeTime));
        assert OrderTimed(closed, w);
        var p := MarkToMarket(m.value.after, c.close);
        if p.Ok? { ReconcileTimed(env.cfg, p.value, s.book.orders + [closed], c.closeTime, index, w); }
      }
    }
  }

  /** What the end of a run publishes. */
  predicate FinalTimed(env: Env, f: State, first: int, last: Candle) {
    var w := RestWindow(env, first, Some(last));
    && BookTimed(f.book, w, f.processed) && CurveTimed(f.equity, w)
  }

  lemma {:induction false} ConclusionTimed(env: Env, s: State, cancelAtEnd: bool, first: int)
    requires Timed(env, s, first) && s.processed > 0
    requires Conclude(env, s, cancelAtEnd).Ok?
    ensures FinalTimed(env, Conclude(env, s, cancelAtEnd).value, first, s.lastCandle.value)
  {
    hide LiquidateBook, RecordMark, View, ValidContext, OrderTimed, LedgerTimed, TableTimed, CancelSwept;
    var c := s.lastCandle.value;
    var w := RestWindow(env, first, s.lastCandle);
    SweepTimed(s.book.orders, Everything, c.closeTime, w);
    var s1 := CancelRemaining(s, cancelAtEnd, c.closeTime);
    if ForcesClose(env, s) { LiquidationTimed(env, s1, c, w, s.processed - 1); }
    var s2 := ForceCloseIfAsked(env, s1, c).value;
    RecordMarkTimed(s2.book.ledger, s2.book.portfolio, c.closeTime, s.processed - 1, true, w, s.processed);
  }
}
