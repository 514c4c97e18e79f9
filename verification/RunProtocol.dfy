/** The protocol of a run: which candles it reads, which calls it makes, what they show and which limits hold. */
module RunProtocol {
  import opened Domain
  import opened Accounting
  import opened Execution
  import opened Risk
  import opened Ledger
  import opened Regime
  import opened Strategy
  import opened EngineSpec
  import opened RunInvariant
  import opened RunRecord

  // The candles

  /** One closed spot series of one instrument, in order. */
  predicate OneSeries(cs: seq<Candle>) {
    && (forall i :: 0 <= i < |cs| ==> cs[i].spot && cs[i].closed)
    && (forall i, j :: 0 <= i < j < |cs| ==> cs[i].openTime < cs[j].openTime && cs[i].identity == cs[j].identity)
  }

  lemma {:induction false} SeriesGrows(cs: seq<Candle>, c: Candle)
    requires OneSeries(cs) && c.spot && c.closed
    requires cs != [] ==> cs[|cs| - 1].openTime < c.openTime && cs[|cs| - 1].identity == c.identity
    ensures OneSeries(cs + [c])
  {
    var all := cs + [c];
    forall i, j | 0 <= i < j < |all| ensures all[i].openTime < all[j].openTime && all[i].identity == all[j].identity {
      if j == |cs| { assert i == |cs| - 1 || cs[i].openTime < cs[|cs| - 1].openTime; }
    }
  }

  /** The last `window` candles. */
  function Latest(cs: seq<Candle>, window: Count): seq<Candle> {
    if |cs| <= window then cs else cs[|cs| - window..]
  }

  lemma {:induction false} LatestGrows(cs: seq<Candle>, c: Candle, window: Count)
    ensures Push(Latest(cs, window), c, window) == Latest(cs + [c], window)
  {}

  // The calls

  /** The candles of the candle callbacks, the fills of the fill callbacks and the warmup candles. */
  function CandleCalls(calls: seq<Call>): seq<Candle> {
    if calls == [] then []
    else
      var last := calls[|calls| - 1];
      CandleCalls(calls[..|calls| - 1]) + (if last.OnCandle? then [last.candle] else [])
  }

  function FillCalls(calls: seq<Call>): seq<Fill> {
    if calls == [] then []
    else
      var last := calls[|calls| - 1];
      FillCalls(calls[..|calls| - 1]) + (if last.OnFill? then [last.fill] else [])
  }

  function WarmupCalls(calls: seq<Call>): seq<Candle> {
    if calls == [] then []
    else
      var last := calls[|calls| - 1];
      WarmupCalls(calls[..|calls| - 1]) + (if last.OnWarmup? then [last.candle] else [])
  }

  function WarmupCandles(env: Env, cs: seq<Candle>): seq<Candle> {
    if cs == [] then []
    else
      var rest := WarmupCandles(env, cs[..|cs| - 1]);
      if cs[|cs| - 1].openTime < env.cfg.evaluationStart then rest + [cs[|cs| - 1]] else rest
  }

  lemma {:induction false} CallsSnoc(calls: seq<Call>, call: Call)
    ensures CandleCalls(calls + [call]) == CandleCalls(calls) + (if call.OnCandle? then [call.candle] else [])
    ensures FillCalls(calls + [call]) == FillCalls(calls) + (if call.OnFill? then [call.fill] else [])
    ensures WarmupCalls(calls + [call]) == WarmupCalls(calls) + (if call.OnWarmup? then [call.candle] else [])
  {
    assert (calls + [call])[..|calls|] == calls;
  }

  function LastOf(fills: seq<Fill>): Option<Fill> { if fills == [] then None else Some(fills[|fills| - 1]) }

  /** The calls answer the candles and the fills, one each and in order, after one call at the start. */
  predicate CallsAnswer(calls: seq<Call>, warm: seq<Candle>, ks: seq<Candle>, fills: seq<Fill>) {
    && calls != [] && calls[0].OnStart? && (forall i :: 0 < i < |calls| ==> !calls[i].OnStart? && !calls[i].OnEnd?)
    && WarmupCalls(calls) == warm && CandleCalls(calls) == ks && FillCalls(calls) == fills
  }

  lemma {:induction false} CallsAnswerSnoc(calls: seq<Call>, warm: seq<Candle>, ks: seq<Candle>, fills: seq<Fill>,
                                           call: Call)
    requires CallsAnswer(calls, warm, ks, fills) && !call.OnStart? && !call.OnEnd?
    ensures CallsAnswer(calls + [call], if call.OnWarmup? then warm + [call.candle] else warm,
                        if call.OnCandle? then ks + [call.candle] else ks,
                        if call.OnFill? then fills + [call.fill] else fills)
  {
    hide CandleCalls, FillCalls, WarmupCalls;
    CallsSnoc(calls, call);
  }

  // What one order changes

  /** At most one fill was taken, and it was called back. */
  predicate OrderCalled(s: State, s': State) {
    || (s'.book.fills == s.book.fills && s'.calls == s.calls && s'.lastFill == s.lastFill)
    || (&& |s'.book.fills| == |s.book.fills| + 1 && s.book.fills <= s'.book.fills
        && |s'.calls| == |s.calls| + 1 && s.calls <= s'.calls
        && s'.calls[|s.calls|].OnFill? && s'.calls[|s.calls|].fill == s'.book.fills[|s.book.fills|]
        && s'.lastFill == Some(s'.book.fills[|s.book.fills|]))
  }

  lemma {:induction false} SubmittingStaysWithin(cfg: Config, p: Portfolio, orders: seq<Order>, intents: seq<Intent>,
                                                 index: int, t: int, reference: real, halt: bool)
    requires |orders| <= cfg.maxOrders && Submit(cfg, p, orders, intents, index, t, reference, halt).Ok?
    ensures |Submit(cfg, p, orders, intents, index, t, reference, halt).value| <= cfg.maxOrders
  {
    hide Decide;
    if intents != [] { SubmittingStaysWithin(cfg, p, orders, intents[..|intents| - 1], index, t, reference, halt); }
  }

  lemma {:induction false} ReconcilingStaysWithin(cfg: Config, p: Portfolio, orders: seq<Order>, t: int, index: int)
    requires |orders| <= cfg.maxOrders && Reconcile(cfg, p, orders, t, index).Ok?
    ensures |Reconcile(cfg, p, orders, t, index).value| <= cfg.maxOrders
  {
    hide EvaluateStop;
  }

  lemma {:induction false} TakingStaysWithin(cfg: Config, b: Book, position: nat, f: Fill, index: int)
    requires |b.orders| <= cfg.maxOrders && position < |b.orders| && TakeFill(cfg, b, position, f, index).Ok?
    ensures |TakeFill(cfg, b, position, f, index).value.orders| <= cfg.maxOrders
  {
    hide ApplyFill, RecordFill, Reconcile;
    var m := ApplyFill(b.portfolio, f).value;
    var ledger := RecordFill(b.ledger, f, m).value;
    var filled := CloseOrder(Book(m.after, b.orders, b.fills + [f], ledger), position, Filled, f.time).value;
    ReconcilingStaysWithin(cfg, m.after, filled.orders, f.time, index);
  }

  lemma {:induction false} AnsweringCalls(env: Env, s: State, f: Fill)
    requires AfterFill(env, s, f).Ok? && |s.book.orders| <= env.cfg.maxOrders
    ensures var s' := AfterFill(env, s, f).value;
      && s'.calls == s.calls + [OnFill(FillContext(s, f), f)] && s'.lastFill == s.lastFill
      && s'.book == s.book.(orders := s'.book.orders) && |s'.book.orders| <= env.cfg.maxOrders
      && SameFeed(s, s')
  {
    hide FillContext, Submit;
    var call := OnFill(FillContext(s, f), f);
    var called := CallStrategy(env, s, call).value;
    SubmittingStaysWithin(env.cfg, s.book.portfolio, s.book.orders, called.reply.intents, f.candleIndex, f.time,
      f.price, s.halt);
  }

  lemma {:induction false} ProcessOrderCalls(env: Env, s: State, c: Candle, position: nat)
    requires ProcessOrder(env, s, c, position).Ok? && position < |s.book.orders| && |s.book.orders| <= env.cfg.maxOrders
    ensures var s' := ProcessOrder(env, s, c, position).value;
      OrderCalled(s, s') && |s'.book.orders| <= env.cfg.maxOrders && SameFeed(s, s')
  {
    hide Judge, TakeFill, AfterFill;
    var verdict := Judge(env.cfg, s.book, s.book.orders[position], c, s.processed).value;
    if verdict.Execute? {
      var f := verdict.fill;
      var b := TakeFill(env.cfg, s.book, position, f, s.processed).value;
      TakenFills(env.cfg, s.book, position, f, s.processed);
      TakingStaysWithin(env.cfg, s.book, position, f, s.processed);
      AnsweringCalls(env, s.(book := b, lastFill := Some(f)), f);
    }
  }

  /** The fill callback shows the portfolio and the orders as the fill left them, and nothing of its candle. */
  lemma {:induction false} FillViewsShow(s: State, f: Fill)
    ensures var x := FillContext(s, f);
      && x.portfolio == s.book.portfolio.View() && x.openOrders == OpenOrderView(s.book.orders)
      && x.lastFill == Some(f) && x.halt == s.halt && x.history == s.history
      && (if s.history == [] then x.index == -1 && x.current.None? && x.regime.None?
          else x.index == Max(f.candleIndex as real - 1.0, 0.0).Floor && x.current == Some(s.history[|s.history| - 1])
               && x.regime == s.lastRegime)
  {}

  // The state between candles

  /** What has been read, called back and kept so far. */
  predicate Protocol(env: Env, s: State, cs: seq<Candle>, warm: seq<Candle>, ks: seq<Candle>) {
    && s.seen == |cs| <= env.cfg.maxCandles && OneSeries(cs)
    && s.lastCandle == (if cs == [] then None else Some(cs[|cs| - 1]))
    && s.history == Latest(cs, env.cfg.historyWindow)
    && Talking(env, s, warm, ks)
  }

  predicate Talking(env: Env, s: State, warm: seq<Candle>, ks: seq<Candle>) {
    && s.lastFill == LastOf(s.book.fills) && |s.book.orders| <= env.cfg.maxOrders
    && CallsAnswer(s.calls, warm, ks, s.book.fills)
  }

  lemma {:induction false} OrderKeepsTalking(env: Env, s: State, c: Candle, position: nat, warm: seq<Candle>,
                                             ks: seq<Candle>)
    requires Talking(env, s, warm, ks) && ProcessOrder(env, s, c, position).Ok?
    ensures Talking(env, ProcessOrder(env, s, c, position).value, warm, ks)
    ensures SameFeed(s, ProcessOrder(env, s, c, position).value)
  {
    hide CallsAnswer, ProcessOrder;
    PositionExists(env, s, c, position);
    ProcessOrderCalls(env, s, c, position);
    var s' := ProcessOrder(env, s, c, position).value;
    if s'.book.fills != s.book.fills {
      var n := |s.calls|;
      CallsAnswerSnoc(s.calls, warm, ks, s.book.fills, s'.calls[n]);
      assert s'.calls == s.calls + [s'.calls[n]];
      assert s'.book.fills == s.book.fills + [s'.calls[n].fill];
    }
  }

  lemma {:induction false} PositionExists(env: Env, s: State, c: Candle, position: nat)
    requires ProcessOrder(env, s, c, position).Ok?
    ensures position < |s.book.orders|
  {}

  lemma {:induction false} OrdersKeepTalking(env: Env, s: State, c: Candle, positions: seq<nat>, warm: seq<Candle>,
                                             ks: seq<Candle>)
    requires Talking(env, s, warm, ks) && ProcessOrders(env, s, c, positions).Ok?
    ensures Talking(env, ProcessOrders(env, s, c, positions).value, warm, ks)
    ensures SameFeed(s, ProcessOrders(env, s, c, positions).value)
  {
    hide Talking, ProcessOrder;
    if positions != [] {
      var rest := positions[..|positions| - 1];
      OrdersKeepTalking(env, s, c, rest, warm, ks);
      OrderKeepsTalking(env, ProcessOrders(env, s, c, rest).value, c, positions[|positions| - 1], warm, ks);
    }
  }

  lemma {:induction false} PendingKeepsTalking(env: Env, s: State, c: Candle, warm: seq<Candle>, ks: seq<Candle>)
    requires Talking(env, s, warm, ks) && SubmitPending(env, s, c).Ok?
    ensures Talking(env, SubmitPending(env, s, c).value, warm, ks) && SameFeed(s, SubmitPending(env, s, c).value)
  {
    hide CallsAnswer, Submit;
    if s.processed == 0 && s.pending != [] {
      SubmittingStaysWithin(env.cfg, s.book.portfolio, s.book.orders, s.pending, -1, c.openTime, c.open, s.halt);
    }
  }

  lemma {:induction false} TradingKeepsTalking(env: Env, s: State, c: Candle, warm: seq<Candle>, ks: seq<Candle>)
    requires Talking(env, s, warm, ks) && TradeCandle(env, s, c).Ok?
    ensures Talking(env, TradeCandle(env, s, c).value, warm, ks) && SameFeed(s, TradeCandle(env, s, c).value)
  {
    hide Talking, ProcessOrders, SubmitPending, EligiblePositions;
    PendingKeepsTalking(env, s, c, warm, ks);
    var s1 := SubmitPending(env, s, c).value;
    OrdersKeepTalking(env, s1, c, EligiblePositions(s1.book.orders, s1.processed), warm, ks);
  }

  lemma {:induction false} ClosingKeepsTalking(env: Env, s: State, c: Candle, warm: seq<Candle>, ks: seq<Candle>)
    requires Talking(env, s, warm, ks) && CloseCandle(env, s, c).Ok?
    ensures var s' := CloseCandle(env, s, c).value;
      && Talking(env, s', warm, ks)
      && s' == s.(book := s'.book, halt := s'.halt, equity := s'.equity)
  {
    hide CallsAnswer, MarkToMarket, RecordMark, HaltRequired;
  }

  /** The candle callback's view: the candle, its history, the portfolio, the OPEN orders, the last fill,
      the halt and the regime of the moment. */
  predicate Shows(env: Env, x: Context, s: State, c: Candle, orders: seq<Order>, history: seq<Candle>, index: int,
                  regime: Option<RegimePoint>)
  {
    && x.index == index && x.current == Some(c) && x.history == history
    && x.portfolio == s.book.portfolio.View() && x.lastFill == LastOf(s.book.fills) && x.halt == s.halt
    && x.regime == regime && x.openOrders == OpenOrderView(orders)
  }

  lemma {:induction false} FinishCalls(env: Env, s: State, c: Candle, regime: Option<RegimePoint>)
    requires FinishCandle(env, s, c, regime).Ok? && s.lastFill == LastOf(s.book.fills)
    requires |s.book.orders| <= env.cfg.maxOrders
    ensures var s' := FinishCandle(env, s, c, regime).value;
      && |s'.calls| == |s.calls| + 1 && s.calls <= s'.calls
      && s'.calls[|s.calls|].OnCandle? && s'.calls[|s.calls|].candle == c
      && s'.history == Push(s.history, c, env.cfg.historyWindow) && s'.lastRegime == regime
      && Shows(env, s'.calls[|s.calls|].context, s', c, s.book.orders, s'.history, s.processed, regime)
      && s'.book == s.book.(orders := s'.book.orders) && |s'.book.orders| <= env.cfg.maxOrders
      && s.book.orders <= s'.book.orders
      && s'.processed == s.processed + 1 && s'.lastFill == s.lastFill && s'.halt == s.halt
      && s'.seen == s.seen && s'.lastCandle == s.lastCandle
  {
    hide Push, Submit, OpenOrderView, ValidContext;
    var s1 := s.(history := Push(s.history, c, env.cfg.historyWindow));
    var call := OnCandle(View(s1, s.processed, Some(c), s1.history, regime, s.lastFill), c);
    var called := CallStrategy(env, s1, call).value;
    SubmittingStaysWithin(env.cfg, s.book.portfolio, s.book.orders, called.reply.intents, s.processed, c.closeTime,
      c.close, s.halt);
    SubmittingAppends(env.cfg, s.book.portfolio, s.book.orders, called.reply.intents, s.processed, c.closeTime, c.close,
      s.halt);
  }

  lemma {:induction false} SubmittingAppends(cfg: Config, p: Portfolio, orders: seq<Order>, intents: seq<Intent>,
                                             index: int, t: int, reference: real, halt: bool)
    requires Submit(cfg, p, orders, intents, index, t, reference, halt).Ok?
    ensures orders <= Submit(cfg, p, orders, intents, index, t, reference, halt).value
  {
    hide Decide;
    if intents != [] { SubmittingAppends(cfg, p, orders, intents[..|intents| - 1], index, t, reference, halt); }
  }

  lemma {:induction false} FinishingKeepsTalking(env: Env, s: State, c: Candle, regime: Option<RegimePoint>,
                                                 warm: seq<Candle>, ks: seq<Candle>)
    requires Talking(env, s, warm, ks) && FinishCandle(env, s, c, regime).Ok?
    ensures Talking(env, FinishCandle(env, s, c, regime).value, warm, ks + [c])
  {
    hide CallsAnswer, FinishCandle, Push;
    FinishCalls(env, s, c, regime);
    var s' := FinishCandle(env, s, c, regime).value;
    var n := |s.calls|;
    CallsAnswerSnoc(s.calls, warm, ks, s.book.fills, s'.calls[n]);
    assert s'.calls == s.calls + [s'.calls[n]];
  }

  lemma {:induction false} EvaluationTalks(env: Env, s: State, c: Candle, regime: Option<RegimePoint>,
                                           warm: seq<Candle>, ks: seq<Candle>)
    requires Talking(env, s, warm, ks) && EvaluateCandle(env, s, c, regime).Ok?
    ensures var s' := EvaluateCandle(env, s, c, regime).value;
      && Talking(env, s', warm, ks + [c]) && s'.history == Push(s.history, c, env.cfg.historyWindow)
      && s'.seen == s.seen && s'.lastCandle == s.lastCandle && s'.lastRegime == regime
      && s'.processed == s.processed + 1
      && LastCallShows(env, s', c)
  {
    hide Talking, TradeCandle, CloseCandle, FinishCandle, Push, OpenOrderView;
    TradingKeepsTalking(env, s, c, warm, ks);
    var s2 := TradeCandle(env, s, c).value;
    ClosingKeepsTalking(env, s2, c, warm, ks);
    var s3 := CloseCandle(env, s2, c).value;
    FinishingKeepsTalking(env, s3, c, regime, warm, ks);
    assert s3.lastFill == LastOf(s3.book.fills) && |s3.book.orders| <= env.cfg.maxOrders by {
      TalkingMeans(env, s3, warm, ks);
    }
    FinishCalls(env, s3, c, regime);
    var s' := FinishCandle(env, s3, c, regime).value;
    var n := |s3.book.orders|;
    assert s'.book.orders[..n] == s3.book.orders;
    assert Shows(env, s'.calls[|s'.calls| - 1].context, s', c, s'.book.orders[..n], s'.history, s'.processed - 1,
      regime);
  }

  lemma {:induction false} TalkingMeans(env: Env, s: State, warm: seq<Candle>, ks: seq<Candle>)
    requires Talking(env, s, warm, ks)
    ensures s.lastFill == LastOf(s.book.fills) && |s.book.orders| <= env.cfg.maxOrders
  {}

  /** The last call was the candle's, and it showed the state as it still is, before its own submissions. */
  predicate LastCallShows(env: Env, s: State, c: Candle) {
    && s.calls != [] && s.calls[|s.calls| - 1].OnCandle? && s.calls[|s.calls| - 1].candle == c
    && exists n :: 0 <= n <= |s.book.orders|
         && Shows(env, s.calls[|s.calls| - 1].context, s, c, s.book.orders[..n], s.history, s.processed - 1,
           s.lastRegime)
  }

  /** The last call was the warmup candle's, and it showed the state as it still is. */
  predicate WarmupShows(s: State, c: Candle) {
    && s.calls != [] && s.calls[|s.calls| - 1].OnWarmup? && s.calls[|s.calls| - 1].candle == c
    && var x := s.calls[|s.calls| - 1].context;
    && x.index == s.seen - 1 && x.current == Some(c) && x.history == s.history && x.lastFill.None?
    && x.portfolio == s.book.portfolio.View() && x.halt == s.halt && x.regime == s.lastRegime
    && x.openOrders == OpenOrderView(s.book.orders)
  }

  lemma {:induction false} WarmupTalks(env: Env, s: State, c: Candle, regime: Option<RegimePoint>, warm: seq<Candle>,
                                       ks: seq<Candle>)
    requires Talking(env, s, warm, ks) && WarmupCandle(env, s, c, regime).Ok?
    ensures var s' := WarmupCandle(env, s, c, regime).value;
      && Talking(env, s', warm + [c], ks) && s'.history == Push(s.history, c, env.cfg.historyWindow)
      && s'.seen == s.seen && s'.lastCandle == s.lastCandle && WarmupShows(s', c)
  {
    hide CallsAnswer, Push, OpenOrderView, ValidContext;
    var s1 := s.(history := Push(s.history, c, env.cfg.historyWindow));
    var call := OnWarmup(View(s1, s.seen - 1, Some(c), s1.history, regime, None), c);
    CallsAnswerSnoc(s.calls, warm, ks, s.book.fills, call);
  }

  lemma {:induction false} StepFollowsProtocol(env: Env, s: State, c: Candle, cs: seq<Candle>, warm: seq<Candle>,
                                               ks: seq<Candle>)
    requires Protocol(env, s, cs, warm, ks) && StepCandle(env, s, c).Ok?
    ensures var early := c.openTime < env.cfg.evaluationStart;
      && Protocol(env, StepCandle(env, s, c).value, cs + [c], if early then warm + [c] else warm,
                  if early then ks else ks + [c])
      && (if early then WarmupShows(StepCandle(env, s, c).value, c)
        else LastCallShows(env, StepCandle(env, s, c).value, c))
  {
    hide EvaluateCandle, WarmupCandle, Observe, CallsAnswer, OneSeries, LastCallShows, WarmupShows, Latest, Push;
    var observed := ObserveRegime(env, s.accumulator, c).value;
    var s1 := Admitted(s, c, observed.accumulator);
    SeriesGrows(cs, c);
    LatestGrows(cs, c, env.cfg.historyWindow);
    assert Talking(env, s1, warm, ks);
    if c.openTime < env.cfg.evaluationStart {
      WarmupTalks(env, s1, c, observed.point, warm, ks);
    } else {
      EvaluationTalks(env, s1, c, observed.point, warm, ks);
    }
  }

  lemma {:induction false} StartFollowsProtocol(env: Env)
    requires Start(env).Ok?
    ensures Protocol(env, Start(env).value, [], [], [])
    ensures env.cfg.lifecycle == 1 ==> env.cfg.evaluationStart <= env.cfg.contextStart
    ensures env.cfg.lifecycle != 1 ==> env.strategy.acceptsWarmup
    ensures var x := Start(env).value.calls[0].context;
      x == Context(-1, None, [], Initialize(env.cfg.capital).View(), [], None, false, None)
  {
    hide ValidContext, OpenOrderView, CandleCalls, FillCalls, WarmupCalls;
    var s := Fresh(env);
    NoOpenOrders();
    var call := OnStart(View(s, -1, None, [], None, None));
    assert Start(env).value.calls == [] + [call];
    NoCalls();
    CallsSnoc([], call);
  }

  lemma {:induction false} NoCalls()
    ensures CandleCalls([]) == [] && FillCalls([]) == [] && WarmupCalls([]) == []
  {}

  lemma {:induction false} NoOpenOrders()
    ensures OpenOrderView([]) == []
  {}

  /** After every candle: the candles read so far are one closed spot series within the limit; the strategy
      was called once at the start, once for every warmup candle, fill and evaluated candle, each in order;
      and the last candle or warmup callback showed the state of the moment. */
  lemma {:induction false} EveryStateFollowsProtocol(env: Env, cs: seq<Candle>)
    requires StateAfter(env, cs).Ok?
    ensures Protocol(env, StateAfter(env, cs).value, cs, WarmupCandles(env, cs), EvaluatedCandles(env, cs))
    ensures cs != [] ==>
      var s, c := StateAfter(env, cs).value, cs[|cs| - 1];
      if c.openTime < env.cfg.evaluationStart then WarmupShows(s, c) else LastCallShows(env, s, c)
    ensures env.cfg.lifecycle == 1 ==> env.cfg.evaluationStart <= env.cfg.contextStart
    ensures env.cfg.lifecycle != 1 ==> env.strategy.acceptsWarmup
  {
    hide StepCandle, Start, Protocol, LastCallShows, WarmupShows;
    if cs == [] {
      StartFollowsProtocol(env);
    } else {
      var rest, c := cs[..|cs| - 1], cs[|cs| - 1];
      EveryStateFollowsProtocol(env, rest);
      StepFollowsProtocol(env, StateAfter(env, rest).value, c, rest, WarmupCandles(env, rest),
        EvaluatedCandles(env, rest));
      assert rest + [c] == cs;
    }
  }

  // The end of the run

  /** The last call of a finished run shows what it publishes. */
  predicate EndShows(env: Env, f: State, cs: seq<Candle>) {
    && f.calls != [] && f.calls[|f.calls| - 1].OnEnd?
    && var x := f.calls[|f.calls| - 1].context;
    && cs != [] && x.index == f.processed - 1 && x.current == Some(cs[|cs| - 1])
    && x.history == Latest(cs, env.cfg.historyWindow) && x.portfolio == f.book.portfolio.View()
    && x.lastFill == LastOf(f.book.fills) && x.halt == f.halt && x.regime == f.lastRegime
    && x.openOrders == OpenOrderView(f.book.orders)
  }

  lemma {:induction false} ConclusionCalls(env: Env, s: State, cancelAtEnd: bool)
    requires Conclude(env, s, cancelAtEnd).Ok? && s.lastFill == LastOf(s.book.fills)
      && |s.book.orders| <= env.cfg.maxOrders
    ensures var f := Conclude(env, s, cancelAtEnd).value;
      && |f.calls| == |s.calls| + 1 && s.calls <= f.calls && f.calls[|s.calls|].OnEnd?
      && s.lastCandle.Some?
      && var x := f.calls[|s.calls|].context;
      && x.index == f.processed - 1 && x.current == s.lastCandle && x.history == s.history
      && x.portfolio == f.book.portfolio.View() && x.lastFill == LastOf(f.book.fills) && x.halt == f.halt
      && x.regime == f.lastRegime && x.openOrders == OpenOrderView(f.book.orders)
      && |f.book.orders| <= env.cfg.maxOrders
      && |f.book.orders| + |f.book.fills| + |f.book.ledger| + |f.equity| <= env.cfg.maxEvents
  {
    hide LiquidateBook, RecordMark, OpenOrderView, ValidContext;
    var c := s.lastCandle.value;
    var s1 := CancelRemaining(s, cancelAtEnd, c.closeTime);
    assert |s1.book.orders| == |s.book.orders|;
    if env.cfg.forceClose && s1.book.portfolio.base > 0.0 {
      LiquidatingStaysWithin(env.cfg, s1.book, c, s1.processed - 1);
    }
  }

  lemma {:induction false} LiquidatingStaysWithin(cfg: Config, b: Book, c: Candle, index: nat)
    requires b.portfolio.base > 0.0 && LiquidateBook(cfg, b, c, index).Ok?
    ensures var r := LiquidateBook(cfg, b, c, index).value;
      |r.orders| <= cfg.maxOrders && |r.fills| == |b.fills| + 1
  {
    hide ApplyFill, RecordFill, MarkToMarket, Reconcile, LiquidationFill;
    var order := LiquidationOrder(b.portfolio, |b.orders| + 1, c, index);
    var f := LiquidationFill(cfg, order, c, index, |b.fills| + 1).value;
    var closed := Transition(order, Filled, c.closeTime, None).value;
    var p := MarkToMarket(ApplyFill(b.portfolio, f).value.after, c.close).value;
    ReconcilingStaysWithin(cfg, p, b.orders + [closed], c.closeTime, index);
  }

  /** A finished run read one series within the candle limit, called its strategy in order with an honest
      last view, and kept the limits on orders and events. */
  lemma {:induction false} RunsFollowProtocol(env: Env, candles: seq<Candle>, cancelAtEnd: bool)
    requires Run(env, candles, cancelAtEnd).Ok?
    ensures var cs, f := Visited(env, candles), Run(env, candles, cancelAtEnd).value;
      && OneSeries(cs) && |cs| <= env.cfg.maxCandles && StateAfter(env, cs).Ok?
      && f.calls != []
      && CallsAnswer(f.calls[..|f.calls| - 1], WarmupCandles(env, cs), EvaluatedCandles(env, cs),
                     StateAfter(env, cs).value.book.fills)
      && EndShows(env, f, cs)
      && |f.book.orders| <= env.cfg.maxOrders
      && |f.book.orders| + |f.book.fills| + |f.book.ledger| + |f.equity| <= env.cfg.maxEvents
  {
    hide StateAfter, Visited, Conclude, CallsAnswer, OneSeries, OpenOrderView, EvaluatedCandles, WarmupCandles, Latest;
    var cs := Visited(env, candles);
    var s, f := StateAfter(env, cs).value, Run(env, candles, cancelAtEnd).value;
    EveryStateFollowsProtocol(env, cs);
    ConclusionCalls(env, s, cancelAtEnd);
    assert f.calls[..|f.calls| - 1] == s.calls;
  }
}
