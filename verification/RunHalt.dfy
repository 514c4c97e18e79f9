/** Why a run halts, and when its published curve says so. */
module RunHalt {
  import opened Domain
  import opened RealArithmetic
  import opened Accounting
  import opened Risk
  import opened Ledger
  import opened Regime
  import opened Strategy
  import opened EngineSpec
  import opened RunInvariant
  import opened RunSafety
  import opened RunConclusion
  import opened RunTheorems
  import opened Replay
  import opened ReplayTheorems
  import opened Timing

  /** This drawdown reaches the configured maximum. */
  predicate TooDeep(cfg: Config, drawdownPct: real) {
    cfg.limits.stopOnMaxDrawdown && cfg.limits.maxDrawdownPct.Some? && drawdownPct >= cfg.limits.maxDrawdownPct.value
  }

  predicate Breaches(cfg: Config, e: EquityPoint) { TooDeep(cfg, e.drawdownPct) }

  predicate Explained(cfg: Config, s: State) {
    s.halt <==> exists i :: 0 <= i < |s.equity| && Breaches(cfg, s.equity[i])
  }

  lemma {:induction false} CloseCandleExplains(env: Env, s: State, c: Candle)
    requires Explained(env.cfg, s) && CloseCandle(env, s, c).Ok?
    ensures Explained(env.cfg, CloseCandle(env, s, c).value)
  {
    hide MarkToMarket, RecordMark, CancelSwept;
    var s' := CloseCandle(env, s, c).value;
    assert s'.equity[..|s.equity|] == s.equity;
    assert forall i :: 0 <= i < |s.equity| ==> s'.equity[i] == s.equity[i];
    assert Breaches(env.cfg, s'.equity[|s.equity|]) <==> HaltRequired(env.cfg, s'.book.portfolio);
  }

  lemma {:induction false} FinishKeepsHalt(env: Env, s: State, c: Candle, regime: Option<RegimePoint>)
    requires FinishCandle(env, s, c, regime).Ok?
    ensures var s' := FinishCandle(env, s, c, regime).value; s'.halt == s.halt && s'.equity == s.equity
  {}

  lemma {:induction false} WarmupKeepsHalt(env: Env, s: State, c: Candle, regime: Option<RegimePoint>)
    requires WarmupCandle(env, s, c, regime).Ok?
    ensures var s' := WarmupCandle(env, s, c, regime).value; s'.halt == s.halt && s'.equity == s.equity
  {}

  lemma {:induction false} EvaluationExplains(env: Env, s: State, c: Candle, regime: Option<RegimePoint>)
    requires Explained(env.cfg, s) && EvaluateCandle(env, s, c, regime).Ok?
    ensures Explained(env.cfg, EvaluateCandle(env, s, c, regime).value)
  {
    hide TradeCandle, CloseCandle, FinishCandle;
    TradeKeepsFeed(env, s, c);
    var s2 := TradeCandle(env, s, c).value;
    CloseCandleExplains(env, s2, c);
    FinishKeepsHalt(env, CloseCandle(env, s2, c).value, c, regime);
  }

  lemma {:induction false} StepExplains(env: Env, s: State, c: Candle)
    requires Explained(env.cfg, s) && StepCandle(env, s, c).Ok?
    ensures Explained(env.cfg, StepCandle(env, s, c).value)
  {
    hide EvaluateCandle, WarmupCandle;
    var observed := ObserveRegime(env, s.accumulator, c).value;
    var s1 := Admitted(s, c, observed.accumulator);
    if c.openTime < env.cfg.evaluationStart {
      WarmupKeepsHalt(env, s1, c, observed.point);
    } else {
      EvaluationExplains(env, s1, c, observed.point);
    }
  }

  lemma {:induction false} StartExplains(env: Env)
    requires Start(env).Ok?
    ensures Explained(env.cfg, Start(env).value)
  {}

  /** After every candle of every run the halt is latched exactly when some point of the curve has
      reached the maximum drawdown and the limits ask the run to stop there. */
  lemma {:induction false} HaltIsExplained(env: Env, cs: seq<Candle>)
    requires StateAfter(env, cs).Ok?
    ensures Explained(env.cfg, StateAfter(env, cs).value)
  {
    hide StepCandle, Start, Explained;
    if cs == [] {
      StartExplains(env);
    } else {
      var rest := cs[..|cs| - 1];
      HaltIsExplained(env, rest);
      StepExplains(env, StateAfter(env, rest).value, cs[|cs| - 1]);
    }
  }

  // The published curve

  /** What selling the position at the close would bring, net of slippage and fee. */
  function NetProceeds(cfg: Config, base: real, close: real): real {
    base * close * (1.0 - cfg.SlippageRate()) * (1.0 - cfg.fees.Rate(Taker))
  }

  /** The drawdown a forced close would leave, at the peak the portfolio already has. */
  function LiquidationDrawdown(cfg: Config, p: Portfolio, close: real): real {
    DrawdownPct(p.peak, p.peak - (p.cash + NetProceeds(cfg, p.base, close)))
  }

  lemma {:induction false} DeeperIsDeeper(peak: real, a: real, b: real)
    requires 0.0 <= peak && a <= b
    ensures DrawdownPct(peak, a) <= DrawdownPct(peak, b)
  {
    if peak != 0.0 {
      var x, y := a / peak, b / peak;
      CancelFactor(a, peak);
      CancelFactor(b, peak);
      ProductMonotone(y, x, peak);
    }
  }

  lemma {:induction false} ProceedsAreNet(cfg: Config, f: Fill, base: real, close: real)
    requires f.quantity == base && f.price == close * (1.0 - cfg.SlippageRate())
    requires f.notional == Notional(f.quantity, f.price) && f.fee == f.notional * cfg.fees.Rate(Taker)
    ensures f.notional - f.fee == NetProceeds(cfg, base, close)
  {
    var kept, rate := 1.0 - cfg.SlippageRate(), cfg.fees.Rate(Taker);
    assert f.notional == base * close * kept;
    assert f.notional - f.notional * rate == f.notional * (1.0 - rate);
  }

  /** A forced close only ever deepens the drawdown of the last point, to the net proceeds. */
  lemma {:induction false} RewrittenPointDeepens(env: Env, s: State, cancelAtEnd: bool)
    requires RunInv(env, s) && Replays(env.cfg, s) && ForcesClose(env, s) && Conclude(env, s, cancelAtEnd).Ok?
    ensures s.lastCandle.Some? && s.equity != []
    ensures var f, n := Conclude(env, s, cancelAtEnd).value, |s.equity| - 1;
      && |f.equity| == |s.equity| && f.equity[..n] == s.equity[..n]
      && f.equity[n].drawdownPct == LiquidationDrawdown(env.cfg, s.book.portfolio, s.lastCandle.value.close)
      && s.equity[n].drawdownPct <= f.equity[n].drawdownPct
  {
    hide Conclude, ApplyFill, MarkToMarket, ReplayTo, ForcedFill, DrawdownPct, CallsOk, HistoryOk, Punctual,
      LiquidationDrawdown, Records, Floored, Held;
    ForcedConclusion(env, s, cancelAtEnd);
    ForcedFillShape(env, s);
    LastMarkPeels(env.cfg, s);
    LastPointMatches(env.cfg, s);
    var f, c := ForcedFill(env, s).value, s.lastCandle.value;
    var p := BeforeLastMark(env.cfg.capital, s.book.fills, s.equity).value;
    SellingOutFlattens(s.book.portfolio, f, c.close);
    FlattenedDeepens(env.cfg, p, f, c.close);
  }

  lemma {:induction false} LastPointMatches(cfg: Config, s: State)
    requires Replays(cfg, s) && s.equity != []
    ensures s.equity[|s.equity| - 1].drawdownPct == s.book.portfolio.drawdownPct
  {
    hide ApplyAll, MarkToMarket, FillsAt;
  }

  lemma {:induction false} FlattenedDeepens(cfg: Config, p: Portfolio, f: Fill, close: real)
    requires Sound(p) && 0.0 < p.base && 0.0 < close
    requires f.quantity == p.base && f.price == close * (1.0 - cfg.SlippageRate())
    requires f.notional == Notional(f.quantity, f.price) && f.fee == f.notional * cfg.fees.Rate(Taker)
    ensures var m := Marked(p, close);
      && Flattened(m, f, close).drawdownPct == LiquidationDrawdown(cfg, m, close)
      && m.drawdownPct <= Flattened(m, f, close).drawdownPct
  {
    hide DrawdownPct, NetProceeds;
    RatesBounded(cfg, Taker);
    LiquidationNeverBeatsMark(p.base, close, cfg.SlippageRate(), cfg.fees.Rate(Taker), f.price, f.notional, f.fee);
    ProceedsAreNet(cfg, f, p.base, close);
    var m := Marked(p, close);
    var cash := p.cash + (f.notional - f.fee);
    assert cash <= m.equity <= m.peak;
    DeeperIsDeeper(m.peak, m.peak - m.equity, m.peak - cash);
  }

  /** The halt and the published curve. A halt is always visible on the curve; the curve shows a
      breach only if the run halted, except that a forced close may deepen the last point past the
      maximum after the last chance to halt. */
  lemma {:induction false} PublishedHaltIsExplained(env: Env, candles: seq<Candle>, cancelAtEnd: bool)
    requires Run(env, candles, cancelAtEnd).Ok?
    ensures StateAfter(env, Visited(env, candles)).Ok? && StateAfter(env, Visited(env, candles)).value.lastCandle.Some?
    ensures
      var s, f := StateAfter(env, Visited(env, candles)).value, Run(env, candles, cancelAtEnd).value;
      && f.halt == s.halt
      && (f.halt ==> exists i :: 0 <= i < |f.equity| && Breaches(env.cfg, f.equity[i]))
      && (!ForcesClose(env, s) ==> Explained(env.cfg, f))
      && (ForcesClose(env, s) ==>
            (Explained(env.cfg, f) <==>
              (f.halt || !TooDeep(env.cfg, LiquidationDrawdown(env.cfg, s.book.portfolio, s.lastCandle.value.close)))))
  {
    hide StateAfter, Visited, Conclude, Explained, RunInv, FinalInv, Replays, LiquidationDrawdown, Grows, TooDeep;
    var cs := Visited(env, candles);
    var s := StateAfter(env, cs).value;
    HaltIsExplained(env, cs);
    EveryStateIsSound(env, cs);
    EveryStateReplays(env, cs);
    RunsNeverAccuseTheirBooks(env, candles, cancelAtEnd);
    LastCandleIsKnown(env, s, cancelAtEnd);
    var f := Conclude(env, s, cancelAtEnd).value;
    if ForcesClose(env, s) {
      RewrittenPointDeepens(env, s, cancelAtEnd);
      RewrittenCurveExplains(env.cfg, s, f);
    } else {
      ConclusionKeepsCurve(env, s, cancelAtEnd);
      SameCurveExplains(env.cfg, s, f);
    }
  }

  lemma {:induction false} LastCandleIsKnown(env: Env, s: State, cancelAtEnd: bool)
    requires Conclude(env, s, cancelAtEnd).Ok?
    ensures s.lastCandle.Some?
  {}

  lemma {:induction false} SameCurveExplains(cfg: Config, s: State, f: State)
    requires Explained(cfg, s) && f.halt == s.halt && f.equity == s.equity
    ensures Explained(cfg, f) && (f.halt ==> exists i :: 0 <= i < |f.equity| && Breaches(cfg, f.equity[i]))
  {}

  lemma {:induction false} RewrittenCurveExplains(cfg: Config, s: State, f: State)
    requires Explained(cfg, s) && f.halt == s.halt && s.equity != [] && |f.equity| == |s.equity|
    requires f.equity[..|s.equity| - 1] == s.equity[..|s.equity| - 1]
    requires s.equity[|s.equity| - 1].drawdownPct <= f.equity[|s.equity| - 1].drawdownPct
    ensures f.halt ==> exists i :: 0 <= i < |f.equity| && Breaches(cfg, f.equity[i])
    ensures Explained(cfg, f) <==> (f.halt || !Breaches(cfg, f.equity[|f.equity| - 1]))
  {
    var n := |s.equity| - 1;
    assert forall i :: 0 <= i < n ==> f.equity[..n][i] == s.equity[..n][i];
    assert forall i :: 0 <= i < n ==> f.equity[i] == s.equity[i];
    if f.halt {
      var i :| 0 <= i <= n && Breaches(cfg, s.equity[i]);
      assert Breaches(cfg, f.equity[i]);
    } else {
      assert forall i :: 0 <= i < n ==> !Breaches(cfg, f.equity[i]);
    }
  }
}
