/** The curve of a run: one point for every evaluated candle, at its close, that adds up. */
module RunCurve {
  import opened Domain
  import opened Accounting
  import opened Risk
  import opened Ledger
  import opened Regime
  import opened Strategy
  import opened EngineSpec
  import opened RunSafety
  import opened RunConclusion
  import opened Replay
  import opened ReplayTheorems
  import opened Timing
  import opened AcceptedTables
  import opened AcceptanceMeans
  import opened RunRecord

  /** One point per candle, at its close. */
  predicate DrawnFrom(equity: seq<EquityPoint>, ks: seq<Candle>) {
    && |equity| == |ks|
    && forall i :: 0 <= i < |ks| ==>
         equity[i].candleIndex == i && equity[i].time == ks[i].closeTime && equity[i].close == ks[i].close
  }

  lemma {:induction false} EvaluationDraws(env: Env, s: State, c: Candle, regime: Option<RegimePoint>)
    requires EvaluateCandle(env, s, c, regime).Ok?
    ensures var s' := EvaluateCandle(env, s, c, regime).value;
      && |s'.equity| == |s.equity| + 1 && s.equity <= s'.equity
      && var e := s'.equity[|s.equity|];
      e.candleIndex == s.processed && e.time == c.closeTime && e.close == c.close
  {
    hide TradeCandle, MarkToMarket, RecordMark, HaltRequired, FinishCandle;
    TradeKeepsFeed(env, s, c);
    var s2 := TradeCandle(env, s, c).value;
    var s3 := CloseCandle(env, s2, c).value;
    FinishKeepsPoints(env, s3, c, regime);
    assert s3.equity[|s.equity|] == PointOf(s.processed, c, s3.book.portfolio);
  }

  lemma {:induction false} FinishKeepsPoints(env: Env, s: State, c: Candle, regime: Option<RegimePoint>)
    requires FinishCandle(env, s, c, regime).Ok?
    ensures FinishCandle(env, s, c, regime).value.equity == s.equity
  {
    hide View, Push;
  }

  /** After every candle the curve is drawn from the evaluated candles. */
  lemma {:induction false} EveryCurveIsDrawn(env: Env, cs: seq<Candle>)
    requires StateAfter(env, cs).Ok?
    ensures DrawnFrom(StateAfter(env, cs).value.equity, EvaluatedCandles(env, cs))
  {
    hide StepCandle, RunInv;
    if cs != [] {
      var rest, c := cs[..|cs| - 1], cs[|cs| - 1];
      EveryCurveIsDrawn(env, rest);
      EveryStateIsRecorded(env, rest);
      var s := StateAfter(env, rest).value;
      StepDraws(env, s, c);
    }
  }

  lemma {:induction false} StepDraws(env: Env, s: State, c: Candle)
    requires StepCandle(env, s, c).Ok?
    ensures var s' := StepCandle(env, s, c).value;
      if c.openTime < env.cfg.evaluationStart then s'.equity == s.equity
      else
        && |s'.equity| == |s.equity| + 1 && s.equity <= s'.equity
        && var e := s'.equity[|s.equity|];
        e.candleIndex == s.processed && e.time == c.closeTime && e.close == c.close
  {
    hide EvaluateCandle, WarmupCandle, Observe, CheckCandle;
    var observed := ObserveRegime(env, s.accumulator, c).value;
    var s1 := Admitted(s, c, observed.accumulator);
    if c.openTime < env.cfg.evaluationStart {
      WarmupKeepsCurve(env, s1, c, observed.point);
    } else {
      EvaluationDraws(env, s1, c, observed.point);
    }
  }

  lemma {:induction false} SettledPointAddsUp(p: Portfolio, c: Candle, index: nat, capital: Positive)
    requires Sound(p) && p.initial == capital <= p.peak && p.base == 0.0 && p.equity == p.cash + p.base * c.close
    ensures PointAddsUp(PointOf(index, c, p), capital)
  {
    hide DrawdownPct;
    DrawdownIsPercent(p.peak, p.drawdown);
  }

  lemma {:induction false} ForcedPointAddsUp(env: Env, s: State, cancelAtEnd: bool)
    requires RunInv(env, s) && Replays(env.cfg, s) && ForcesClose(env, s) && Conclude(env, s, cancelAtEnd).Ok?
    requires Indexed(s.equity)
    ensures var f := Conclude(env, s, cancelAtEnd).value;
      && s.processed > 0 && s.lastCandle.Some? && |f.equity| == |s.equity| > 0
      && (forall i :: 0 <= i < |s.equity| - 1 ==> f.equity[i] == s.equity[i])
      && PointAddsUp(f.equity[|f.equity| - 1], env.cfg.capital)
      && f.equity[|f.equity| - 1] == PointOf(s.processed - 1, s.lastCandle.value, f.book.portfolio)
  {
    hide Conclude, RunInv, ApplyFill, MarkToMarket, ForcedFill, ReplayTo, Sound, PointAddsUp, FinalInv;
    ForcedConclusion(env, s, cancelAtEnd);
    ConcludeKeeps(env, s, cancelAtEnd);
    var f := Conclude(env, s, cancelAtEnd).value;
    CurveMeans(env.cfg.capital, s.book.fills, s.equity);
    var fill, c := ForcedFill(env, s).value, s.lastCandle.value;
    ApplyFillAccepts(s.book.portfolio, fill);
    var sold := ApplyFill(s.book.portfolio, fill).value.after;
    MarkStaysSound(sold, c.close);
    MarkedWorth(sold, c.close);
    ForcedIsFlat(env, f, cancelAtEnd);
    SettledPointAddsUp(f.book.portfolio, c, s.processed - 1, env.cfg.capital);
  }

  lemma {:induction false} MarkedWorth(p: Portfolio, price: real)
    ensures var m := Marked(p, price);
      m.equity == m.cash + m.base * price && p.peak <= m.peak && m.initial == p.initial
  {
    hide DrawdownPct;
  }

  lemma {:induction false} ForcedIsFlat(env: Env, f: State, cancelAtEnd: bool)
    requires FinalInv(env, f, cancelAtEnd) && env.cfg.forceClose
    ensures f.book.portfolio.base == 0.0
  {}

  /** Every point a finished run publishes is drawn at the close of its candle and adds up. */
  lemma {:induction false} RunCurvesAddUp(env: Env, candles: seq<Candle>, cancelAtEnd: bool)
    requires Run(env, candles, cancelAtEnd).Ok?
    ensures var f := Run(env, candles, cancelAtEnd).value;
      && DrawnFrom(f.equity, EvaluatedCandles(env, Visited(env, candles)))
      && forall i :: 0 <= i < |f.equity| ==> PointAddsUp(f.equity[i], env.cfg.capital)
  {
    hide StateAfter, Visited, Conclude, RunInv, ReplayTo, PointAddsUp, Sound, EvaluatedCandles, RecordKept;
    var cs := Visited(env, candles);
    var s, f := StateAfter(env, cs).value, Run(env, candles, cancelAtEnd).value;
    EveryStateIsSound(env, cs);
    EveryStateReplays(env, cs);
    EveryCurveIsDrawn(env, cs);
    CurveMeans(env.cfg.capital, s.book.fills, s.equity);
    forall i: nat | i < |s.equity| ensures PointAddsUp(s.equity[i], env.cfg.capital) {
      assert PointReplayed(env.cfg.capital, s.book.fills, s.equity, i);
    }
    if ForcesClose(env, s) {
      ForcedPointAddsUp(env, s, cancelAtEnd);
      LastEvaluated(env, cs);
    } else {
      ConclusionKeepsCurve(env, s, cancelAtEnd);
    }
  }
}
