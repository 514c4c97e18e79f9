/** The regimes a run publishes are exactly what a rebuild from the snapshot yields. */
module RunRegimes {
  import opened Domain
  import opened Accounting
  import opened Risk
  import opened Ledger
  import opened Indicators
  import opened Regime
  import opened CandleFeed
  import opened Strategy
  import opened EngineSpec
  import opened BookInvariant
  import opened RunInvariant
  import opened RunSafety
  import opened RunConclusion
  import opened RunTheorems
  import opened ReplayTheorems
  import opened Timing
  import opened RegimeArtifacts

  /** Equity point `i` is dated and priced by the candle `skipped` places later. */
  predicate Aligned(cs: seq<Candle>, equity: seq<EquityPoint>, skipped: int) {
    && 0 <= skipped && skipped + |equity| == |cs|
    && forall i :: 0 <= i < |equity| ==>
         equity[i].time == cs[skipped + i].closeTime && equity[i].close == cs[skipped + i].close
  }

  predicate EvaluationIsSuffix(env: Env, cs: seq<Candle>, skipped: nat) {
    forall j :: 0 <= j < |cs| ==> (cs[j].openTime < env.cfg.evaluationStart <==> j < skipped)
  }

  /** The published slice after the candles `cs`: the last points of the whole stream. */
  predicate Observed(env: Env, cs: seq<Candle>, s: State)
    requires env.cfg.regime.Some?
  {
    var stream := ObserveAll(env.R, env.cfg.regime.value, cs);
    && stream.Ok? && s.accumulator == Some(stream.value.state)
    && s.processed <= |cs|
    && s.regimes == stream.value.points[|cs| - s.processed..]
    && |s.equity| == s.processed
    && Aligned(cs, s.equity, |cs| - s.processed) && EvaluationIsSuffix(env, cs, |cs| - s.processed)
  }

  lemma {:induction false} EvaluationAppends(env: Env, s: State, c: Candle, regime: Option<RegimePoint>)
    requires EvaluateCandle(env, s, c, regime).Ok?
    ensures var s' := EvaluateCandle(env, s, c, regime).value;
      && s'.accumulator == s.accumulator && s'.processed == s.processed + 1
      && s'.regimes == (if regime.Some? then s.regimes + [regime.value] else s.regimes)
      && |s'.equity| == |s.equity| + 1 && s.equity <= s'.equity
      && s'.equity[|s.equity|].time == c.closeTime && s'.equity[|s.equity|].close == c.close
  {
    hide TradeCandle, MarkToMarket, RecordMark, HaltRequired;
    TradeKeepsFeed(env, s, c);
  }

  lemma {:induction false} WarmupAppendsNothing(env: Env, s: State, c: Candle, regime: Option<RegimePoint>)
    requires WarmupCandle(env, s, c, regime).Ok?
    ensures var s' := WarmupCandle(env, s, c, regime).value;
      s'.accumulator == s.accumulator && s'.processed == s.processed && s'.regimes == s.regimes && s'.equity == s.equity
  {}

  lemma {:induction false} StepObserved(env: Env, cs: seq<Candle>, s: State, c: Candle)
    requires env.cfg.regime.Some? && RunInv(env, s) && Observed(env, cs, s) && StepCandle(env, s, c).Ok?
    ensures Observed(env, cs + [c], StepCandle(env, s, c).value)
  {
    hide EvaluateCandle, WarmupCandle, Observe, BookInv, CallsOk, HistoryOk, Punctual, Aligned, EvaluationIsSuffix,
      AccumulatorOk, EndsAt, EquityIndexed;
    var all := cs + [c];
    assert all[..|all| - 1] == cs;
    var stream := ObserveAll(env.R, env.cfg.regime.value, cs).value;
    var o := Observe(env.R, env.cfg.regime.value, stream.state, c).value;
    var s1 := Admitted(s, c, Some(o.state));
    var s' := StepCandle(env, s, c).value;
    if c.openTime < env.cfg.evaluationStart {
      WarmupAppendsNothing(env, s1, c, Some(o.point));
      WarmupStaysAligned(env, cs, c, s.equity);
    } else {
      EvaluationAppends(env, s1, c, Some(o.point));
      EvaluationStaysAligned(env, cs, c, s.equity, s'.equity);
    }
  }

  lemma {:induction false} WarmupStaysAligned(env: Env, cs: seq<Candle>, c: Candle, equity: seq<EquityPoint>)
    requires equity == [] && EvaluationIsSuffix(env, cs, |cs|) && c.openTime < env.cfg.evaluationStart
    ensures Aligned(cs + [c], equity, |cs| + 1) && EvaluationIsSuffix(env, cs + [c], |cs| + 1)
  {}

  lemma {:induction false} EvaluationStaysAligned(env: Env, cs: seq<Candle>, c: Candle, a: seq<EquityPoint>,
                                                  b: seq<EquityPoint>)
    requires |a| <= |cs| && Aligned(cs, a, |cs| - |a|) && EvaluationIsSuffix(env, cs, |cs| - |a|)
    requires c.openTime >= env.cfg.evaluationStart
    requires |b| == |a| + 1 && a <= b && b[|a|].time == c.closeTime && b[|a|].close == c.close
    ensures Aligned(cs + [c], b, |cs| - |a|) && EvaluationIsSuffix(env, cs + [c], |cs| - |a|)
  {
    assert forall i :: 0 <= i < |a| ==> b[i] == a[i];
  }

  lemma {:induction false} StartObserved(env: Env)
    requires env.cfg.regime.Some? && Start(env).Ok?
    ensures Observed(env, [], Start(env).value)
  {}

  lemma {:induction false} EveryStateObserved(env: Env, cs: seq<Candle>)
    requires env.cfg.regime.Some? && StateAfter(env, cs).Ok?
    ensures Observed(env, cs, StateAfter(env, cs).value)
  {
    hide StepCandle, Start, Observed, RunInv;
    if cs == [] {
      StartObserved(env);
    } else {
      var rest := cs[..|cs| - 1];
      EveryStateObserved(env, rest);
      EveryStateIsSound(env, rest);
      StepObserved(env, rest, StateAfter(env, rest).value, cs[|cs| - 1]);
      assert rest + [cs[|cs| - 1]] == cs;
    }
  }

  lemma {:induction false} SuffixIsEvaluated(range: DataRange, cs: seq<Candle>, points: seq<RegimePoint>, skipped: nat)
    requires |cs| == |points| && skipped <= |cs|
    requires forall j :: 0 <= j < |cs| ==> (Evaluated(range, cs[j]) <==> j >= skipped)
    ensures EvaluatedPoints(range, cs, points) == points[skipped..]
  {
    if |cs| > skipped {
      SuffixIsEvaluated(range, cs[..|cs| - 1], points[..|cs| - 1], skipped);
    } else if cs != [] {
      SuffixIsEvaluated(range, cs[..|cs| - 1], points[..|cs| - 1], skipped - 1);
    }
  }

  lemma {:induction false} ConclusionStaysAligned(env: Env, cs: seq<Candle>, s: State, cancelAtEnd: bool)
    requires Aligned(cs, s.equity, |cs| - |s.equity|) && RunInv(env, s) && Conclude(env, s, cancelAtEnd).Ok?
    requires s.processed > 0 ==> cs != [] && s.lastCandle == Some(cs[|cs| - 1])
    ensures var f := Conclude(env, s, cancelAtEnd).value;
      |f.equity| == |s.equity| && Aligned(cs, f.equity, |cs| - |s.equity|)
  {
    hide Conclude, BookInv, CallsOk, HistoryOk, Punctual, ForcedFill, ApplyFill, MarkToMarket;
    if ForcesClose(env, s) {
      ForcedConclusion(env, s, cancelAtEnd);
    } else {
      ConclusionKeepsCurve(env, s, cancelAtEnd);
    }
  }

  lemma {:induction false} SliceIsOk(R: Arithmetic, policy: RegimePolicy, cs: seq<Candle>, equity: seq<EquityPoint>)
    requires |equity| <= |cs| && Aligned(cs, equity, |cs| - |equity|) && ObserveAll(R, policy, cs).Ok?
    ensures ObservationsOk(R, policy, ObserveAll(R, policy, cs).value.points[|cs| - |equity|..], equity)
  {
    hide ObserveAll, Accumulated;
    StreamFits(R, policy, cs);
    var points, k := ObserveAll(R, policy, cs).value.points, |cs| - |equity|;
    var slice := points[k..];
    forall i | 0 <= i < |slice| ensures PointMatches(R, policy, slice[i], equity[i]) {
      assert PointFits(R, policy, points[k + i], cs[k + i], k + i);
    }
    forall i, j | 0 <= i < j < |slice| && slice[j].kind == Warmup ensures slice[i].kind == Warmup {
      assert PointFits(R, policy, points[k + i], cs[k + i], k + i)
        && PointFits(R, policy, points[k + j], cs[k + j], k + j);
    }
  }

  /** Without a policy nothing is ever observed. */
  lemma {:induction false} NoPolicyNoRegimes(env: Env, cs: seq<Candle>)
    requires env.cfg.regime.None? && StateAfter(env, cs).Ok?
    ensures StateAfter(env, cs).value.regimes == []
  {
    hide EvaluateCandle, WarmupCandle;
    if cs != [] {
      var rest, c := cs[..|cs| - 1], cs[|cs| - 1];
      NoPolicyNoRegimes(env, rest);
      var s := StateAfter(env, rest).value;
      var s1 := Admitted(s, c, s.accumulator);
      if c.openTime < env.cfg.evaluationStart {
        WarmupAppendsNothing(env, s1, c, None);
      } else {
        EvaluationAppends(env, s1, c, None);
      }
    }
  }

  /** Every run with a regime policy publishes exactly what the rebuild from its candles yields, and
      that slice passes revalidation against the published curve. */
  lemma {:induction false} RunsPublishRebuiltRegimes(env: Env, candles: seq<Candle>, cancelAtEnd: bool)
    requires env.cfg.regime.Some? && env.cfg.RangesNest()
    requires Run(env, candles, cancelAtEnd).Ok?
    ensures var f, policy := Run(env, candles, cancelAtEnd).value, env.cfg.regime.value;
      && Rebuild(env.R, policy, candles, ContextRange(env), EvaluationRange(env)) == Ok(f.regimes)
      && ObservationsOk(env.R, policy, f.regimes, f.equity)
  {
    hide StateAfter, Conclude, ObserveAll, RunInv, FinalInv, ObservationsOk, Aligned, Grows;
    var cs := Visited(env, candles);
    var s := StateAfter(env, cs).value;
    EveryStateIsSound(env, cs);
    EveryStateObserved(env, cs);
    RunsNeverAccuseTheirBooks(env, candles, cancelAtEnd);
    NothingProcessedBeforeEvaluation(env, cs);
    ConclusionStaysAligned(env, cs, s, cancelAtEnd);
    ReadStaysInRange(ContextRange(env), candles);
    SuffixIsEvaluated(EvaluationRange(env), cs, ObserveAll(env.R, env.cfg.regime.value, cs).value.points,
      |cs| - s.processed);
    SliceIsOk(env.R, env.cfg.regime.value, cs, Run(env, candles, cancelAtEnd).value.equity);
  }

  /** Under settled arithmetic the published slice is the end of the whole-series detection. */
  lemma {:induction false} PublishedRegimesAreBatch(env: Env, candles: seq<Candle>, cancelAtEnd: bool)
    requires env.cfg.regime.Some? && Settled(env.R) && Run(env, candles, cancelAtEnd).Ok?
    ensures var cs, f, policy := Visited(env, candles), Run(env, candles, cancelAtEnd).value, env.cfg.regime.value;
      && Detectable(env.R, policy, cs) && f.processed <= |cs|
      && f.regimes == BatchPoints(env.R, policy, cs)[|cs| - f.processed..]
  {
    hide StateAfter, Conclude, ObserveAll, RunInv, FinalInv, Aligned, Grows, Visited, Detectable;
    var cs := Visited(env, candles);
    EveryStateObserved(env, cs);
    RunsNeverAccuseTheirBooks(env, candles, cancelAtEnd);
    IncrementalEqualsBatch(env.R, env.cfg.regime.value, cs);
  }
}
