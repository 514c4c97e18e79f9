/** The verifier's replay refines the engine: exactly, until a forced close hides a peak. */
module ReplayTheorems {
  import opened Domain
  import opened RealArithmetic
  import opened Accounting
  import opened Execution
  import opened Risk
  import opened Ledger
  import opened Regime
  import opened Strategy
  import opened EngineSpec
  import opened OrderTable
  import opened BookInvariant
  import opened RunInvariant
  import opened RunSafety
  import opened Replay

  // Fills of one candle do not disturb the replay of another

  lemma {:induction false} FillsAtJoin(a: seq<Fill>, b: seq<Fill>, index: int)
    ensures FillsAt(a + b, index) == FillsAt(a, index) + FillsAt(b, index)
    decreases |b|
  {
    if b == [] {
      assert a + b == a;
    } else {
      assert (a + b)[..|a + b| - 1] == a + b[..|b| - 1];
      FillsAtJoin(a, b[..|b| - 1], index);
    }
  }

  lemma {:induction false} FillsAtElsewhere(fills: seq<Fill>, index: int)
    requires forall j :: 0 <= j < |fills| ==> fills[j].candleIndex != index
    ensures FillsAt(fills, index) == []
  {
    if fills != [] { FillsAtElsewhere(fills[..|fills| - 1], index); }
  }

  lemma {:induction false} FillsAtOne(fills: seq<Fill>, index: int)
    requires forall j :: 0 <= j < |fills| ==> fills[j].candleIndex == index
    ensures FillsAt(fills, index) == fills
  {
    if fills != [] { FillsAtOne(fills[..|fills| - 1], index); }
  }

  lemma {:induction false} LaterFillsIgnored(capital: Positive, fills: seq<Fill>, more: seq<Fill>,
                                             equity: seq<EquityPoint>)
    requires forall i, j :: 0 <= i < |equity| && 0 <= j < |more| ==> more[j].candleIndex != equity[i].candleIndex
    ensures ReplayTo(capital, fills + more, equity) == ReplayTo(capital, fills, equity)
  {
    hide FillsAt, ApplyAll, MarkToMarket, Matches;
    if equity != [] {
      LaterFillsIgnored(capital, fills, more, equity[..|equity| - 1]);
      var index := equity[|equity| - 1].candleIndex;
      FillsAtJoin(fills, more, index);
      FillsAtElsewhere(more, index);
      assert FillsAt(fills, index) + [] == FillsAt(fills, index);
    }
  }

  // The replay agrees with the engine after every candle

  predicate Replays(cfg: Config, s: State) {
    && ReplayTo(cfg.capital, s.book.fills, s.equity) == Ok(s.book.portfolio)
    && (s.processed > 0 ==>
          && s.lastCandle.Some? && |s.equity| == s.processed
          && s.equity[|s.equity| - 1].close == s.lastCandle.value.close
          && s.equity[|s.equity| - 1].time == s.lastCandle.value.closeTime)
  }

  /** The curve point of a candle is what marking its folded fills gives. */
  lemma {:induction false} ClosingReplays(env: Env, s: State, s2: State, c: Candle)
    requires ReplayTo(env.cfg.capital, s.book.fills, s.equity) == Ok(s.book.portfolio)
    requires EquityIndexed(s.equity) && |s.equity| == s.processed && NoneAfter(s.book.fills, s.processed - 1)
    requires Folds(s.book, s2.book, s.processed, c.openTime) && s2.processed == s.processed && s2.equity == s.equity
    requires CloseCandle(env, s2, c).Ok?
    ensures var s3 := CloseCandle(env, s2, c).value;
      ReplayTo(env.cfg.capital, s3.book.fills, s3.equity) == Ok(s3.book.portfolio)
  {
    hide FillsAt, ApplyAll, RecordMark, HaltRequired, CancelSwept, Checked, Marked;
    var recent := s2.book.fills[|s.book.fills|..];
    assert s2.book.fills == s.book.fills + recent;
    LaterFillsIgnored(env.cfg.capital, s.book.fills, recent, s.equity);
    FillsAtJoin(s.book.fills, recent, s.processed);
    FillsAtElsewhere(s.book.fills, s.processed);
    FillsAtOne(recent, s.processed);
    var s3 := CloseCandle(env, s2, c).value;
    assert s3.equity[..|s3.equity| - 1] == s.equity;
    assert FillsAt(s2.book.fills, s.processed) == recent;
  }

  lemma {:induction false} EvaluatedCandleReplays(env: Env, s: State, c: Candle, regime: Option<RegimePoint>)
    requires CandleReady(env, s, c) && RegimeFits(regime, c) && env.cfg.evaluationStart <= c.openTime
    requires ReplayTo(env.cfg.capital, s.book.fills, s.equity) == Ok(s.book.portfolio)
    requires EvaluateCandle(env, s, c, regime).Ok?
    ensures Replays(env.cfg, EvaluateCandle(env, s, c, regime).value)
  {
    hide TradeCandle, CloseCandle, FinishCandle, BookInv, CallsOk, HistoryOk, Punctual, AccumulatorOk, ReplayTo,
      Evolves;
    var s2 := TradeCandle(env, s, c).value;
    TradeCandleFolds(env, s, c);
    TradeCandleKeeps(env, s, c);
    var s3 := CloseCandle(env, s2, c).value;
    CloseCandleKeeps(env, s2, c);
    ReadyHasNoLaterFills(env, s, c);
    ClosingReplays(env, s, s2, c);
    FinishCandleKeeps(env, s3, c, regime);
    FinishKeepsCandle(env, s3, c, regime);
  }

  lemma {:induction false} ReadyHasNoLaterFills(env: Env, s: State, c: Candle)
    requires CandleReady(env, s, c)
    ensures NoneAfter(s.book.fills, s.processed - 1)
  {}

  lemma {:induction false} FinishKeepsCandle(env: Env, s: State, c: Candle, regime: Option<RegimePoint>)
    requires FinishCandle(env, s, c, regime).Ok?
    ensures FinishCandle(env, s, c, regime).value.lastCandle == s.lastCandle
  {}

  lemma {:induction false} StepReplays(env: Env, s: State, c: Candle)
    requires RunInv(env, s) && Replays(env.cfg, s) && StepCandle(env, s, c).Ok?
    ensures Replays(env.cfg, StepCandle(env, s, c).value)
  {
    hide EvaluateCandle, WarmupCandle, BookInv, CallsOk, HistoryOk, Punctual, ReplayTo;
    ObserveRegimeFits(env, s.accumulator, c);
    var observed := ObserveRegime(env, s.accumulator, c).value;
    var s1 := Admitted(s, c, observed.accumulator);
    AdmitKeeps(env, s, c, observed.accumulator);
    if c.openTime < env.cfg.evaluationStart {
      WarmupKeepsCurve(env, s1, c, observed.point);
    } else {
      EvaluatedCandleReplays(env, s1, c, observed.point);
    }
  }

  lemma {:induction false} WarmupKeepsCurve(env: Env, s: State, c: Candle, regime: Option<RegimePoint>)
    requires WarmupCandle(env, s, c, regime).Ok?
    ensures var s' := WarmupCandle(env, s, c, regime).value;
      s'.book == s.book && s'.equity == s.equity && s'.processed == s.processed && s'.lastCandle == s.lastCandle
  {}

  lemma {:induction false} StartReplays(env: Env)
    requires Start(env).Ok?
    ensures Replays(env.cfg, Start(env).value)
  {}

  /** After every candle of every run the replay rebuilds the engine's portfolio exactly. */
  lemma {:induction false} EveryStateReplays(env: Env, cs: seq<Candle>)
    requires StateAfter(env, cs).Ok?
    ensures Replays(env.cfg, StateAfter(env, cs).value)
  {
    hide StepCandle, Start, Replays, RunInv;
    if cs == [] {
      StartReplays(env);
    } else {
      var rest := cs[..|cs| - 1];
      EveryStateReplays(env, rest);
      EveryStateIsSound(env, rest);
      StepReplays(env, StateAfter(env, rest).value, cs[|cs| - 1]);
    }
  }

  // The end of a run without a forced close

  predicate ForcesClose(env: Env, s: State) { env.cfg.forceClose && s.book.portfolio.base > 0.0 }

  lemma {:induction false} ConclusionKeepsCurve(env: Env, s: State, cancelAtEnd: bool)
    requires !ForcesClose(env, s) && Conclude(env, s, cancelAtEnd).Ok?
    ensures var f := Conclude(env, s, cancelAtEnd).value;
      f.book.fills == s.book.fills && f.equity == s.equity && f.book.portfolio == s.book.portfolio
  {}

  /** What a run publishes for the verifier. */
  predicate Published(env: Env, f: State) {
    Reconstructs(env.cfg.capital, f.book.fills, f.equity, f.book.portfolio.View())
  }

  /** Without a forced close the verifier's replay accepts every finished run. */
  lemma {:induction false} RunsReplay(env: Env, candles: seq<Candle>, cancelAtEnd: bool)
    requires Run(env, candles, cancelAtEnd).Ok?
    requires StateAfter(env, Visited(env, candles)).Ok? ==>
      !ForcesClose(env, StateAfter(env, Visited(env, candles)).value)
    ensures Published(env, Run(env, candles, cancelAtEnd).value)
  {
    hide StateAfter, Visited, Conclude, ReplayTo;
    EveryStateReplays(env, Visited(env, candles));
    ConclusionKeepsCurve(env, StateAfter(env, Visited(env, candles)).value, cancelAtEnd);
  }

  // The end of a run with a forced close

  /** The replayed portfolio just before the last point is marked. */
  function BeforeLastMark(capital: Positive, fills: seq<Fill>, equity: seq<EquityPoint>): Outcome<Portfolio>
    requires equity != []
  {
    var before :- ReplayTo(capital, fills, equity[..|equity| - 1]);
    ApplyAll(before, FillsAt(fills, equity[|equity| - 1].candleIndex))
  }

  /** Equal but for the history of the peak. */
  predicate SameButPeak(a: Portfolio, b: Portfolio) {
    a == b.(peak := a.peak, drawdown := a.drawdown, drawdownPct := a.drawdownPct)
  }

  /** A portfolio that has sold its whole position, marked at any price. */
  function Flattened(p: Portfolio, f: Fill, price: real): Portfolio {
    var cash := p.cash + (f.notional - f.fee);
    var peak := Max(p.peak, cash);
    p.(cash := cash, base := 0.0, cost := 0.0, average := 0.0,
       realized := p.realized + (f.notional - f.fee - p.cost), unrealized := 0.0,
       fees := p.fees + f.fee, slippage := p.slippage + f.slippage,
       equity := cash, peak := peak, drawdown := peak - cash,
       drawdownPct := DrawdownPct(peak, peak - cash), lastMark := Some(price))
  }

  lemma {:induction false} SellingOutFlattens(p: Portfolio, f: Fill, close: real)
    requires Sound(p) && 0.0 < close
    requires f.side == Sell && f.quantity == p.base && f.fee <= f.notional
    ensures ApplyFill(p, f).Ok?
    ensures MarkToMarket(ApplyFill(p, f).value.after, close) == Ok(Flattened(p, f, close))
  {
    hide DrawdownPct;
    ApplyFillAccepts(p, f);
    var a := ApplyFill(p, f).value.after;
    assert a == Marked(Sold(p, f), f.price);
    MarkKeepsSound(a, close);
    assert Sold(p, f).base == 0.0;
    assert a == Flattened(p, f, f.price);
    assert Marked(a, close) == Flattened(p, f, close);
  }

  /** The replay sells from the unmarked portfolio, the engine from the marked one. */
  lemma {:induction false} SoldBeforeOrAfterMark(p: Portfolio, f: Fill, close: real)
    requires Sound(p) && 0.0 < close
    requires f.side == Sell && f.quantity == p.base && f.fee <= f.notional
    ensures ApplyFill(p, f).Ok? && ApplyFill(Marked(p, close), f).Ok?
    ensures MarkToMarket(ApplyFill(p, f).value.after, close) == Ok(Flattened(p, f, close))
    ensures MarkToMarket(ApplyFill(Marked(p, close), f).value.after, close) == Ok(Flattened(Marked(p, close), f, close))
    ensures SameButPeak(Flattened(p, f, close), Flattened(Marked(p, close), f, close))
  {
    MarkKeepsSound(p, close);
    SellingOutFlattens(p, f, close);
    SellingOutFlattens(Marked(p, close), f, close);
  }

  /** Selling at the close less slippage and fee never beats the mark, and equals it only when
      both are zero. */
  lemma {:induction false} LiquidationNeverBeatsMark(base: real, close: real, slip: real, rate: real, price: real,
                                                     notional: real, fee: real)
    requires 0.0 < base && 0.0 < close && 0.0 <= slip <= 0.1 && 0.0 <= rate <= 0.1
    requires price == close * (1.0 - slip) && notional == base * price && fee == notional * rate
    ensures notional - fee <= base * close
    ensures notional - fee == base * close <==> slip == 0.0 && rate == 0.0
  {
    var kept := (1.0 - slip) * (1.0 - rate);
    ProductMonotone(1.0 - slip, 1.0, 1.0 - rate);
    assert kept <= 1.0 - rate;
    assert kept == 1.0 - slip - rate * (1.0 - slip);
    var full := base * close;
    assert notional - fee == full * kept by {
      assert notional == full * (1.0 - slip);
      assert notional - fee == notional * (1.0 - rate);
    }
    assert 0.0 < full;
    ProductMonotone(kept, 1.0, full);
  }

  lemma {:induction false} ApplyAllKeepsSound(p: Portfolio, fills: seq<Fill>)
    requires Sound(p) && ApplyAll(p, fills).Ok?
    ensures Sound(ApplyAll(p, fills).value)
  {
    hide ApplyFill, Sound;
    if fills != [] {
      var rest := fills[..|fills| - 1];
      ApplyAllKeepsSound(p, rest);
      ApplyFillAccepts(ApplyAll(p, rest).value, fills[|fills| - 1]);
    }
  }

  lemma {:induction false} ReplayKeepsSound(capital: Positive, fills: seq<Fill>, equity: seq<EquityPoint>)
    requires ReplayTo(capital, fills, equity).Ok?
    ensures Sound(ReplayTo(capital, fills, equity).value)
  {
    hide ApplyAll, Matches;
    if equity != [] {
      var rest, point := equity[..|equity| - 1], equity[|equity| - 1];
      ReplayKeepsSound(capital, fills, rest);
      var before := ReplayTo(capital, fills, rest).value;
      var due := FillsAt(fills, point.candleIndex);
      ApplyAllKeepsSound(before, due);
      MarkKeepsSound(ApplyAll(before, due).value, point.close);
    }
  }

  /** The engine's portfolio after a candle is the replayed one, marked at that candle's close. */
  lemma {:induction false} LastMarkPeels(cfg: Config, s: State)
    requires Replays(cfg, s) && s.processed > 0
    ensures BeforeLastMark(cfg.capital, s.book.fills, s.equity).Ok?
    ensures var p := BeforeLastMark(cfg.capital, s.book.fills, s.equity).value;
      && Sound(p) && 0.0 < s.lastCandle.value.close
      && s.book.portfolio == Marked(p, s.lastCandle.value.close)
  {
    hide ApplyAll, Matches, Sound;
    var rest, point := s.equity[..|s.equity| - 1], s.equity[|s.equity| - 1];
    ReplayKeepsSound(cfg.capital, s.book.fills, rest);
    var before := ReplayTo(cfg.capital, s.book.fills, rest).value;
    ApplyAllKeepsSound(before, FillsAt(s.book.fills, point.candleIndex));
  }

  /** Replaying a curve whose last point was rewritten for one more fill of its candle. */
  lemma {:induction false} RewrittenPointReplays(capital: Positive, fills: seq<Fill>, equity: seq<EquityPoint>, f: Fill,
                                                 point: EquityPoint)
    requires EquityIndexed(equity) && equity != [] && f.candleIndex == point.candleIndex == |equity| - 1
    requires BeforeLastMark(capital, fills, equity).Ok?
    ensures
      var more, rewritten := fills + [f], equity[..|equity| - 1] + [point];
      var p := BeforeLastMark(capital, fills, equity).value;
      && BeforeLastMark(capital, more, rewritten) == ApplyAll(p, [f])
      && ReplayTo(capital, more, rewritten) ==
           (var filled :- ApplyAll(p, [f]);
            var marked :- MarkToMarket(filled, point.close);
            if Matches(marked, point) then Ok(marked) else Err(ResultCorrupt))
  {
    hide ApplyAll, FillsAt, MarkToMarket, Matches;
    var more, rewritten := fills + [f], equity[..|equity| - 1] + [point];
    var rest := equity[..|equity| - 1];
    assert rewritten[..|rewritten| - 1] == rest;
    LaterFillsIgnored(capital, fills, [f], rest);
    FillsAtJoin(fills, [f], point.candleIndex);
    FillsAtOne([f], point.candleIndex);
    ApplyAllJoins(ReplayTo(capital, fills, rest).value, FillsAt(fills, point.candleIndex), [f]);
  }

  /** The liquidation fill a forced close books. */
  function ForcedFill(env: Env, s: State): Outcome<Fill>
    requires ForcesClose(env, s) && s.processed > 0 && s.lastCandle.Some?
  {
    var c := s.lastCandle.value;
    LiquidationFill(env.cfg, LiquidationOrder(s.book.portfolio, |s.book.orders| + 1, c, s.processed - 1), c,
                    s.processed - 1, |s.book.fills| + 1)
  }

  lemma {:induction false} ForcedConclusion(env: Env, s: State, cancelAtEnd: bool)
    requires ForcesClose(env, s) && Conclude(env, s, cancelAtEnd).Ok?
    ensures s.processed > 0 && s.lastCandle.Some? && ForcedFill(env, s).Ok?
    ensures
      var fill, f := ForcedFill(env, s).value, Conclude(env, s, cancelAtEnd).value;
      var c := s.lastCandle.value;
      && s.equity != [] && ApplyFill(s.book.portfolio, fill).Ok?
      && MarkToMarket(ApplyFill(s.book.portfolio, fill).value.after, c.close) == Ok(f.book.portfolio)
      && f.book.fills == s.book.fills + [fill]
      && f.equity == s.equity[..|s.equity| - 1] + [PointOf(s.processed - 1, c, f.book.portfolio)]
  {
    hide ApplyFill, MarkToMarket, RecordFill, RecordMark, Reconcile, LiquidationFill, LiquidationOrder, ValidContext,
      View, PointOf;
    var c := s.lastCandle.value;
    var s1 := CancelRemaining(s, cancelAtEnd, c.closeTime);
    assert |s1.book.orders| == |s.book.orders|;
    var b := LiquidateBook(env.cfg, s1.book, c, s.processed - 1);
    assert b.Ok? && ForcedFill(env, s).Ok?;
  }

  lemma {:induction false} ForcedFillShape(env: Env, s: State)
    requires ForcesClose(env, s) && s.processed > 0 && s.lastCandle.Some? && ForcedFill(env, s).Ok?
    ensures
      var f, c := ForcedFill(env, s).value, s.lastCandle.value;
      && f.side == Sell && f.quantity == s.book.portfolio.base && f.candleIndex == s.processed - 1
      && f.price == c.close * (1.0 - env.cfg.SlippageRate())
      && f.notional == Notional(f.quantity, f.price)
      && f.fee == f.notional * env.cfg.fees.Rate(Taker) && f.fee <= f.notional
  {
    var c := s.lastCandle.value;
    var order := LiquidationOrder(s.book.portfolio, |s.book.orders| + 1, c, s.processed - 1);
    var quote := AdverseQuote(env.cfg, c.close, Sell, ForceClose).value;
    MakeFillFor(env.cfg, order, quote, c.closeTime, s.processed - 1, |s.book.fills| + 1);
  }

  /** The replay of a finished run without comparing the published points. */
  function Rebuilt(env: Env, f: State): Outcome<Portfolio>
    requires f.equity != []
  {
    var p :- BeforeLastMark(env.cfg.capital, f.book.fills, f.equity);
    MarkToMarket(p, f.equity[|f.equity| - 1].close)
  }

  /** The forced close hides no peak: the mark it replaces was no new maximum, or liquidation is free. */
  predicate NoHiddenPeak(env: Env, s: State)
    requires s.equity != []
  {
    || (env.cfg.slippageBps == 0.0 && env.cfg.fees.takerBps == 0.0)
    || (var p := BeforeLastMark(env.cfg.capital, s.book.fills, s.equity);
        p.Ok? && s.book.portfolio.equity <= p.value.peak)
  }

  /** After a forced close the replay still rebuilds everything but the peak and the drawdown, and
      it accepts the run exactly when the close hid no peak. */
  lemma {:induction false} ForcedCloseReplays(env: Env, candles: seq<Candle>, cancelAtEnd: bool)
    requires Run(env, candles, cancelAtEnd).Ok?
    requires StateAfter(env, Visited(env, candles)).Ok? ==>
      ForcesClose(env, StateAfter(env, Visited(env, candles)).value)
    ensures StateAfter(env, Visited(env, candles)).Ok?
    ensures
      var s, f := StateAfter(env, Visited(env, candles)).value, Run(env, candles, cancelAtEnd).value;
      && s.equity != [] && f.equity != []
      && Rebuilt(env, f).Ok? && SameButPeak(Rebuilt(env, f).value, f.book.portfolio)
      && (Published(env, f) <==> NoHiddenPeak(env, s))
  {
    hide StateAfter, Visited, Conclude, Replays;
    EveryStateReplays(env, Visited(env, candles));
    EveryStateIsSound(env, Visited(env, candles));
    var s := StateAfter(env, Visited(env, candles)).value;
    ForcedConclusion(env, s, cancelAtEnd);
    ForcedStateReplays(env, s, Conclude(env, s, cancelAtEnd).value);
  }

  lemma {:induction false} ForcedStateReplays(env: Env, s: State, f: State)
    requires Replays(env.cfg, s) && ForcesClose(env, s) && s.processed > 0 && EquityIndexed(s.equity)
    requires ForcedFill(env, s).Ok? && s.equity != []
    requires
      var fill, c := ForcedFill(env, s).value, s.lastCandle.value;
      && ApplyFill(s.book.portfolio, fill).Ok?
      && MarkToMarket(ApplyFill(s.book.portfolio, fill).value.after, c.close) == Ok(f.book.portfolio)
      && f.book.fills == s.book.fills + [fill]
      && f.equity == s.equity[..|s.equity| - 1] + [PointOf(s.processed - 1, c, f.book.portfolio)]
    ensures Rebuilt(env, f).Ok? && SameButPeak(Rebuilt(env, f).value, f.book.portfolio)
    ensures Published(env, f) <==> NoHiddenPeak(env, s)
  {
    hide ApplyFill, MarkToMarket, ReplayTo, FillsAt, Sound, ForcedFill, Flattened, Marked, BeforeLastMark;
    LastMarkPeels(env.cfg, s);
    ForcedFillShape(env, s);
    var p := BeforeLastMark(env.cfg.capital, s.book.fills, s.equity).value;
    var fill, close := ForcedFill(env, s).value, s.lastCandle.value.close;
    var point := PointOf(s.processed - 1, s.lastCandle.value, f.book.portfolio);
    RewrittenPointReplays(env.cfg.capital, s.book.fills, s.equity, fill, point);
    assert Marked(p, close).base == p.base by { MarkedBase(p, close); }
    SoldBeforeOrAfterMark(p, fill, close);
    assert ApplyAll(p, [fill]) == Ok(ApplyFill(p, fill).value.after) by { assert [fill][..0] == []; }
    PeakComparison(env.cfg, p, fill, close);
  }

  lemma {:induction false} MarkedBase(p: Portfolio, close: real)
    ensures Marked(p, close).base == p.base
  {}

  /** The two peaks agree exactly when the mark at the close was no new peak or the exit was free. */
  lemma {:induction false} PeakComparison(cfg: Config, p: Portfolio, f: Fill, close: real)
    requires Sound(p) && 0.0 < p.base && 0.0 < close
    requires f.quantity == p.base && f.price == close * (1.0 - cfg.SlippageRate())
    requires f.notional == Notional(f.quantity, f.price) && f.fee == f.notional * cfg.fees.Rate(Taker)
    ensures
      var q, e := Flattened(p, f, close), Flattened(Marked(p, close), f, close);
      && (q.peak == e.peak <==>
            (cfg.slippageBps == 0.0 && cfg.fees.takerBps == 0.0) || Marked(p, close).equity <= p.peak)
      && (q.peak == e.peak ==> q == e)
  {
    RatesBounded(cfg, Taker);
    LiquidationNeverBeatsMark(p.base, close, cfg.SlippageRate(), cfg.fees.Rate(Taker), f.price, f.notional, f.fee);
  }
}
