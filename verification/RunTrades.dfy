/** The trade accounting of whole runs: the fills of any run derive trades that sum to its PnL. */
module RunTrades {
  import opened Domain
  import opened Accounting
  import opened Trades
  import opened Regime
  import opened Strategy
  import opened EngineSpec
  import opened BookInvariant
  import opened RunInvariant
  import opened RunSafety
  import opened Replay
  import opened ReplayTheorems

  /** Equal but for their valuation: cash, position, cost, profit and costs agree. */
  predicate SameMoney(p: Portfolio, q: Portfolio) {
    q == p.(unrealized := q.unrealized, equity := q.equity, peak := q.peak, drawdown := q.drawdown,
            drawdownPct := q.drawdownPct, lastMark := q.lastMark)
  }

  lemma {:induction false} MarkKeepsMoney(p: Portfolio, price: real)
    ensures SameMoney(p, Marked(p, price))
  {}

  /** How a portfolio was valued does not matter to the fills that follow. */
  lemma {:induction false} FillIgnoresValuation(p: Portfolio, q: Portfolio, f: Fill)
    requires Sound(p) && Sound(q) && SameMoney(p, q) && ApplyFill(p, f).Ok?
    ensures ApplyFill(q, f).Ok? && SameMoney(ApplyFill(p, f).value.after, ApplyFill(q, f).value.after)
  {
    hide DrawdownPct, Sound;
    ApplyFillAccepts(p, f);
    ApplyFillAccepts(q, f);
  }

  lemma {:induction false} FillsIgnoreValuation(p: Portfolio, q: Portfolio, fills: seq<Fill>)
    requires Sound(p) && Sound(q) && SameMoney(p, q) && ApplyAll(p, fills).Ok?
    ensures ApplyAll(q, fills).Ok? && SameMoney(ApplyAll(p, fills).value, ApplyAll(q, fills).value)
    ensures Sound(ApplyAll(q, fills).value)
  {
    hide ApplyFill, Sound, SameMoney;
    if fills != [] {
      var rest, f := fills[..|fills| - 1], fills[|fills| - 1];
      FillsIgnoreValuation(p, q, rest);
      ApplyAllKeepsSound(p, rest);
      var p1, q1 := ApplyAll(p, rest).value, ApplyAll(q, rest).value;
      FillIgnoresValuation(p1, q1, f);
      ApplyFillAccepts(q1, f);
    } else {
      assert SameMoney(p, q);
    }
  }

  predicate TimedBy(fills: seq<Fill>, last: Option<Candle>) {
    fills != [] ==> last.Some? && forall j :: 0 <= j < |fills| ==> fills[j].time <= last.value.openTime
  }

  /** The run's fills alone, in order and without marks, give its money. */
  predicate Accounted(capital: Positive, fills: seq<Fill>, p: Portfolio) {
    var r := ApplyAll(Initialize(capital), fills);
    r.Ok? && Sound(r.value) && SameMoney(r.value, p)
  }

  predicate FillsAccounted(cfg: Config, s: State) {
    && Chronological(s.book.fills) && TimedBy(s.book.fills, s.lastCandle)
    && Accounted(cfg.capital, s.book.fills, s.book.portfolio)
  }

  /** More fills, applied to the marked portfolio, are accounted for as well. */
  lemma {:induction false} AppliedStaysAccounted(capital: Positive, fills: seq<Fill>, p: Portfolio, more: seq<Fill>)
    requires Accounted(capital, fills, p) && Sound(p) && ApplyAll(p, more).Ok?
    ensures Accounted(capital, fills + more, ApplyAll(p, more).value)
  {
    hide ApplyAll, Sound, SameMoney;
    var q := ApplyAll(Initialize(capital), fills).value;
    ApplyAllJoins(Initialize(capital), fills, more);
    SameMoneySymmetric(q, p);
    FillsIgnoreValuation(p, q, more);
    SameMoneySymmetric(ApplyAll(p, more).value, ApplyAll(q, more).value);
  }

  lemma {:induction false} FoldStaysAccounted(capital: Positive, a: Book, b: Book, index: int, t: int)
    requires Accounted(capital, a.fills, a.portfolio) && Sound(a.portfolio) && Folds(a, b, index, t)
    ensures Accounted(capital, b.fills, b.portfolio)
  {
    hide ApplyAll, Sound, Accounted;
    assert b.fills == a.fills + b.fills[|a.fills|..];
    AppliedStaysAccounted(capital, a.fills, a.portfolio, b.fills[|a.fills|..]);
  }

  lemma {:induction false} SameMoneySymmetric(p: Portfolio, q: Portfolio)
    ensures SameMoney(p, q) <==> SameMoney(q, p)
  {}

  lemma {:induction false} FoldStaysChronological(a: Book, b: Book, index: int, t: int)
    requires Chronological(a.fills) && Folds(a, b, index, t)
    requires forall j :: 0 <= j < |a.fills| ==> a.fills[j].time <= t
    ensures Chronological(b.fills) && forall j :: 0 <= j < |b.fills| ==> b.fills[j].time <= t
  {
    assert forall j :: 0 <= j < |a.fills| ==> b.fills[j] == a.fills[j];
  }

  lemma {:induction false} EvaluatedCandleAccounted(env: Env, s: State, c: Candle, regime: Option<RegimePoint>)
    requires CandleReady(env, s, c) && RegimeFits(regime, c) && env.cfg.evaluationStart <= c.openTime
    requires Chronological(s.book.fills) && Accounted(env.cfg.capital, s.book.fills, s.book.portfolio)
    requires forall j :: 0 <= j < |s.book.fills| ==> s.book.fills[j].time <= c.openTime
    requires EvaluateCandle(env, s, c, regime).Ok?
    ensures FillsAccounted(env.cfg, EvaluateCandle(env, s, c, regime).value)
  {
    hide TradeCandle, CloseCandle, FinishCandle, BookInv, CallsOk, HistoryOk, Punctual, AccumulatorOk, Accounted,
      Marked;
    var s2 := TradeCandle(env, s, c).value;
    TradeCandleFolds(env, s, c);
    TradeCandleKeeps(env, s, c);
    ReadyIsSound(env, s, c);
    FoldStaysAccounted(env.cfg.capital, s.book, s2.book, s.processed, c.openTime);
    FoldStaysChronological(s.book, s2.book, s.processed, c.openTime);
    CloseCandleKeeps(env, s2, c);
    var s3 := CloseCandle(env, s2, c).value;
    MarkStaysAccounted(env.cfg.capital, s2.book.fills, s2.book.portfolio, c.close);
    FinishCandleKeeps(env, s3, c, regime);
    FinishKeepsCandle(env, s3, c, regime);
  }

  lemma {:induction false} MarkStaysAccounted(capital: Positive, fills: seq<Fill>, p: Portfolio, price: real)
    requires Accounted(capital, fills, p)
    ensures Accounted(capital, fills, Marked(p, price))
  {
    hide ApplyAll, Sound;
    MarkKeepsMoney(p, price);
  }

  lemma {:induction false} ReadyIsSound(env: Env, s: State, c: Candle)
    requires CandleReady(env, s, c)
    ensures Sound(s.book.portfolio)
  {}

  lemma {:induction false} StepAccounted(env: Env, s: State, c: Candle)
    requires RunInv(env, s) && FillsAccounted(env.cfg, s) && StepCandle(env, s, c).Ok?
    ensures FillsAccounted(env.cfg, StepCandle(env, s, c).value)
  {
    hide EvaluateCandle, WarmupCandle, BookInv, CallsOk, HistoryOk, Punctual, Accounted;
    ObserveRegimeFits(env, s.accumulator, c);
    var observed := ObserveRegime(env, s.accumulator, c).value;
    var s1 := Admitted(s, c, observed.accumulator);
    AdmitKeeps(env, s, c, observed.accumulator);
    if c.openTime < env.cfg.evaluationStart {
      WarmupKeepsCurve(env, s1, c, observed.point);
    } else {
      EvaluatedCandleAccounted(env, s1, c, observed.point);
    }
  }

  lemma {:induction false} StartAccounted(env: Env)
    requires Start(env).Ok?
    ensures FillsAccounted(env.cfg, Start(env).value)
  {}

  lemma {:induction false} EveryStateAccounted(env: Env, cs: seq<Candle>)
    requires StateAfter(env, cs).Ok?
    ensures FillsAccounted(env.cfg, StateAfter(env, cs).value)
  {
    hide StepCandle, Start, FillsAccounted, RunInv;
    if cs == [] {
      StartAccounted(env);
    } else {
      var rest := cs[..|cs| - 1];
      EveryStateAccounted(env, rest);
      EveryStateIsSound(env, rest);
      StepAccounted(env, StateAfter(env, rest).value, cs[|cs| - 1]);
    }
  }

  // The end of the run

  lemma {:induction false} ForcedFillAccounted(env: Env, s: State, f: Fill, after: Portfolio)
    requires FillsAccounted(env.cfg, s) && Sound(s.book.portfolio) && s.lastCandle.Some?
    requires ApplyFill(s.book.portfolio, f).Ok? && f.time == s.lastCandle.value.closeTime
    requires MarkToMarket(ApplyFill(s.book.portfolio, f).value.after, s.lastCandle.value.close) == Ok(after)
    ensures Chronological(s.book.fills + [f]) && Accounted(env.cfg.capital, s.book.fills + [f], after)
  {
    hide ApplyFill, Sound, SameMoney;
    var sold := ApplyFill(s.book.portfolio, f).value.after;
    var b := s.book.(portfolio := sold, fills := s.book.fills + [f]);
    var one := [f];
    assert one[..0] == [] && b.fills[|s.book.fills|..] == one;
    assert ApplyAll(s.book.portfolio, one[..0]) == Ok(s.book.portfolio);
    assert ApplyAll(s.book.portfolio, one) == Ok(sold);
    FoldStaysAccounted(env.cfg.capital, s.book, b, f.candleIndex, f.time);
    MarkStaysAccounted(env.cfg.capital, b.fills, sold, s.lastCandle.value.close);
  }

  lemma {:induction false} ConclusionAccounted(env: Env, s: State, cancelAtEnd: bool)
    requires FillsAccounted(env.cfg, s) && RunInv(env, s) && Conclude(env, s, cancelAtEnd).Ok?
    ensures var f := Conclude(env, s, cancelAtEnd).value;
      Chronological(f.book.fills) && Accounted(env.cfg.capital, f.book.fills, f.book.portfolio)
  {
    hide Conclude, ApplyFill, Accounted, CallsOk, HistoryOk, Punctual, MarkToMarket, ForcedFill;
    if ForcesClose(env, s) {
      ForcedConclusion(env, s, cancelAtEnd);
      ForcedFillTime(env, s);
      ForcedFillAccounted(env, s, ForcedFill(env, s).value, Conclude(env, s, cancelAtEnd).value.book.portfolio);
    } else {
      ConclusionKeepsCurve(env, s, cancelAtEnd);
    }
  }

  lemma {:induction false} ForcedFillTime(env: Env, s: State)
    requires ForcesClose(env, s) && s.processed > 0 && s.lastCandle.Some? && ForcedFill(env, s).Ok?
    ensures ForcedFill(env, s).value.time == s.lastCandle.value.closeTime
  {}

  /** What the trades derived from a finished run's fills say about its portfolio. */
  predicate TradesExplain(fills: seq<Fill>, p: Portfolio) {
    var l := LotsAfter(fills);
    && l.Ok?
    && l.value.quantity == p.base && l.value.notional + l.value.fees == p.cost
    && NetPnl(l.value.trades) == p.realized
    && GrossProfit(l.value.trades) - GrossLoss(l.value.trades) == p.realized
  }

  /** The two accountings agree on every run: deriving trades from the published fills never raises,
      the open lot is the final position at its cost basis, and gross profit minus gross loss is the
      realized PnL. */
  lemma {:induction false} TradesExplainEveryRun(env: Env, candles: seq<Candle>, cancelAtEnd: bool)
    requires Run(env, candles, cancelAtEnd).Ok?
    ensures TradesExplain(Run(env, candles, cancelAtEnd).value.book.fills,
      Run(env, candles, cancelAtEnd).value.book.portfolio)
    ensures Chronological(Run(env, candles, cancelAtEnd).value.book.fills)
  {
    hide StateAfter, Conclude, RunInv, FillsAccounted, LotsAfter, ApplyAll;
    var cs := Visited(env, candles);
    EveryStateAccounted(env, cs);
    EveryStateIsSound(env, cs);
    ConclusionAccounted(env, StateAfter(env, cs).value, cancelAtEnd);
    var fills := Run(env, candles, cancelAtEnd).value.book.fills;
    ChronologicalExitsInOrder(fills);
    TwoAccountingsAgree(env.cfg.capital, fills);
    var l, q := LotsAfter(fills).value, ApplyAll(Initialize(env.cfg.capital), fills).value;
    assert Reconciled(l, q, OpenedAt(fills));
    ProfitMinusLoss(l.trades);
  }

  /** The portfolio is what the fills sum to, each sum taken over the fills alone. */
  predicate FillsExplain(capital: real, fills: seq<Fill>, p: Portfolio) {
    && p.cash == capital + CashFlow(fills) && p.base == Held(fills)
    && p.cost == OpenCost(fills) && p.average * p.base == p.cost
    && p.realized == CashFlow(fills) + OpenCost(fills)
    && p.fees == FeesPaid(fills) && p.slippage == SlippagePaid(fills)
  }

  lemma {:induction false} AccountedIsExplained(capital: Positive, fills: seq<Fill>, p: Portfolio)
    requires Accounted(capital, fills, p)
    ensures FillsExplain(capital, fills, p)
  {
    hide ApplyAll, CashFlow, Held, OpenCost, FeesPaid, SlippagePaid;
    ApplyAllFolds(capital, fills);
  }

  /** Every balance a finished run publishes, its fees and its slippage included, is a sum over its
      published fills. */
  lemma {:induction false} FillsExplainEveryRun(env: Env, candles: seq<Candle>, cancelAtEnd: bool)
    requires Run(env, candles, cancelAtEnd).Ok?
    ensures var b := Run(env, candles, cancelAtEnd).value.book; FillsExplain(env.cfg.capital, b.fills, b.portfolio)
  {
    hide StateAfter, Conclude, RunInv, FillsAccounted, Accounted, FillsExplain;
    var cs := Visited(env, candles);
    EveryStateAccounted(env, cs);
    EveryStateIsSound(env, cs);
    ConclusionAccounted(env, StateAfter(env, cs).value, cancelAtEnd);
    var b := Run(env, candles, cancelAtEnd).value.book;
    AccountedIsExplained(env.cfg.capital, b.fills, b.portfolio);
  }
}
