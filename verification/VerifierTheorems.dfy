/** The verifier against the engine: exactly which finished runs it accepts. */
module VerifierTheorems {
  import opened Domain
  import opened Accounting
  import opened Ledger
  import opened HashChain
  import opened Trades
  import opened Strategy
  import opened CandleFeed
  import opened EngineSpec
  import opened OrderTable
  import opened BookInvariant
  import opened RunInvariant
  import opened RunConclusion
  import opened RunTheorems
  import opened Replay
  import opened ReplayTheorems
  import opened RunTrades
  import opened RunRegimes
  import opened RegimeArtifacts
  import opened Timing
  import opened StartOrders
  import opened Verifier

  // Sequences

  lemma {:induction false} NoFillCountsZero(fills: seq<Fill>, id: nat)
    requires !HasFill(fills, id)
    ensures FillCount(fills, id) == 0
  {
    if fills != [] {
      var rest := fills[..|fills| - 1];
      assert forall j :: 0 <= j < |rest| ==> rest[j] == fills[j];
      assert fills[|fills| - 1].orderId != id;
      NoFillCountsZero(rest, id);
    }
  }

  lemma {:induction false} OneFillCountsOne(fills: seq<Fill>, id: nat)
    requires OneFillPerOrder(fills) && HasFill(fills, id)
    ensures FillCount(fills, id) == 1
  {
    var rest, last := fills[..|fills| - 1], fills[|fills| - 1];
    assert forall j :: 0 <= j < |rest| ==> rest[j] == fills[j];
    if last.orderId == id {
      NoFillCountsZero(rest, id);
    } else {
      var j :| 0 <= j < |fills| && fills[j].orderId == id;
      assert rest[j].orderId == id;
      OneFillCountsOne(rest, id);
    }
  }

  lemma {:induction false} MatchedTablesPass(cfg: Config, orders: seq<Order>, fills: seq<Fill>, index: int)
    requires OrdersShaped(cfg, orders, index) && FillsMatch(cfg, orders, fills, index)
    ensures SequencesOk(orders, fills)
  {
    forall i: nat | i < |orders| ensures orders[i].sequence == i + 1 && orders[i].id == i + 1 {
      assert OrderShape(cfg, orders[i], i, index);
    }
    forall j: nat | j < |fills| ensures fills[j].fillId == j + 1 && FillFits(orders, fills[j]) {
      assert FillOk(cfg, orders, fills, j);
    }
    FillsAnswerOrders(cfg, orders, fills);
    forall i: nat | i < |orders| ensures CountFits(orders[i], FillCount(fills, i + 1)) {
      if orders[i].status == Filled {
        OneFillCountsOne(fills, i + 1);
      } else {
        forall j | 0 <= j < |fills| ensures fills[j].orderId != i + 1 { assert Answers(fills[j], orders); }
        NoFillCountsZero(fills, i + 1);
      }
    }
  }

  /** The sequence check accepts every finished run. */
  lemma {:induction false} RunsPassSequences(env: Env, candles: seq<Candle>, cancelAtEnd: bool)
    requires Run(env, candles, cancelAtEnd).Ok?
    ensures SequencesOk(Run(env, candles, cancelAtEnd).value.book.orders,
      Run(env, candles, cancelAtEnd).value.book.fills)
  {
    hide Run, StateAfter, Visited, Concludes, PortfolioInv, Records, OpenBounded, Punctual, Protected, FillsMatch,
      SequencesOk, OrdersShaped;
    RunsNeverAccuseTheirBooks(env, candles, cancelAtEnd);
    var f := Run(env, candles, cancelAtEnd).value;
    MatchedTablesPass(env.cfg, f.book.orders, f.book.fills, f.processed - 1);
  }

  // Evaluation boundaries

  predicate LotsWithin(l: Lots, range: DataRange) { TradesWithin(l.trades, range) && range.SpansIfAny(l.entryTime) }

  /** Trades are dated by fills. */
  lemma {:induction false} TradesKeepFillTimes(fills: seq<Fill>, range: DataRange)
    requires LotsAfter(fills).Ok? && forall j :: 0 <= j < |fills| ==> range.Spans(fills[j].time)
    ensures LotsWithin(LotsAfter(fills).value, range)
  {
    hide Trade.Valid, Share;
    if fills != [] {
      var rest := fills[..|fills| - 1];
      TradesKeepFillTimes(rest, range);
      TakeKeepsFillTimes(LotsAfter(rest).value, fills[|fills| - 1], range);
    }
  }

  lemma {:induction false} TakeKeepsFillTimes(l: Lots, f: Fill, range: DataRange)
    requires LotsWithin(l, range) && range.Spans(f.time) && Take(l, f).Ok?
    ensures LotsWithin(Take(l, f).value, range)
  {
    hide Trade.Valid, Share;
  }

  lemma {:induction false} OrdersMeetBoundaries(cfg: Config, orders: seq<Order>, n: nat, w: Window, range: DataRange)
    requires OrdersShaped(cfg, orders, n - 1) && TableTimed(orders, w)
    requires w.start == range.start && w.openBy <= range.end && w.endBy <= range.end
    ensures OrdersWithin(orders, n, range) <==> (HasStartOrder(orders) ==> w.first == range.start)
  {
    forall i: nat | i < |orders|
      ensures OrderWithin(orders[i], n, range) <==> (orders[i].createdIndex == -1 ==> w.first == range.start)
    {
      assert OrderShape(cfg, orders[i], i, n - 1) && OrderTimed(orders[i], w);
    }
  }

  lemma {:induction false} FillsMeetBoundaries(cfg: Config, orders: seq<Order>, fills: seq<Fill>, n: nat, w: Window,
                                               range: DataRange)
    requires FillsMatch(cfg, orders, fills, n - 1) && TableTimed(orders, w)
    requires w.start == range.start && w.endBy <= range.end
    ensures FillsWithin(fills, n, range)
  {
    FillsAnswerOrders(cfg, orders, fills);
    forall j: nat | j < |fills| ensures range.Spans(fills[j].time) && fills[j].candleIndex < n {
      assert Answers(fills[j], orders);
      assert OrderTimed(orders[fills[j].orderId - 1], w);
    }
  }

  lemma {:induction false} LedgerMeetsBoundaries(b: Books, n: nat, w: Window, range: DataRange)
    requires LedgerTimed(b, w, n) && w.start == range.start && w.endBy <= range.end
    ensures LedgerWithin(b, n, range)
  {
    forall i | 0 < i < |b| ensures EntryWithin(b[i].event, n, range) { assert EventTimed(b[i].event, w, n); }
  }

  /** The open of the first candle at or after the evaluation start; that start when there is none. */
  function FirstOpen(env: Env, cs: seq<Candle>): int {
    if cs == [] then env.cfg.evaluationStart
    else if cs[0].openTime >= env.cfg.evaluationStart then cs[0].openTime
    else FirstOpen(env, cs[1..])
  }

  lemma {:induction false} FirstOpenOpens(env: Env, cs: seq<Candle>)
    ensures FirstOpens(env, cs, FirstOpen(env, cs))
  {
    forall i | 0 <= i < |cs| && cs[i].openTime >= env.cfg.evaluationStart && BeforeEvaluation(env, cs[..i])
      ensures cs[i].openTime == FirstOpen(env, cs)
    {
      FirstOpenAt(env, cs, i);
    }
  }

  lemma {:induction false} FirstOpenAt(env: Env, cs: seq<Candle>, i: nat)
    requires i < |cs| && cs[i].openTime >= env.cfg.evaluationStart && BeforeEvaluation(env, cs[..i])
    ensures FirstOpen(env, cs) == cs[i].openTime
    decreases i
  {
    if i > 0 {
      assert cs[0] == cs[..i][0];
      assert cs[1..][..i - 1] == cs[..i][1..];
      FirstOpenAt(env, cs[1..], i - 1);
    }
  }

  /** What a finished run publishes, with its ledger sealed as `entries`. */
  function PublishedTables(env: Env, f: State, entries: seq<Entry>): Artifacts
    requires LotsAfter(f.book.fills).Ok?
  {
    Artifacts(f.book.orders, f.book.fills, entries, LotsAfter(f.book.fills).value.trades,
              f.equity, f.regimes, if env.cfg.regime.Some? then Some(|f.regimes|) else None,
              f.book.portfolio.View(), f.processed)
  }

  /** Each candle the run visits closes no later than the next one opens. */
  predicate OnSchedule(env: Env, candles: seq<Candle>) { WellTimed(Visited(env, candles)) }

  /** The last candle the run visits closes inside the range: the range does not cut it short. */
  predicate EndsInRange(env: Env, candles: seq<Candle>) {
    var cs := Visited(env, candles);
    cs != [] ==> cs[|cs| - 1].closeTime <= env.cfg.rangeEnd
  }

  /** If the strategy asks for orders at the start, the first evaluated candle opens exactly at the
      evaluation start. */
  predicate StartsOnTime(env: Env, candles: seq<Candle>) {
    AsksAtStart(env) ==> FirstOpen(env, Visited(env, candles)) == env.cfg.evaluationStart
  }

  lemma {:induction false} FinalStateTimed(env: Env, candles: seq<Candle>, cancelAtEnd: bool)
    requires Run(env, candles, cancelAtEnd).Ok? && OnSchedule(env, candles)
    ensures Visited(env, candles) != []
    ensures var cs := Visited(env, candles);
      FinalTimed(env, Run(env, candles, cancelAtEnd).value, FirstOpen(env, cs), cs[|cs| - 1])
  {
    hide StateAfter, Visited, Conclude, Timed, FinalTimed;
    var cs := Visited(env, candles);
    FirstOpenOpens(env, cs);
    EveryStateTimed(env, cs, FirstOpen(env, cs));
    NothingProcessedBeforeEvaluation(env, cs);
    EvaluatedSomething(env, StateAfter(env, cs).value, cancelAtEnd);
    ConclusionTimed(env, StateAfter(env, cs).value, cancelAtEnd, FirstOpen(env, cs));
  }

  /** The last published point is dated at the close of the last candle, forced close or not. */
  lemma {:induction false} LastPointIsLastClose(env: Env, candles: seq<Candle>, cancelAtEnd: bool)
    requires Run(env, candles, cancelAtEnd).Ok?
    ensures var cs, f := Visited(env, candles), Run(env, candles, cancelAtEnd).value;
      cs != [] && f.equity != [] && f.equity[|f.equity| - 1].time == cs[|cs| - 1].closeTime
  {
    hide StateAfter, Visited, Conclude, ReplayTo, ForcedFill, ApplyFill, MarkToMarket;
    var cs := Visited(env, candles);
    var s := StateAfter(env, cs).value;
    EveryStateReplays(env, cs);
    NothingProcessedBeforeEvaluation(env, cs);
    EvaluatedSomething(env, s, cancelAtEnd);
    if ForcesClose(env, s) {
      ForcedConclusion(env, s, cancelAtEnd);
    } else {
      ConclusionKeepsCurve(env, s, cancelAtEnd);
    }
  }

  /** A run whose range cuts its last candle short is always rejected, whatever its timing. */
  lemma {:induction false} CutRangesAreRejected(env: Env, candles: seq<Candle>, cancelAtEnd: bool, entries: seq<Entry>)
    requires Run(env, candles, cancelAtEnd).Ok? && !EndsInRange(env, candles)
    ensures LotsAfter(Run(env, candles, cancelAtEnd).value.book.fills).Ok?
    ensures !BoundariesOk(PublishedTables(env, Run(env, candles, cancelAtEnd).value, entries), EvaluationRange(env))
  {
    hide Run, Visited, LotsAfter, OrdersWithin, FillsWithin, LedgerWithin, TradesWithin;
    TradesExplainEveryRun(env, candles, cancelAtEnd);
    LastPointIsLastClose(env, candles, cancelAtEnd);
  }

  /** The boundary check accepts a finished run exactly when its range does not cut the last candle
      short and the orders asked for at the start, if any, are dated at the evaluation start: they
      carry the open of the first evaluated candle. */
  lemma {:induction false} BoundaryCheckMeetsRuns(env: Env, candles: seq<Candle>, cancelAtEnd: bool,
                                                  entries: seq<Entry>)
    requires Run(env, candles, cancelAtEnd).Ok? && OnSchedule(env, candles)
    requires Bodies(entries) == Run(env, candles, cancelAtEnd).value.book.ledger
    ensures LotsAfter(Run(env, candles, cancelAtEnd).value.book.fills).Ok?
    ensures var f := Run(env, candles, cancelAtEnd).value;
      BoundariesOk(PublishedTables(env, f, entries), EvaluationRange(env)) <==>
        (StartsOnTime(env, candles) && EndsInRange(env, candles))
  {
    hide Run, Visited, BoundariesOk, StartsOnTime, OnSchedule;
    if EndsInRange(env, candles) {
      UncutRangesMeetBoundaries(env, candles, cancelAtEnd, entries);
    } else {
      CutRangesAreRejected(env, candles, cancelAtEnd, entries);
    }
  }

  lemma {:induction false} UncutRangesMeetBoundaries(env: Env, candles: seq<Candle>, cancelAtEnd: bool,
                                                     entries: seq<Entry>)
    requires Run(env, candles, cancelAtEnd).Ok? && OnSchedule(env, candles) && EndsInRange(env, candles)
    requires Bodies(entries) == Run(env, candles, cancelAtEnd).value.book.ledger
    ensures LotsAfter(Run(env, candles, cancelAtEnd).value.book.fills).Ok?
    ensures var f := Run(env, candles, cancelAtEnd).value;
      BoundariesOk(PublishedTables(env, f, entries), EvaluationRange(env)) <==> StartsOnTime(env, candles)
  {
    hide Run, StateAfter, Visited, Conclude, WellTimed, PortfolioInv, Records, OpenBounded, Punctual, Protected,
      FillsMatch, OrdersShaped, TableTimed, LedgerTimed, LedgerWithin, FillsWithin, OrdersWithin, LotsAfter, FirstOpen,
      HasStartOrder, AsksAtStart, Concludes;
    var cs := Visited(env, candles);
    var f := Run(env, candles, cancelAtEnd).value;
    RunsNeverAccuseTheirBooks(env, candles, cancelAtEnd);
    StartOrdersAreAskedFor(env, candles, cancelAtEnd);
    TradesExplainEveryRun(env, candles, cancelAtEnd);
    FinalStateTimed(env, candles, cancelAtEnd);
    var w := RestWindow(env, FirstOpen(env, cs), Some(cs[|cs| - 1]));
    var range := EvaluationRange(env);
    OrdersMeetBoundaries(env.cfg, f.book.orders, f.processed, w, range);
    FillsMeetBoundaries(env.cfg, f.book.orders, f.book.fills, f.processed, w, range);
    LedgerMeetsBoundaries(f.book.ledger, f.processed, w, range);
    FillTimesHold(f.book.fills, f.processed, range);
    TradesKeepFillTimes(f.book.fills, range);
  }

  lemma {:induction false} FillTimesHold(fills: seq<Fill>, n: int, range: DataRange)
    requires FillsWithin(fills, n, range)
    ensures forall j :: 0 <= j < |fills| ==> range.Spans(fills[j].time)
  {}

  // The whole verification

  /** A forced close, if there was one, hid no peak from the curve. */
  predicate ClosesHonestly(env: Env, candles: seq<Candle>)
  {
    var r := StateAfter(env, Visited(env, candles));
    r.Ok? && ForcesClose(env, r.value) ==> r.value.equity != [] && NoHiddenPeak(env, r.value)
  }

  /** What the manifest of a run declares. */
  function DeclaredBy(env: Env): Declared {
    Declared(env.cfg.capital, ContextRange(env), EvaluationRange(env), env.cfg.regime)
  }

  lemma {:induction false} RegimesMeetRuns(env: Env, candles: seq<Candle>, cancelAtEnd: bool, entries: seq<Entry>)
    requires Run(env, candles, cancelAtEnd).Ok? && env.cfg.RangesNest()
    requires LotsAfter(Run(env, candles, cancelAtEnd).value.book.fills).Ok?
    ensures var f := Run(env, candles, cancelAtEnd).value;
      RegimesOk(env.R, DeclaredBy(env), candles, PublishedTables(env, f, entries))
  {
    hide StateAfter, Visited, Conclude, LotsAfter, ObservationsOk, Rebuild, FinalInv, Grows;
    if env.cfg.regime.Some? {
      RunsPublishRebuiltRegimes(env, candles, cancelAtEnd);
    } else {
      RunsNeverAccuseTheirBooks(env, candles, cancelAtEnd);
      NoPolicyNoRegimes(env, Visited(env, candles));
    }
  }

  /** The verifier accepts a finished run, sealed under a hash without collisions, exactly when its
      start orders are dated at the evaluation start, its range does not cut the last candle short,
      and a forced close hid no peak. */
  lemma {:induction false} VerifierMeetsRuns(env: Env, hash: HashFunction, candles: seq<Candle>, cancelAtEnd: bool,
                                             entries: seq<Entry>)
    requires Run(env, candles, cancelAtEnd).Ok? && OnSchedule(env, candles) && env.cfg.RangesNest()
    requires Bodies(entries) == Run(env, candles, cancelAtEnd).value.book.ledger
    requires Chained(hash, entries) && CollisionFree(hash, entries, entries)
    ensures LotsAfter(Run(env, candles, cancelAtEnd).value.book.fills).Ok?
    ensures
      var f := Run(env, candles, cancelAtEnd).value;
      Accepts(hash, env.R, DeclaredBy(env), candles, PublishedTables(env, f, entries)) <==>
        (StartsOnTime(env, candles) && EndsInRange(env, candles) && ClosesHonestly(env, candles))
  {
    hide Run, StateAfter, Visited, Conclude, WellTimed, Chained, CollisionFree, PortfolioInv, OpenBounded, Punctual,
      Protected, FillsMatch, OrdersShaped, SequencesOk, BoundariesOk, LotsAfter, Reconstructs, StartsOnTime,
      NoHiddenPeak, ForcesClose, Concludes, RegimesOk, EndsInRange;
    var f := Run(env, candles, cancelAtEnd).value;
    RunsNeverAccuseTheirBooks(env, candles, cancelAtEnd);
    BoundaryCheckMeetsRuns(env, candles, cancelAtEnd, entries);
    RunsPassSequences(env, candles, cancelAtEnd);
    BuiltLedgerHasDistinctHashes(hash, entries);
    RegimesMeetRuns(env, candles, cancelAtEnd, entries);
    var s := StateAfter(env, Visited(env, candles)).value;
    if ForcesClose(env, s) {
      ForcedCloseReplays(env, candles, cancelAtEnd);
    } else {
      RunsReplay(env, candles, cancelAtEnd);
    }
  }
}
