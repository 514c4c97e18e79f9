/** The independent verifier of a published run: decoded tables in, acceptance out. */
module Verifier {
  import opened Domain
  import opened Accounting
  import opened Ledger
  import opened HashChain
  import opened Trades
  import opened Indicators
  import opened Regime
  import opened RegimeArtifacts
  import opened CandleFeed
  import opened EngineSpec
  import opened Replay
  import opened Timing

  /** The decoded tables of one published run. */
  datatype Artifacts = Artifacts(
    orders: seq<Order>, fills: seq<Fill>, entries: seq<Entry>, trades: seq<Trade>,
    equity: seq<EquityPoint>, regimes: seq<RegimePoint>, regimeCount: Option<int>, final: Portfolio,
    candleCount: int)

  /** What the manifest and the configuration declare about the run. */
  datatype Declared = Declared(
    capital: Positive, context: DataRange, evaluation: DataRange, policy: Option<RegimePolicy>)

  // Evaluation boundaries

  predicate OrderWithin(o: Order, n: int, range: DataRange) {
    && range.Spans(o.createdAt) && range.SpansIfAny(o.openedAt) && range.SpansIfAny(o.terminalAt)
    && -1 <= o.createdIndex < n
    && 0 <= o.eligibleIndex <= n
    && (o.createdIndex == -1 ==> o.createdAt == range.start)
    && (o.openedAt.Some? ==> o.createdAt <= o.openedAt.value)
    && (o.terminalAt.Some? ==> LifeStart(o) <= o.terminalAt.value)
  }

  predicate OrdersWithin(orders: seq<Order>, n: int, range: DataRange) {
    forall i :: 0 <= i < |orders| ==> OrderWithin(orders[i], n, range)
  }

  predicate FillsWithin(fills: seq<Fill>, n: int, range: DataRange) {
    forall j :: 0 <= j < |fills| ==> range.Spans(fills[j].time) && fills[j].candleIndex < n
  }

  predicate EntryWithin(e: Event, n: int, range: DataRange) { range.Spans(e.time) && 0 <= e.candleIndex < n }

  predicate LedgerWithin(b: Books, n: int, range: DataRange) {
    && b != []
    && b[0].event.kind == InitialCapital && b[0].event.time == range.start && b[0].event.candleIndex == -1
    && forall i :: 0 < i < |b| ==> EntryWithin(b[i].event, n, range)
  }

  predicate CurveWithin(equity: seq<EquityPoint>, n: int, range: DataRange) {
    && |equity| == n >= 1
    && forall i :: 0 <= i < |equity| ==> equity[i].candleIndex == i && range.start < equity[i].time <= range.end
  }

  predicate TradesWithin(trades: seq<Trade>, range: DataRange) {
    forall i :: 0 <= i < |trades| ==> range.Spans(trades[i].entryTime) && range.Spans(trades[i].exitTime)
  }

  predicate BoundariesOk(a: Artifacts, range: DataRange) {
    && CurveWithin(a.equity, a.candleCount, range)
    && OrdersWithin(a.orders, a.candleCount, range)
    && FillsWithin(a.fills, a.candleCount, range)
    && LedgerWithin(Bodies(a.entries), a.candleCount, range)
    && TradesWithin(a.trades, range)
  }

  method VerifyEvaluationBoundaries(a: Artifacts, range: DataRange) returns (r: Outcome<()>)
    ensures r.Ok? <==> BoundariesOk(a, range)
  {
    var n := a.candleCount;
    if n < 1 || |a.equity| != n {
      return Err(ResultCorrupt);
    }
    var k := 0;
    while k < |a.orders|
      invariant 0 <= k <= |a.orders|
      invariant OrdersWithin(a.orders[..k], n, range)
    {
      var order := a.orders[k];
      if !range.Spans(order.createdAt) || !range.SpansIfAny(order.openedAt) || !range.SpansIfAny(order.terminalAt) {
        return Err(ResultCorrupt);
      }
      if order.createdIndex < -1 || order.createdIndex >= n {
        return Err(ResultCorrupt);
      }
      if order.eligibleIndex < 0 || order.eligibleIndex > n {
        return Err(ResultCorrupt);
      }
      if order.createdIndex == -1 && order.createdAt != range.start {
        return Err(ResultCorrupt);
      }
      if order.openedAt.Some? && order.openedAt.value < order.createdAt {
        return Err(ResultCorrupt);
      }
      if order.terminalAt.Some? && order.terminalAt.value < LifeStart(order) {
        return Err(ResultCorrupt);
      }
      k := k + 1;
    }
    assert a.orders[..k] == a.orders;
    if exists j :: 0 <= j < |a.fills| && (!range.Spans(a.fills[j].time) || a.fills[j].candleIndex >= n) {
      return Err(ResultCorrupt);
    }
    if a.entries == [] {
      return Err(ResultCorrupt);
    }
    var initial := a.entries[0].body.event;
    if initial.kind != InitialCapital || initial.time != range.start || initial.candleIndex != -1 {
      return Err(ResultCorrupt);
    }
    var m := 1;
    while m < |a.entries|
      invariant 1 <= m <= |a.entries|
      invariant forall i :: 0 < i < m ==> EntryWithin(Bodies(a.entries)[i].event, n, range)
    {
      assert Bodies(a.entries)[m] == a.entries[m].body;
      if !EntryWithin(a.entries[m].body.event, n, range) {
        return Err(ResultCorrupt);
      }
      m := m + 1;
    }
    if exists i :: 0 <= i < |a.equity| && a.equity[i].candleIndex != i {
      return Err(ResultCorrupt);
    }
    if exists i :: 0 <= i < |a.equity| && (a.equity[i].time <= range.start || a.equity[i].time > range.end) {
      return Err(ResultCorrupt);
    }
    if exists i :: 0 <= i < |a.trades| && (!range.Spans(a.trades[i].entryTime) || !range.Spans(a.trades[i].exitTime)) {
      return Err(ResultCorrupt);
    }
    r := Ok(());
  }

  // Sequences and identifiers

  function FillCount(fills: seq<Fill>, id: nat): nat {
    if fills == [] then 0
    else FillCount(fills[..|fills| - 1], id) + (if fills[|fills| - 1].orderId == id then 1 else 0)
  }

  predicate Numbered(orders: seq<Order>, fills: seq<Fill>) {
    && (forall i :: 0 <= i < |orders| ==> orders[i].sequence == i + 1 && orders[i].id == i + 1)
    && (forall j :: 0 <= j < |fills| ==> fills[j].fillId == j + 1)
  }

  predicate FillFits(orders: seq<Order>, f: Fill) {
    && 1 <= f.orderId <= |orders|
    && var o := orders[f.orderId - 1];
    && f.side == o.intent.side && f.quantity == o.intent.quantity
    && o.eligibleIndex <= f.candleIndex && o.terminalAt == Some(f.time)
  }

  predicate CountFits(o: Order, count: nat) { count == (if o.status == Filled then 1 else 0) }

  /** FILLED orders and fills are one-to-one, numbered from one, with equal side and quantity. */
  predicate SequencesOk(orders: seq<Order>, fills: seq<Fill>) {
    && Numbered(orders, fills)
    && (forall j :: 0 <= j < |fills| ==> FillFits(orders, fills[j]))
    && (forall i :: 0 <= i < |orders| ==> CountFits(orders[i], FillCount(fills, i + 1)))
  }

  ghost predicate Counts(byOrder: map<nat, nat>, fills: seq<Fill>) {
    forall id: nat :: (if id in byOrder then byOrder[id] else 0) == FillCount(fills, id)
  }

  method VerifySequences(orders: seq<Order>, fills: seq<Fill>) returns (r: Outcome<()>)
    ensures r.Ok? <==> SequencesOk(orders, fills)
  {
    if !Numbered(orders, fills) {
      return Err(ResultCorrupt);
    }
    var byOrder: map<nat, nat> := map[];
    var k := 0;
    while k < |fills|
      invariant 0 <= k <= |fills|
      invariant forall j :: 0 <= j < k ==> FillFits(orders, fills[j])
      invariant Counts(byOrder, fills[..k])
    {
      var fill := fills[k];
      if !FillFits(orders, fill) {
        return Err(ResultCorrupt);
      }
      assert fills[..k + 1][..k] == fills[..k];
      var seen := if fill.orderId in byOrder then byOrder[fill.orderId] else 0;
      byOrder := byOrder[fill.orderId := seen + 1];
      k := k + 1;
    }
    assert fills[..k] == fills;
    var m := 0;
    while m < |orders|
      invariant 0 <= m <= |orders|
      invariant forall i :: 0 <= i < m ==> CountFits(orders[i], FillCount(fills, i + 1))
    {
      var count := if m + 1 in byOrder then byOrder[m + 1] else 0;
      assert count == FillCount(fills, m + 1);
      if orders[m].status == Filled && count != 1 {
        return Err(ResultCorrupt);
      }
      if orders[m].status != Filled && count != 0 {
        return Err(ResultCorrupt);
      }
      m := m + 1;
    }
    r := Ok(());
  }

  // Market regimes

  /** Without a policy there are no regimes and no count of them; with one they are as many as the
      result declares, are the rebuild's and pass revalidation. */
  predicate RegimesOk(R: Arithmetic, d: Declared, candles: seq<Candle>, a: Artifacts) {
    match d.policy
    case None => a.regimes == [] && a.regimeCount.None?
    case Some(policy) =>
      && a.regimeCount == Some(|a.regimes|)
      && ObservationsOk(R, policy, a.regimes, a.equity)
      && Rebuild(R, policy, candles, d.context, d.evaluation) == Ok(a.regimes)
  }

  method VerifyMarketRegimes(R: Arithmetic, d: Declared, candles: seq<Candle>, a: Artifacts) returns (r: Outcome<()>)
    ensures r.Ok? <==> RegimesOk(R, d, candles, a)
  {
    if d.policy.None? {
      return if a.regimes == [] && a.regimeCount.None? then Ok(()) else Err(ResultCorrupt);
    }
    var expected :- RebuildObservations(R, d.policy.value, candles, d.context, d.evaluation);
    if a.regimeCount != Some(|a.regimes|) {
      return Err(ResultCorrupt);
    }
    var _ :- ValidateObservations(R, d.policy.value, a.regimes, a.equity);
    r := if a.regimes == expected then Ok(()) else Err(ResultCorrupt);
  }

  // The whole verification

  /** Every check before the trades are derived, each independent of the engine. */
  predicate TablesAgree(hash: HashFunction, R: Arithmetic, d: Declared, candles: seq<Candle>, a: Artifacts) {
    && RegimesOk(R, d, candles, a)
    && BoundariesOk(a, d.evaluation)
    && SequencesOk(a.orders, a.fills)
    && Intact(hash, a.entries)
    && a.final.cash == QuoteBalance(Bodies(a.entries)) && a.final.base == BaseBalance(Bodies(a.entries))
    && Reconstructs(d.capital, a.fills, a.equity, a.final)
  }

  /** What the verifier accepts. */
  predicate Accepts(hash: HashFunction, R: Arithmetic, d: Declared, candles: seq<Candle>, a: Artifacts) {
    && TablesAgree(hash, R, d, candles, a)
    && LotsAfter(a.fills).Ok? && a.trades == LotsAfter(a.fills).value.trades
  }

  /** Runs the checks in order. What the derivation of trades raises is not turned into a verdict. */
  method VerifyRun(hash: HashFunction, R: Arithmetic, d: Declared, candles: seq<Candle>, a: Artifacts)
      returns (r: Outcome<()>)
    ensures r.Ok? <==> Accepts(hash, R, d, candles, a)
    ensures TablesAgree(hash, R, d, candles, a) && LotsAfter(a.fills).Err? ==> r == Err(LotsAfter(a.fills).error)
    ensures TablesAgree(hash, R, d, candles, a) ==>
      forall j: nat :: j < |a.fills| && FirstRefused(a.fills, j) ==> r == Err(RefusalOf(a.fills, j))
  {
    hide RegimesOk, SequencesOk, Intact, Reconstructs, LotsAfter, FirstRefused, RefusalOf;
    forall j: nat | j < |a.fills| && FirstRefused(a.fills, j)
      ensures LotsAfter(a.fills) == Err(RefusalOf(a.fills, j))
    {
      FirstRefusalDecides(a.fills, j);
    }
    var _ :- VerifyMarketRegimes(R, d, candles, a);
    var _ :- VerifyEvaluationBoundaries(a, d.evaluation);
    var _ :- VerifySequences(a.orders, a.fills);
    var ledger :- VerifyLedger(hash, a.entries);
    if a.equity == [] {
      return Err(ResultCorrupt);
    }
    if a.final.cash != ledger.quoteBalance || a.final.base != ledger.baseBalance {
      return Err(ResultCorrupt);
    }
    var _ :- ReplayEquity(d.capital, a.fills, a.equity, a.final);
    var trades :- DeriveClosedTrades(a.fills);
    if a.trades != trades {
      return Err(ResultCorrupt);
    }
    r := Ok(());
  }
}
