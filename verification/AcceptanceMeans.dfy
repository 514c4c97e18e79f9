/** What an accepted set of tables says, table by table, without the words of the checks. */
module AcceptanceMeans {
  import opened Domain
  import opened RealArithmetic
  import opened Accounting
  import opened Ledger
  import opened HashChain
  import opened Trades
  import opened Indicators
  import opened CandleFeed
  import opened EngineSpec
  import opened BookInvariant
  import opened Replay
  import opened Verifier
  import opened AcceptedTables

  // Orders and fills

  lemma {:induction false} FillsCounted(fills: seq<Fill>, id: nat)
    ensures FillCount(fills, id) == 0 <==> !HasFill(fills, id)
  {
    if fills != [] {
      var rest, last := fills[..|fills| - 1], fills[|fills| - 1];
      FillsCounted(rest, id);
      assert forall j :: 0 <= j < |rest| ==> rest[j] == fills[j];
      if last.orderId == id { assert HasFill(fills, id); }
    }
  }

  lemma {:induction false} TwoFillsCounted(fills: seq<Fill>, i: nat, j: nat)
    requires i < j < |fills| && fills[i].orderId == fills[j].orderId
    ensures FillCount(fills, fills[i].orderId) >= 2
    decreases |fills|
  {
    var rest := fills[..|fills| - 1];
    var id := fills[i].orderId;
    if j < |rest| {
      TwoFillsCounted(rest, i, j);
    } else {
      assert rest[i].orderId == id;
      FillsCounted(rest, id);
    }
  }

  /** The fill answers one FILLED order, at its terminal instant, whole and not early. */
  predicate Executes(f: Fill, orders: seq<Order>) {
    && 1 <= f.orderId <= |orders|
    && var o := orders[f.orderId - 1];
    && o.id == o.sequence == f.orderId && o.status == Filled && o.terminalAt == Some(f.time)
    && f.side == o.intent.side && f.quantity == o.intent.quantity && o.eligibleIndex <= f.candleIndex
  }

  /** Accepted order and fill tables are one-to-one: every fill executes a FILLED order of its own, and
      every FILLED order has one. */
  lemma {:induction false} SequencesMean(orders: seq<Order>, fills: seq<Fill>)
    requires SequencesOk(orders, fills)
    ensures forall j :: 0 <= j < |fills| ==> fills[j].fillId == j + 1 && Executes(fills[j], orders)
    ensures OneFillPerOrder(fills) && FilledHaveFills(orders, fills)
    ensures forall i :: 0 <= i < |orders| ==> orders[i].id == orders[i].sequence == i + 1
  {
    forall j | 0 <= j < |fills| ensures Executes(fills[j], orders) {
      var id := fills[j].orderId;
      assert FillFits(orders, fills[j]);
      FillsCounted(fills, id);
      assert CountFits(orders[id - 1], FillCount(fills, id));
    }
    forall i, j | 0 <= i < j < |fills| ensures fills[i].orderId != fills[j].orderId {
      var id := fills[i].orderId;
      assert FillFits(orders, fills[i]);
      assert CountFits(orders[id - 1], FillCount(fills, id));
      if id == fills[j].orderId { TwoFillsCounted(fills, i, j); }
    }
    forall i: nat | i < |orders| && orders[i].status == Filled ensures HasFill(fills, i + 1) {
      assert CountFits(orders[i], FillCount(fills, i + 1));
      FillsCounted(fills, i + 1);
    }
  }

  // Instants and indexes

  predicate Inside(t: int, start: int, end: int) { start <= t <= end }

  predicate InsideIfAny(t: Option<int>, start: int, end: int) { t.Some? ==> Inside(t.value, start, end) }

  /** The order lives inside the evaluation, in order, and a start order begins with it. */
  predicate OrderDated(o: Order, n: int, start: int, end: int) {
    && Inside(o.createdAt, start, end) && InsideIfAny(o.openedAt, start, end) && InsideIfAny(o.terminalAt, start, end)
    && -1 <= o.createdIndex < n && 0 <= o.eligibleIndex <= n
    && (o.createdIndex == -1 ==> o.createdAt == start)
    && (o.openedAt.Some? ==> o.createdAt <= o.openedAt.value)
    && (o.terminalAt.Some? ==> o.createdAt <= o.terminalAt.value)
    && (o.terminalAt.Some? && o.openedAt.Some? ==> o.openedAt.value <= o.terminalAt.value)
  }

  predicate PostingDated(x: Posting, i: nat, n: int, start: int, end: int) {
    if i == 0 then x.event.kind == InitialCapital && x.event.time == start && x.event.candleIndex == -1
    else Inside(x.event.time, start, end) && 0 <= x.event.candleIndex < n
  }

  /** Everything in accepted tables is dated and indexed inside the evaluation, one curve point for each
      candle and each after its start. */
  lemma {:induction false} BoundariesMean(a: Artifacts, range: DataRange)
    requires BoundariesOk(a, range)
    ensures |a.equity| == a.candleCount >= 1
    ensures forall i :: 0 <= i < |a.equity| ==>
      a.equity[i].candleIndex == i && range.start < a.equity[i].time <= range.end
    ensures forall i :: 0 <= i < |a.orders| ==> OrderDated(a.orders[i], a.candleCount, range.start, range.end)
    ensures forall j :: 0 <= j < |a.fills| ==>
      Inside(a.fills[j].time, range.start, range.end) && a.fills[j].candleIndex < a.candleCount
    ensures a.entries != []
    ensures forall i: nat :: i < |a.entries| ==>
      PostingDated(a.entries[i].body, i, a.candleCount, range.start, range.end)
    ensures forall i :: 0 <= i < |a.trades| ==>
      Inside(a.trades[i].entryTime, range.start, range.end) && Inside(a.trades[i].exitTime, range.start, range.end)
  {
    var b := Bodies(a.entries);
    forall i: nat | i < |a.entries| ensures PostingDated(a.entries[i].body, i, a.candleCount, range.start, range.end) {
      assert b[i] == a.entries[i].body;
      if i > 0 { assert EntryWithin(b[i].event, a.candleCount, range); }
    }
    forall i | 0 <= i < |a.orders| ensures OrderDated(a.orders[i], a.candleCount, range.start, range.end) {
      assert OrderWithin(a.orders[i], a.candleCount, range);
    }
  }

  // The ledger

  /** Entry `i` carries on the entry before it: number, digest and balances. */
  predicate CarriesOn(hash: HashFunction, entries: seq<Entry>, i: nat)
    requires i < |entries|
  {
    var x := entries[i];
    var quote := if i == 0 then 0.0 else entries[i - 1].body.quoteBalance;
    var base := if i == 0 then 0.0 else entries[i - 1].body.baseBalance;
    && x.body.sequence == i + 1
    && x.previousHash == (if i == 0 then ZERO_HASH else entries[i - 1].entryHash)
    && x.entryHash == hash(x.previousHash, x.body)
    && x.body.quoteBalance == quote + x.body.event.quoteDelta >= 0.0
    && x.body.baseBalance == base + x.body.event.baseDelta >= 0.0
  }

  /** An accepted ledger carries on from entry to entry, never repeats a digest, and sums to its last balances. */
  lemma {:induction false} LedgerMeans(hash: HashFunction, entries: seq<Entry>)
    requires Intact(hash, entries)
    ensures forall i: nat :: i < |entries| ==> CarriesOn(hash, entries, i)
    ensures forall i, j :: 0 <= i < j < |entries| ==> entries[i].entryHash != entries[j].entryHash
    ensures QuoteBalance(Bodies(entries)) == TotalQuote(Bodies(entries))
    ensures BaseBalance(Bodies(entries)) == TotalBase(Bodies(entries))
  {
    var b := Bodies(entries);
    forall i: nat | i < |entries| ensures CarriesOn(hash, entries, i) {
      assert LinkedAt(hash, entries, i) && PostedAt(b, i);
      assert b[i] == entries[i].body && (i > 0 ==> b[i - 1] == entries[i - 1].body);
    }
    BalancesAreSums(b);
  }

  // The curve

  lemma {:induction false} DrawdownIsPercent(peak: real, drawdown: real)
    requires 0.0 < peak
    ensures DrawdownPct(peak, drawdown) * peak == 100.0 * drawdown
  {
    CancelFactor(drawdown, peak);
    var q := drawdown / peak;
    assert q * 100.0 * peak == 100.0 * (q * peak);
  }

  /** A point of a curve: its equity is its cash and its position at the close, its drawdown is what its
      equity lacks of its peak, in percent of that peak. */
  predicate PointAddsUp(e: EquityPoint, capital: real) {
    && e.equity == e.cash + e.base * e.close && 0.0 <= e.cash && 0.0 <= e.base
    && capital <= e.peak && e.equity <= e.peak && e.drawdown == e.peak - e.equity
    && e.drawdownPct * e.peak == 100.0 * e.drawdown
  }

  lemma {:induction false} MarkedPointAddsUp(p: Portfolio, price: real, point: EquityPoint)
    requires Sound(p) && 0.0 < p.initial <= p.peak && MarkToMarket(p, price).Ok?
    requires Matches(MarkToMarket(p, price).value, point) && point.close == price
    ensures PointAddsUp(point, p.initial) && p.peak <= point.peak
    ensures point.cash == p.cash && point.base == p.base
  {
    hide DrawdownPct;
    MarkKeepsSound(p, price);
    var m := Marked(p, price);
    MarkedPct(p, price);
    DrawdownIsPercent(m.peak, m.drawdown);
  }

  lemma {:induction false} MarkedPct(p: Portfolio, price: real)
    ensures Marked(p, price).drawdownPct == DrawdownPct(Marked(p, price).peak, Marked(p, price).drawdown)
    ensures Marked(p, price).drawdown == Marked(p, price).peak - Marked(p, price).equity
    ensures Marked(p, price).equity <= Marked(p, price).peak
  {
    hide DrawdownPct;
  }

  lemma {:induction false} FillsRaisePeak(p: Portfolio, fills: seq<Fill>)
    requires Sound(p) && ApplyAll(p, fills).Ok?
    ensures var q := ApplyAll(p, fills).value;
      && Sound(q) && q.initial == p.initial && p.peak <= q.peak
      && q.cash == p.cash + CashFlow(fills) && q.base == p.base + Held(fills)
  {
    hide ApplyFill, Sound;
    if fills != [] {
      FillsRaisePeak(p, fills[..|fills| - 1]);
      ApplyFillAccepts(ApplyAll(p, fills[..|fills| - 1]).value, fills[|fills| - 1]);
    }
  }

  /** What the replay makes of point `i`. */
  predicate PointReplayed(capital: real, fills: seq<Fill>, equity: seq<EquityPoint>, i: nat)
    requires i < |equity|
  {
    && PointAddsUp(equity[i], capital)
    && equity[i].cash == capital + CashFlow(ByCandle(fills, i + 1)) && equity[i].base == Held(ByCandle(fills, i + 1))
    && (i > 0 ==> equity[i - 1].peak <= equity[i].peak)
  }

  /** Every point of a curve that replays adds up, on the cash and the position that the fills of the
      candles so far leave, and the peak never falls. */
  lemma {:induction false} CurveMeans(capital: Positive, fills: seq<Fill>, equity: seq<EquityPoint>)
    requires Indexed(equity) && ReplayTo(capital, fills, equity).Ok?
    ensures forall i: nat :: i < |equity| ==> PointReplayed(capital, fills, equity, i)
    ensures var p, n := ReplayTo(capital, fills, equity).value, |equity|;
      && Sound(p) && p.initial == capital <= p.peak
      && p.cash == capital + CashFlow(ByCandle(fills, n)) && p.base == Held(ByCandle(fills, n))
      && (n > 0 ==> p.peak == equity[n - 1].peak && p.equity == equity[n - 1].equity
                    && p.drawdown == equity[n - 1].drawdown && p.drawdownPct == equity[n - 1].drawdownPct)
  {
    hide ApplyAll, MarkToMarket, Sound, FillsAt, PointAddsUp, CashFlow, Held;
    if equity == [] {
      CapitalIsSound(capital);
      StartsAtCapital(capital);
      Nothing();
    } else {
      var n := |equity| - 1;
      var rest, point := equity[..n], equity[n];
      CurveMeans(capital, fills, rest);
      var p := ReplayTo(capital, fills, rest).value;
      var due := FillsAt(fills, n);
      FillsRaisePeak(p, due);
      FlowsJoin(ByCandle(fills, n), due);
      var q := ApplyAll(p, due).value;
      MarkedPointAddsUp(q, point.close, point);
      MarkStaysSound(q, point.close);
      MarkKeepsInitial(q, point.close);
      forall i: nat | i < |equity| ensures PointReplayed(capital, fills, equity, i) {
        if i < n {
          assert PointReplayed(capital, fills, rest, i);
        }
      }
    }
  }

  lemma {:induction false} StartsAtCapital(capital: Positive)
    ensures Initialize(capital).initial == Initialize(capital).peak == capital
  {}

  lemma {:induction false} MarkKeepsInitial(p: Portfolio, price: real)
    requires MarkToMarket(p, price).Ok?
    ensures MarkToMarket(p, price).value.initial == p.initial
  {}

  // The whole

  /** What acceptance guarantees of every table. */
  lemma {:induction false} AcceptedTablesMean(hash: HashFunction, R: Arithmetic, d: Declared, candles: seq<Candle>,
                                              a: Artifacts)
    requires Accepts(hash, R, d, candles, a)
    ensures forall j :: 0 <= j < |a.fills| ==> Executes(a.fills[j], a.orders)
    ensures OneFillPerOrder(a.fills) && FilledHaveFills(a.orders, a.fills)
    ensures forall i :: 0 <= i < |a.orders| ==>
      OrderDated(a.orders[i], |a.equity|, d.evaluation.start, d.evaluation.end)
    ensures a.entries != [] && forall i: nat :: i < |a.entries| ==> CarriesOn(hash, a.entries, i)
    ensures a.final.cash == TotalQuote(Bodies(a.entries)) == d.capital + CashFlow(a.fills)
    ensures a.final.base == TotalBase(Bodies(a.entries)) == Held(a.fills)
    ensures a.final.cost == OpenCost(ByCandle(a.fills, |a.equity|)) && a.final.average * a.final.base == a.final.cost
    ensures a.final.realized - a.final.cost == CashFlow(a.fills)
    ensures a.final.fees == FeesPaid(a.fills) && a.final.slippage == SlippagePaid(a.fills)
    ensures forall i: nat :: i < |a.equity| ==> PointReplayed(d.capital, a.fills, a.equity, i)
    ensures a.equity != []
    ensures var e := a.equity[|a.equity| - 1];
      && a.final.equity == e.equity && a.final.peak == e.peak
      && a.final.drawdown == e.drawdown && a.final.drawdownPct == e.drawdownPct
  {
    hide SequencesOk, BoundariesOk, Intact, ReplayTo, LotsAfter, RegimesOk, CarriesOn, OrderDated, Executes,
      PointReplayed, FilledHaveFills, CashFlow, Held, FeesPaid, SlippagePaid, OpenCost, ByCandle, TotalQuote, TotalBase,
      QuoteBalance, BaseBalance, NeverOversold;
    SequencesMean(a.orders, a.fills);
    BoundariesMean(a, d.evaluation);
    LedgerMeans(hash, a.entries);
    CurveMeans(d.capital, a.fills, a.equity);
    ReplayFolds(d.capital, a.fills, a.equity);
    RegroupingMovesNothing(a.fills, |a.equity|);
    ThroughEverything(a.fills, |a.equity|);
  }
}
