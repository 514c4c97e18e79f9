/** What the verifier's acceptance says of tables that the engine need not have written. */
module AcceptedTables {
  import opened Domain
  import opened Accounting
  import opened HashChain
  import opened Trades
  import opened Indicators
  import opened EngineSpec
  import opened Replay
  import opened ReplayTheorems
  import opened RunTrades
  import opened Verifier
  import opened VerifierTheorems

  // The list, and the same fills regrouped as the replay takes them

  /** The fills of the first `n` candles, candle by candle. */
  function ByCandle(fills: seq<Fill>, n: nat): seq<Fill> {
    if n == 0 then [] else ByCandle(fills, n - 1) + FillsAt(fills, n - 1)
  }

  /** The fills of the first `n` candles, as listed. */
  function Through(fills: seq<Fill>, n: nat): seq<Fill> {
    if fills == [] then []
    else
      var last := fills[|fills| - 1];
      Through(fills[..|fills| - 1], n) + (if last.candleIndex < n then [last] else [])
  }

  lemma {:induction false} FlowsJoin(a: seq<Fill>, b: seq<Fill>)
    ensures CashFlow(a + b) == CashFlow(a) + CashFlow(b) && Held(a + b) == Held(a) + Held(b)
    ensures FeesPaid(a + b) == FeesPaid(a) + FeesPaid(b) && SlippagePaid(a + b) == SlippagePaid(a) + SlippagePaid(b)
    decreases |b|
  {
    if b == [] {
      assert a + b == a;
    } else {
      assert (a + b)[..|a + b| - 1] == a + b[..|b| - 1];
      FlowsJoin(a, b[..|b| - 1]);
    }
  }

  lemma {:induction false} FlowsGroup(fills: seq<Fill>, n: nat)
    ensures CashFlow(Through(fills, n + 1)) == CashFlow(Through(fills, n)) + CashFlow(FillsAt(fills, n))
    ensures Held(Through(fills, n + 1)) == Held(Through(fills, n)) + Held(FillsAt(fills, n))
    ensures FeesPaid(Through(fills, n + 1)) == FeesPaid(Through(fills, n)) + FeesPaid(FillsAt(fills, n))
    ensures SlippagePaid(Through(fills, n + 1)) == SlippagePaid(Through(fills, n)) + SlippagePaid(FillsAt(fills, n))
  {
    hide CashFlow, Held, FeesPaid, SlippagePaid;
    Nothing();
    if fills != [] {
      var rest, last := fills[..|fills| - 1], fills[|fills| - 1];
      FlowsGroup(rest, n);
      FlowsJoin(Through(rest, n + 1), if last.candleIndex < n + 1 then [last] else []);
      FlowsJoin(Through(rest, n), if last.candleIndex < n then [last] else []);
      FlowsJoin(FillsAt(rest, n), if last.candleIndex == n then [last] else []);
    }
  }

  lemma {:induction false} Nothing()
    ensures CashFlow([]) == 0.0 && Held([]) == 0.0 && FeesPaid([]) == 0.0 && SlippagePaid([]) == 0.0
  {}

  lemma {:induction false} ThroughNothing(fills: seq<Fill>)
    ensures Through(fills, 0) == []
  {
    if fills != [] { ThroughNothing(fills[..|fills| - 1]); }
  }

  lemma {:induction false} ThroughEverything(fills: seq<Fill>, n: nat)
    requires forall j :: 0 <= j < |fills| ==> fills[j].candleIndex < n
    ensures Through(fills, n) == fills
  {
    if fills != [] { ThroughEverything(fills[..|fills| - 1], n); }
  }

  /** Regrouping moves no money and no position. */
  lemma {:induction false} RegroupingMovesNothing(fills: seq<Fill>, n: nat)
    ensures CashFlow(ByCandle(fills, n)) == CashFlow(Through(fills, n))
    ensures Held(ByCandle(fills, n)) == Held(Through(fills, n))
    ensures FeesPaid(ByCandle(fills, n)) == FeesPaid(Through(fills, n))
    ensures SlippagePaid(ByCandle(fills, n)) == SlippagePaid(Through(fills, n))
  {
    hide CashFlow, Held, FeesPaid, SlippagePaid, Through, FillsAt;
    if n == 0 {
      ThroughNothing(fills);
    } else {
      RegroupingMovesNothing(fills, n - 1);
      FlowsGroup(fills, n - 1);
      FlowsJoin(ByCandle(fills, n - 1), FillsAt(fills, n - 1));
    }
  }

  predicate InCandleOrder(fills: seq<Fill>) {
    forall i, j :: 0 <= i < j < |fills| ==> fills[i].candleIndex <= fills[j].candleIndex
  }

  lemma {:induction false} OrderPrefix(fills: seq<Fill>, rest: seq<Fill>)
    requires InCandleOrder(fills) && fills != [] && rest == fills[..|fills| - 1]
    ensures InCandleOrder(rest) && forall j :: 0 <= j < |rest| ==> rest[j].candleIndex <= fills[|fills| - 1].candleIndex
  {}

  lemma {:induction false} ThroughGrows(fills: seq<Fill>, n: nat)
    requires InCandleOrder(fills)
    ensures Through(fills, n + 1) == Through(fills, n) + FillsAt(fills, n)
  {
    hide InCandleOrder;
    if fills != [] {
      var rest, last := fills[..|fills| - 1], fills[|fills| - 1];
      OrderPrefix(fills, rest);
      ThroughGrows(rest, n);
      if last.candleIndex < n {
        FillsAtElsewhere(rest, n);
        assert Through(rest, n + 1) == Through(rest, n);
      }
    }
  }

  /** Regrouping fills listed in candle order leaves the list as it is. */
  lemma {:induction false} OrderedStaysListed(fills: seq<Fill>, n: nat)
    requires InCandleOrder(fills)
    ensures ByCandle(fills, n) == Through(fills, n)
  {
    hide Through, FillsAt, InCandleOrder;
    if n == 0 {
      ThroughNothing(fills);
    } else {
      OrderedStaysListed(fills, n - 1);
      ThroughGrows(fills, n - 1);
    }
  }

  // The replay's side

  predicate Indexed(equity: seq<EquityPoint>) { forall i :: 0 <= i < |equity| ==> equity[i].candleIndex == i }

  /** The replay's money is that of the regrouped fills applied without marks. */
  lemma {:induction false} ReplayAccounts(capital: Positive, fills: seq<Fill>, equity: seq<EquityPoint>)
    requires Indexed(equity) && ReplayTo(capital, fills, equity).Ok?
    ensures var p := ReplayTo(capital, fills, equity).value;
      Sound(p) && Accounted(capital, ByCandle(fills, |equity|), p)
  {
    hide ApplyAll, MarkToMarket, Matches, Sound, Marked, Accounted, FillsAt;
    if equity == [] {
      CapitalIsSound(capital);
      CapitalIsAccounted(capital);
    } else {
      var rest, point := equity[..|equity| - 1], equity[|equity| - 1];
      ReplayAccounts(capital, fills, rest);
      var p, due := ReplayTo(capital, fills, rest).value, FillsAt(fills, point.candleIndex);
      AppliedStaysAccounted(capital, ByCandle(fills, |rest|), p, due);
      ApplyAllKeepsSound(p, due);
      var q := ApplyAll(p, due).value;
      MarkStaysSound(q, point.close);
      MarkStaysAccounted(capital, ByCandle(fills, |equity|), q, point.close);
    }
  }

  lemma {:induction false} MarkStaysSound(p: Portfolio, price: real)
    requires Sound(p) && MarkToMarket(p, price).Ok?
    ensures MarkToMarket(p, price).value == Marked(p, price) && Sound(Marked(p, price))
  {
    MarkKeepsSound(p, price);
  }

  lemma {:induction false} CapitalIsAccounted(capital: Positive)
    ensures Accounted(capital, [], Initialize(capital))
  {}

  /** The published portfolio's cash, position and cost are folds over the regrouped fills. */
  lemma {:induction false} ReplayFolds(capital: Positive, fills: seq<Fill>, equity: seq<EquityPoint>)
    requires Indexed(equity) && ReplayTo(capital, fills, equity).Ok?
    requires forall j :: 0 <= j < |fills| ==> fills[j].candleIndex < |equity|
    ensures var p, regrouped := ReplayTo(capital, fills, equity).value, ByCandle(fills, |equity|);
      && Sound(p) && 0.0 <= p.cash && 0.0 <= p.base && NeverOversold(regrouped)
      && p.base == Held(fills) && p.cost == OpenCost(regrouped) && p.realized - p.cost == CashFlow(fills)
      && (p.base == 0.0 ==> p.cost == 0.0)
      && p.fees == FeesPaid(fills) && p.slippage == SlippagePaid(fills)
  {
    hide ApplyAll, ReplayTo, FillsAt, ByCandle, CashFlow, Held, FeesPaid, SlippagePaid, OpenCost, NeverOversold;
    var regrouped := ByCandle(fills, |equity|);
    ReplayAccounts(capital, fills, equity);
    ApplyAllFolds(capital, regrouped);
    AcceptedNeverOversold(Initialize(capital), regrouped);
    RegroupingMovesNothing(fills, |equity|);
    ThroughEverything(fills, |equity|);
  }

  // What agreement and acceptance guarantee

  lemma {:induction false} AgreedTablesReplay(hash: HashFunction, R: Arithmetic, d: Declared, candles: seq<Candle>,
                                              a: Artifacts)
    requires TablesAgree(hash, R, d, candles, a)
    ensures Indexed(a.equity) && forall j :: 0 <= j < |a.fills| ==> a.fills[j].candleIndex < |a.equity|
    ensures FillsWithin(a.fills, a.candleCount, d.evaluation)
    ensures var r := ReplayTo(d.capital, a.fills, a.equity); r.Ok? && r.value.View() == a.final
  {
    hide RegimesOk, SequencesOk, Intact, ReplayTo, OrdersWithin, LedgerWithin, TradesWithin;
  }

  lemma {:induction false} OtherTrades(hash: HashFunction, R: Arithmetic, d: Declared, candles: seq<Candle>,
                                       a: Artifacts, trades: seq<Trade>)
    requires TablesAgree(hash, R, d, candles, a) && TradesWithin(trades, d.evaluation)
    ensures TablesAgree(hash, R, d, candles, a.(trades := trades))
  {
    hide SequencesOk, Intact, Reconstructs, OrdersWithin, LedgerWithin, TradesWithin, CurveWithin;
  }

  /** Tables that agree can be accepted, with some trades, exactly when no SELL takes more than the list
      holds before it and none is dated before the BUY that opened its position. Fills listed in candle
      order meet the first condition. */
  lemma {:induction false} AgreedTablesAcceptable(hash: HashFunction, R: Arithmetic, d: Declared,
                                                  candles: seq<Candle>, a: Artifacts)
    requires TablesAgree(hash, R, d, candles, a)
    ensures (exists trades :: Accepts(hash, R, d, candles, a.(trades := trades))) <==>
      NeverOversold(a.fills) && ExitsInOrder(a.fills)
    ensures InCandleOrder(a.fills) ==> NeverOversold(a.fills)
  {
    hide TablesAgree, LotsAfter, ReplayTo, NeverOversold, ExitsInOrder, InCandleOrder, Tracks, Sound, TradesWithin,
      FillsWithin;
    DerivationDecided(a.fills);
    AgreedTablesReplay(hash, R, d, candles, a);
    if LotsAfter(a.fills).Ok? {
      FillTimesHold(a.fills, a.candleCount, d.evaluation);
      TradesKeepFillTimes(a.fills, d.evaluation);
      OtherTrades(hash, R, d, candles, a, LotsAfter(a.fills).value.trades);
      assert Accepts(hash, R, d, candles, a.(trades := LotsAfter(a.fills).value.trades));
    }
    if InCandleOrder(a.fills) {
      ReplayFolds(d.capital, a.fills, a.equity);
      OrderedStaysListed(a.fills, |a.equity|);
      ThroughEverything(a.fills, |a.equity|);
    }
  }

  /** Accepted tables agree on the position. Their trades explain the published portfolio exactly when
      the listed fills have the same average cost as the same fills taken candle by candle, and are off
      by the difference. That is so when nothing is held at the end, and when the fills are listed in
      candle order. */
  lemma {:induction false} AcceptedTradesAddUp(hash: HashFunction, R: Arithmetic, d: Declared, candles: seq<Candle>,
                                               a: Artifacts)
    requires Accepts(hash, R, d, candles, a)
    ensures LotsAfter(a.fills).value.quantity == a.final.base == Held(a.fills)
    ensures var listed, regrouped := OpenCost(a.fills), OpenCost(ByCandle(a.fills, |a.equity|));
      && NetPnl(a.trades) - a.final.realized == listed - regrouped
      && (TradesExplain(a.fills, a.final) <==> listed == regrouped)
      && (Held(a.fills) == 0.0 || InCandleOrder(a.fills) ==> listed == regrouped)
  {
    hide TablesAgree, ReplayTo, LotsAfter, NetPnl, GrossProfit, GrossLoss, OpenCost, CashFlow, Held, ByCandle,
      NeverOversold, ExitsInOrder, InCandleOrder, Sound;
    AgreedTablesReplay(hash, R, d, candles, a);
    ReplayFolds(d.capital, a.fills, a.equity);
    DerivationDecided(a.fills);
    LotFolds(a.fills);
    ProfitMinusLoss(a.trades);
    if InCandleOrder(a.fills) {
      OrderedStaysListed(a.fills, |a.equity|);
      ThroughEverything(a.fills, |a.equity|);
    }
  }
}
