/** A family of finished runs, one for every unit price, evaluation range and close, where published tables
    and promises part: a hidden peak, a late start order, a cut range, a drawdown without a halt. */
module RejectedRun {
  import opened Domain
  import opened RealArithmetic
  import opened Accounting
  import opened Execution
  import opened Risk
  import opened Ledger
  import opened Indicators
  import opened Boundary = Strategy
  import opened CandleFeed
  import opened EngineSpec
  import opened Priority
  import opened BookInvariant
  import opened RunSafety
  import opened RunConclusion
  import opened RunTheorems
  import opened Replay
  import opened ReplayTheorems
  import opened HashChain
  import opened Trades
  import opened Verifier
  import opened VerifierTheorems
  import opened RunHalt
  import opened LookAhead

  /** A unit price, an evaluation that holds instant 0, when the only candle opens, and its close. */
  datatype Setting = Setting(u: Positive, start: int, end: int, close: int)
  type Story = w: Setting | w.start <= 0 < w.end && 0 < w.close witness Setting(1.0, 0, 1, 1)

  /** Capital for ten units, one percent of fees, a forced close, and a halt at a drawdown of a
      tenth of a percent. */
  function OnePercent(w: Story): Config {
    Config(10.0 * w.u, FeeModel(100.0, 100.0), 0.0, true, ExplicitQuantity,
           Constraints(1.0, 1.0, 1.0, 0.0, None),
           RiskLimits(None, None, 1, 10, Some(0.1), true, true, 0.0, StopDisabled),
           1, 10, 10, 100, w.start, w.start, w.end, 1, None)
  }

  const BUY_ONE: Intent := Intent(Buy, Market, 1.0, GTC, NoTag)

  /** Buys one unit at the start and never acts again. */
  function BuyOnce(calls: seq<Call>): Reply { Intents(if |calls| == 1 then [BUY_ONE] else []) }

  function Scenario(R: Arithmetic, w: Story): Env { Env(OnePercent(w), Boundary.Strategy.Strategy(BuyOnce, true), R) }

  /** Opens at the unit price at instant 0 and closes at twice that. */
  function Rally(w: Story): Candle { Candle(0, true, true, 0, w.close, w.u, 2.0 * w.u, w.u, 2.0 * w.u) }

  function Purchase(w: Story): Fill {
    Fill(1, 1, MarketOpen, Taker, Buy, 1.0, w.u, w.u, w.u, w.u / 100.0, 0.0, 0, 0)
  }

  const OPEN_BUY: Order := Order(1, 1, 0, -1, 0, BUY_ONE, Open, Some(0), None, None)

  lemma {:induction false} StartAsks(w: Story, R: Arithmetic)
    ensures Start(Scenario(R, w)).Ok?
    ensures var s := Start(Scenario(R, w)).value;
      && s == Fresh(Scenario(R, w)).(calls := s.calls, pending := [BUY_ONE]) && |s.calls| == 1
  {}

  lemma {:induction false} WholeUnits(w: Story)
    ensures Truncate(1.0, 1.0) == 1.0 && Notional(1.0, w.u) == w.u
  {}

  lemma {:induction false} Rates(w: Story)
    ensures OnePercent(w).SlippageRate() == 0.0 && OnePercent(w).fees.Rate(Taker) == 0.01
  {}

  lemma {:induction false} PriceAt(w: Story, price: real, side: Side)
    ensures AdversePrice(OnePercent(w), price, side) == price
  {
    assert OnePercent(w).SlippageRate() == 0.0;
    assert price * 1.0 == price;
  }

  lemma {:induction false} IntentSizes(w: Story, p: Portfolio)
    ensures Size(OnePercent(w), BUY_ONE, p, w.u).Ok? && Size(OnePercent(w), BUY_ONE, p, w.u).value.quantity == 1.0
  {
    hide Truncate, AdversePrice, FeeOn, Outlay;
    WholeUnits(w);
    PriceAt(w, w.u, Buy);
  }

  lemma {:induction false} IntentAccepted(w: Story, p: Portfolio)
    requires p == Initialize(10.0 * w.u)
    ensures EvaluateOrder(OnePercent(w), BUY_ONE, p, w.u, 0, 0, false) == Accept(BUY_ONE, w.u)
  {
    hide Truncate, AdversePrice, Notional, Exposure, BuyRejection;
    WholeUnits(w);
    PriceAt(w, w.u, Buy);
    CashSuffices(w, p, Exposure(p, 1.0, w.u));
    assert BUY_ONE.(quantity := 1.0) == BUY_ONE;
  }

  lemma {:induction false} CashSuffices(w: Story, p: Portfolio, exposure: real)
    requires p == Initialize(10.0 * w.u)
    ensures BuyRejection(OnePercent(w), p, w.u, Taker, exposure) == None
  {
    hide FeeModel.Rate, FeeOn, Config.Reserve, Exceeds, Initialize;
    EnoughCash(w);
    assert p.cash == 10.0 * w.u by { CapitalIsCash(10.0 * w.u); }
    assert !Exceeds(exposure, OnePercent(w).limits.maxPositionNotional) by { Unlimited(exposure); }
  }

  lemma {:induction false} CapitalIsCash(capital: Positive)
    ensures Initialize(capital).cash == capital
  {}

  lemma {:induction false} Unlimited(x: real)
    ensures !Exceeds(x, None)
  {}

  lemma {:induction false} EnoughCash(w: Story)
    ensures 10.0 * w.u - w.u - FeeOn(w.u, OnePercent(w).fees.Rate(Taker)) >= OnePercent(w).Reserve()
  {
    hide FeeModel.Rate, FeeOn;
    Rates(w);
    FeeAt(w.u);
  }

  lemma {:induction false} FeeAt(notional: real)
    ensures FeeOn(notional, 0.01) == notional / 100.0
  {}

  lemma {:induction false} IntentOpens(w: Story, p: Portfolio)
    requires p == Initialize(10.0 * w.u)
    ensures Submit(OnePercent(w), p, [], [BUY_ONE], -1, 0, w.u, false) == Ok([OPEN_BUY])
  {
    hide Size, EvaluateOrder;
    IntentSizes(w, p);
    IntentAccepted(w, p);
    var intents := [BUY_ONE];
    assert intents[..0] == [];
    assert BUY_ONE.(quantity := 1.0) == BUY_ONE;
    assert Decide(OnePercent(w), p, [], BUY_ONE, -1, 0, w.u, false) == Ok(OPEN_BUY);
    assert [] + [OPEN_BUY] == [OPEN_BUY];
    assert SubmitOne(OnePercent(w), p, [], BUY_ONE, -1, 0, w.u, false) == Ok([OPEN_BUY]);
    assert Submit(OnePercent(w), p, [], intents[..0], -1, 0, w.u, false) == Ok([]);
  }

  lemma {:induction false} OrderIsEligible()
    ensures EligiblePositions([OPEN_BUY], 0) == [0]
  {
    assert DuePositions([OPEN_BUY], true, Some(0), 0) == [];
  }

  lemma {:induction false} OrderFills(w: Story)
    ensures QuoteOrder(OnePercent(w), OPEN_BUY, Rally(w), 0) == Ok(Some(Quote(w.u, w.u, MarketOpen, Taker, 0.0)))
    ensures MakeFill(OnePercent(w), OPEN_BUY, Quote(w.u, w.u, MarketOpen, Taker, 0.0), 0, 0, 1) == Ok(Purchase(w))
  {
    hide AdversePrice, FeeModel.Rate;
    Rates(w);
    PriceAt(w, w.u, Buy);
  }

  lemma {:induction false} OrderExecutes(w: Story, b: Book)
    requires b.portfolio == Initialize(10.0 * w.u) && b.fills == []
    ensures Judge(OnePercent(w), b, OPEN_BUY, Rally(w), 0) == Ok(Execute(Purchase(w)))
  {
    hide QuoteOrder, MakeFill;
    OrderFills(w);
    assert ValidateFill(OnePercent(w), Purchase(w), b.portfolio).None?;
  }

  // The candle, step by step

  lemma {:induction false} BuyingIsSound(w: Story)
    ensures ApplyFill(Initialize(10.0 * w.u), Purchase(w)).Ok?
    ensures var p := ApplyFill(Initialize(10.0 * w.u), Purchase(w)).value.after;
      Sound(p) && p.cash == 8.99 * w.u && p.base == 1.0
  {
    hide ApplyFill, Sound;
    CapitalIsSound(10.0 * w.u);
    ApplyFillAccepts(Initialize(10.0 * w.u), Purchase(w));
    assert Affordable(Initialize(10.0 * w.u), Purchase(w));
  }

  /** The portfolio after the purchase, before the mark at the close. */
  function Holding(w: Story): Portfolio {
    BuyingIsSound(w);
    ApplyFill(Initialize(10.0 * w.u), Purchase(w)).value.after
  }

  lemma {:induction false} HoldingPeak(w: Story)
    ensures Holding(w).peak == 10.0 * w.u
  {
    hide Portfolio.Valid;
    BuyingIsSound(w);
    var t := Bought(Initialize(10.0 * w.u), Purchase(w));
    assert Holding(w) == Marked(t, w.u);
    assert t.cash == 8.99 * w.u && t.base == 1.0 && t.peak == 10.0 * w.u;
  }

  lemma {:induction false} SilentReply(w: Story, R: Arithmetic, s: State, call: Call, index: int, t: int,
                                       reference: real)
    requires ValidContext(call.context) && |s.calls| >= 1 && EventCount(s) <= 100
    ensures Respond(Scenario(R, w), s, call, index, t, reference) == Ok(s.(calls := s.calls + [call]))
  {
    hide ValidContext;
    assert (s.calls + [call]) != [] && |s.calls + [call]| != 1;
  }

  /** A state whose book, calls and feed are those of the scenario up to some point. */
  predicate Before(w: Story, s: State) {
    && s.book.portfolio == Initialize(10.0 * w.u) && s.book.fills == [] && Records(s.book.ledger, s.book.portfolio)
    && |s.book.ledger| == 1 && s.processed == 0 && s.history == [] && s.equity == [] && |s.calls| == 1
    && !s.halt
  }

  lemma {:induction false} BuyIsTaken(w: Story, ledger: Books)
    requires Records(ledger, Initialize(10.0 * w.u))
    ensures TakeFill(OnePercent(w), Book(Initialize(10.0 * w.u), [OPEN_BUY], [], ledger), 0, Purchase(w), 0).Ok?
    ensures var b := TakeFill(OnePercent(w), Book(Initialize(10.0 * w.u), [OPEN_BUY], [], ledger), 0,
                            Purchase(w), 0).value;
      && b.portfolio == Holding(w) && b.fills == [Purchase(w)] && Records(b.ledger, b.portfolio)
      && |b.orders| == 1 && b.orders[0].createdIndex == -1 && |b.ledger| <= |ledger| + 3
  {
    hide ApplyFill, RecordFill, Records, Sound;
    CapitalIsSound(10.0 * w.u);
    BuyingIsSound(w);
    RecordFillAgrees(ledger, Initialize(10.0 * w.u), Purchase(w));
  }

  /** What trading the candle leaves. */
  predicate AfterTrading(w: Story, s: State, s2: State) {
    && s2.book.portfolio == Holding(w) && s2.book.fills == [Purchase(w)] && Records(s2.book.ledger, Holding(w))
    && |s2.book.ledger| <= 4 && |s2.book.orders| == 1 && s2.book.orders[0].createdIndex == -1 && |s2.calls| == 2
    && s2 == s.(book := s2.book, calls := s2.calls, lastFill := Some(Purchase(w)))
  }

  lemma {:induction false} OrderIsProcessed(w: Story, R: Arithmetic, s: State)
    requires Before(w, s) && s.book.orders == [OPEN_BUY]
    ensures ProcessOrder(Scenario(R, w), s, Rally(w), 0).Ok?
    ensures AfterTrading(w, s, ProcessOrder(Scenario(R, w), s, Rally(w), 0).value)
  {
    hide Judge, TakeFill, Records, Respond, Holding;
    OrderExecutes(w, s.book);
    BuyIsTaken(w, s.book.ledger);
    var b := TakeFill(OnePercent(w), s.book, 0, Purchase(w), 0).value;
    var filled := s.(book := b, lastFill := Some(Purchase(w)));
    SilentReply(w, R, filled, OnFill(FillContext(filled, Purchase(w)), Purchase(w)), 0, 0, w.u);
  }

  lemma {:induction false} CandleTrades(w: Story, R: Arithmetic, s: State)
    requires Before(w, s) && s.book.orders == [] && s.pending == [BUY_ONE]
    ensures TradeCandle(Scenario(R, w), s, Rally(w)).Ok?
    ensures AfterTrading(w, s, TradeCandle(Scenario(R, w), s, Rally(w)).value)
  {
    hide ProcessOrder, Submit, Records, EligiblePositions;
    IntentOpens(w, s.book.portfolio);
    var s1 := SubmitPending(Scenario(R, w), s, Rally(w)).value;
    OrderIsEligible();
    OrderIsProcessed(w, R, s1);
    var positions: seq<nat> := [0];
    assert positions[..0] == [];
    assert ProcessOrders(Scenario(R, w), s1, Rally(w), positions[..0]) == Ok(s1);
    assert ProcessOrders(Scenario(R, w), s1, Rally(w), positions) == ProcessOrder(Scenario(R, w), s1, Rally(w), 0);
  }

  lemma {:induction false} CandleCloses(w: Story, R: Arithmetic, s: State)
    requires |s.book.orders| == 1 && s.book.portfolio == Holding(w) && s.book.fills == [Purchase(w)]
      && Records(s.book.ledger, Holding(w))
    requires s.processed == 0 && s.equity == [] && !s.halt
    ensures CloseCandle(Scenario(R, w), s, Rally(w)).Ok?
    ensures var s3 := CloseCandle(Scenario(R, w), s, Rally(w)).value;
      && s3.book.portfolio == Marked(Holding(w), 2.0 * w.u) && s3.book.fills == [Purchase(w)] && |s3.book.orders| == 1
      && |s3.book.ledger| == |s.book.ledger| + 1 && |s3.equity| == 1 && s3.equity[0].candleIndex == 0
      && s3.book.orders == s.book.orders && s3 == s.(book := s3.book, equity := s3.equity)
  {
    hide Holding, Records, Append, Marked, Sound, MarkToMarket;
    HoldingIsMarked(w);
    RallyIsNoDrawdown(w);
    RecordMarkAgrees(s.book.ledger, Holding(w), Marked(Holding(w), 2.0 * w.u), w.close, 0, false);
  }

  lemma {:induction false} HoldingIsMarked(w: Story)
    ensures MarkToMarket(Holding(w), 2.0 * w.u) == Ok(Marked(Holding(w), 2.0 * w.u))
    ensures var h, m := Holding(w), Marked(Holding(w), 2.0 * w.u);
      && 0.0 <= h.cash && 0.0 <= h.base && m.base == 1.0 && m.equity == m.peak == 10.99 * w.u
      && m.cash == h.cash && m.base == h.base && m.fees == h.fees && m.realized == h.realized
  {
    hide Holding, Marked, MarkToMarket, DrawdownPct;
    HoldingIsSound(w);
    HoldingPeak(w);
    MarkKeepsSound(Holding(w), 2.0 * w.u);
  }

  lemma {:induction false} RallyIsNoDrawdown(w: Story)
    ensures Marked(Holding(w), 2.0 * w.u).drawdownPct == 0.0
  {
    hide Holding;
    HoldingIsMarked(w);
    NoDrawdown(10.99 * w.u);
  }

  lemma {:induction false} NoDrawdown(peak: real)
    ensures DrawdownPct(peak, 0.0) == 0.0
  {}

  lemma {:induction false} HoldingIsSound(w: Story)
    ensures Sound(Holding(w)) && Holding(w).cash == 8.99 * w.u && Holding(w).base == 1.0
  {
    hide Sound, ApplyFill;
    BuyingIsSound(w);
  }

  lemma {:induction false} CandleFinishes(w: Story, R: Arithmetic, s: State)
    requires s.history == [] && |s.calls| >= 1 && s.processed == 0 && EventCount(s) <= 100
    ensures FinishCandle(Scenario(R, w), s, Rally(w), None).Ok?
    ensures var s4 := FinishCandle(Scenario(R, w), s, Rally(w), None).value;
      && |s4.calls| == |s.calls| + 1
      && s4 == s.(calls := s4.calls, history := s4.history, lastRegime := None, processed := 1)
      && s4.history == [Rally(w)]
  {
    hide Respond, OpenOrderView;
    var s1 := s.(history := [Rally(w)]);
    assert Push([], Rally(w), 1) == [Rally(w)];
    ViewShowsOpenOrders(s.book.orders);
    var call := OnCandle(View(s1, 0, Some(Rally(w)), s1.history, None, s.lastFill), Rally(w));
    SilentReply(w, R, s1, call, 0, w.close, 2.0 * w.u);
  }

  /** The state after the only candle. */
  predicate AtTheEnd(w: Story, s: State) {
    && s.book.portfolio == Marked(Holding(w), 2.0 * w.u) && s.book.fills == [Purchase(w)]
    && |s.book.orders| == 1 && s.book.orders[0].createdIndex == -1 && |s.book.ledger| <= 5 && |s.equity| == 1
    && s.equity[0].candleIndex == 0 && |s.calls| >= 1
    && s.processed == 1 && !s.halt && s.history == [Rally(w)] && s.lastCandle == Some(Rally(w)) && s.lastRegime == None
  }

  lemma {:induction false} CandleIsEvaluated(w: Story, R: Arithmetic, s: State)
    requires Before(w, s) && s.book.orders == [] && s.pending == [BUY_ONE] && s.lastCandle == Some(Rally(w))
    ensures EvaluateCandle(Scenario(R, w), s, Rally(w), None).Ok?
    ensures AtTheEnd(w, EvaluateCandle(Scenario(R, w), s, Rally(w), None).value)
  {
    hide TradeCandle, CloseCandle, FinishCandle, Holding, Marked, Records;
    CandleTrades(w, R, s);
    var s2 := TradeCandle(Scenario(R, w), s, Rally(w)).value;
    CandleCloses(w, R, s2);
    var s3 := CloseCandle(Scenario(R, w), s2, Rally(w)).value;
    CandleFinishes(w, R, s3);
  }

  lemma {:induction false} StartIsBefore(w: Story, R: Arithmetic)
    ensures Start(Scenario(R, w)).Ok?
    ensures var s := Start(Scenario(R, w)).value;
      Before(w, s) && s.book.orders == [] && s.pending == [BUY_ONE] && s.seen == 0 && s.lastCandle == None
        && s.accumulator == None
  {
    hide Start, Records;
    StartAsks(w, R);
    FreshRecords(w, R);
  }

  lemma {:induction false} FreshRecords(w: Story, R: Arithmetic)
    ensures Records(Fresh(Scenario(R, w)).book.ledger, Initialize(10.0 * w.u))
  {
    hide Records;
    InitialRecords(10.0 * w.u, w.start);
    var posted := Post([], InitialEvent(10.0 * w.u, w.start));
    assert [] + [posted] == [posted];
  }

  lemma {:induction false} CandleRuns(w: Story, R: Arithmetic)
    ensures StateAfter(Scenario(R, w), [Rally(w)]).Ok?
    ensures AtTheEnd(w, StateAfter(Scenario(R, w), [Rally(w)]).value)
  {
    hide EvaluateCandle, Start, Before, AtTheEnd;
    StartIsBefore(w, R);
    var s := Start(Scenario(R, w)).value;
    var cs := [Rally(w)];
    assert cs[..0] == [];
    var s1 := Admitted(s, Rally(w), None);
    assert StepCandle(Scenario(R, w), s, Rally(w)) == EvaluateCandle(Scenario(R, w), s1, Rally(w), None);
    AdmittedIsBefore(w, s);
    CandleIsEvaluated(w, R, s1);
  }

  lemma {:induction false} AdmittedIsBefore(w: Story, s: State)
    requires Before(w, s)
    ensures Before(w, Admitted(s, Rally(w), None))
  {}

  // The forced close

  lemma {:induction false} LiquidationPrices(w: Story, order: Order)
    requires order.intent.quantity == 1.0 && order.intent.side == Sell
    ensures LiquidationFill(OnePercent(w), order, Rally(w), 0, 2).Ok?
  {
    hide AdversePrice, FeeModel.Rate;
    Rates(w);
    PriceAt(w, 2.0 * w.u, Sell);
  }

  lemma {:induction false} SettlingCounts(w: Story, b: Book, order: Order, f: Fill)
    requires BookSound(OnePercent(w), b, 0) && f.side == Sell && f.quantity == b.portfolio.base && f.fee <= f.notional
    requires SettleLiquidation(OnePercent(w), b, order, f, 2.0 * w.u, w.close, 0).Ok?
    ensures var r := SettleLiquidation(OnePercent(w), b, order, f, 2.0 * w.u, w.close, 0).value;
      |r.fills| == |b.fills| + 1 && |r.orders| == |b.orders| + 1 && |r.ledger| <= |b.ledger| + 3
  {
    hide ApplyFill, RecordFill, MarkToMarket;
    LiquidationFillIsSound(OnePercent(w), b, f);
    RecordFillAgrees(b.ledger, b.portfolio, f);
  }

  lemma {:induction false} BookLiquidates(w: Story, R: Arithmetic, b: Book)
    requires BookSound(OnePercent(w), b, 0) && b.portfolio.base == 1.0 && |b.orders| == 1 && b.fills == [Purchase(w)]
    ensures LiquidateBook(OnePercent(w), b, Rally(w), 0).Ok?
    ensures var r := LiquidateBook(OnePercent(w), b, Rally(w), 0).value;
      |r.fills| == 2 && |r.orders| == 2 && |r.ledger| <= |b.ledger| + 3
  {
    hide BookSound, LiquidationFill, SettleLiquidation, Liquidated, Notional;
    var order := LiquidationOrder(b.portfolio, 2, Rally(w), 0);
    LiquidationPrices(w, order);
    LiquidationFillFor(OnePercent(w), order, Rally(w), 0, 2);
    var f := LiquidationFill(OnePercent(w), order, Rally(w), 0, 2).value;
    LiquidationSettles(Scenario(R, w), b, order, f, 2.0 * w.u, w.close, 0);
    SettlingCounts(w, b, order, f);
  }

  lemma {:induction false} FinalRecordPasses(w: Story, R: Arithmetic, s: State, cancelAtEnd: bool)
    requires Winding(Scenario(R, w), s, cancelAtEnd) && s.lastCandle == Some(Rally(w))
    requires |s.book.orders| == 2 && |s.book.fills| == 2 && |s.equity| == 1 && |s.book.ledger| <= 8 && |s.calls| >= 1
    ensures FinalRecord(Scenario(R, w), s, Rally(w)).Ok?
  {
    hide Records, BookInv, OpenOrderView;
    RecordMarkAgrees(s.book.ledger, s.book.portfolio, s.book.portfolio, w.close, s.processed - 1, true);
    ViewShowsOpenOrders(s.book.orders);
  }

  lemma {:induction false} RunConcludes(w: Story, R: Arithmetic, s: State, cancelAtEnd: bool)
    requires RunInv(Scenario(R, w), s) && AtTheEnd(w, s)
    ensures Conclude(Scenario(R, w), s, cancelAtEnd).Ok?
  {
    hide RunInv, BookSound, Holding, Marked, LiquidateBook, FinalRecord, CancelSwept;
    var env := Scenario(R, w);
    HoldingIsMarked(w);
    CancelRemainingKeeps(env, s, cancelAtEnd, w.close);
    var s1 := CancelRemaining(s, cancelAtEnd, w.close);
    assert |s1.book.orders| == 1 by { SweepLength(s.book.orders, w.close); }
    BookLiquidates(w, R, s1.book);
    LiquidateKeeps(env, s1, Rally(w), cancelAtEnd);
    var s2 := ForceCloseIfAsked(env, s1, Rally(w)).value;
    FinalRecordPasses(w, R, s2, cancelAtEnd);
  }

  lemma {:induction false} SweepLength(orders: seq<Order>, t: int)
    ensures |CancelSwept(orders, Everything, t)| == |orders|
  {}

  lemma {:induction false} MarkHidesPeak(w: Story, R: Arithmetic, s: State)
    requires AtTheEnd(w, s)
    ensures !NoHiddenPeak(Scenario(R, w), s)
  {
    hide Holding, Marked, ApplyAll, FillsAt;
    HoldingPeak(w);
    HoldingIsMarked(w);
    assert s.equity[..0] == [];
    FillsAtOne([Purchase(w)], 0);
    HoldingIsApplied(w);
  }

  lemma {:induction false} HoldingIsApplied(w: Story)
    ensures ApplyAll(Initialize(10.0 * w.u), [Purchase(w)]) == Ok(Holding(w))
  {
    hide ApplyFill;
    BuyingIsSound(w);
    assert [Purchase(w)][..0] == [];
  }

  lemma {:induction false} RunFinishes(w: Story, R: Arithmetic, cancelAtEnd: bool)
    ensures StateAfter(Scenario(R, w), [Rally(w)]).Ok? && AtTheEnd(w, StateAfter(Scenario(R, w), [Rally(w)]).value)
    ensures Visited(Scenario(R, w), [Rally(w)]) == [Rally(w)]
    ensures Run(Scenario(R, w), [Rally(w)], cancelAtEnd).Ok?
  {
    hide StateAfter, Conclude, RunInv, AtTheEnd;
    var env, cs := Scenario(R, w), [Rally(w)];
    assert cs[1..] == [];
    assert Read(ContextRange(env), cs[1..]) == [];
    assert Visited(env, cs) == [Rally(w)] + [];
    CandleRuns(w, R);
    EveryStateIsSound(env, cs);
    RunConcludes(w, R, StateAfter(env, cs).value, cancelAtEnd);
  }

  /** A finished run that the replay rejects, whichever way open orders end: one unit bought at `u`
      and held to a close of `2.0 * u` makes a new peak that the forced close, at one percent of fees,
      erases from the published curve but not from the engine's memory. */
  lemma {:induction false} ReplayRejectsARun(w: Story, R: Arithmetic, cancelAtEnd: bool)
    ensures Run(Scenario(R, w), [Rally(w)], cancelAtEnd).Ok?
    ensures !Published(Scenario(R, w), Run(Scenario(R, w), [Rally(w)], cancelAtEnd).value)
  {
    hide StateAfter, Run, Published, Visited, Holding, Marked;
    RunFinishes(w, R, cancelAtEnd);
    HoldingIsMarked(w);
    ForcedCloseReplays(Scenario(R, w), [Rally(w)], cancelAtEnd);
    MarkHidesPeak(w, R, StateAfter(Scenario(R, w), [Rally(w)]).value);
  }

  /** The boundary check refuses the run when its evaluation starts before its only candle opens,
      because the order submitted at the start is dated when that candle opens, and when its range
      ends before that candle closes. It accepts it otherwise. */
  lemma {:induction false} BoundaryCheckRejectsRuns(w: Story, R: Arithmetic, cancelAtEnd: bool, entries: seq<Entry>)
    requires Run(Scenario(R, w), [Rally(w)], cancelAtEnd).Ok? ==>
      Bodies(entries) == Run(Scenario(R, w), [Rally(w)], cancelAtEnd).value.book.ledger
    ensures Run(Scenario(R, w), [Rally(w)], cancelAtEnd).Ok?
    ensures var f := Run(Scenario(R, w), [Rally(w)], cancelAtEnd).value;
      && LotsAfter(f.book.fills).Ok?
      && (BoundariesOk(PublishedTables(Scenario(R, w), f, entries), EvaluationRange(Scenario(R, w))) <==>
            (w.start == 0 && w.close <= w.end))
  {
    hide StateAfter, Run, Visited, LotsAfter, BoundariesOk, AtTheEnd, Start;
    var env, cs := Scenario(R, w), [Rally(w)];
    RunFinishes(w, R, cancelAtEnd);
    StartAsks(w, R);
    BoundaryCheckMeetsRuns(env, cs, cancelAtEnd, entries);
    assert FirstOpen(env, cs) == 0;
  }

  /** The same run rewrites the only point of its curve: a run that reads further keeps that point. */
  lemma {:induction false} LastPointIsRewritten(w: Story, R: Arithmetic, cancelAtEnd: bool)
    ensures Run(Scenario(R, w), [Rally(w)], cancelAtEnd).Ok?
    ensures StateAfter(Scenario(R, w), [Rally(w)]).Ok?
    ensures !(StateAfter(Scenario(R, w), [Rally(w)]).value.equity
              <= Run(Scenario(R, w), [Rally(w)], cancelAtEnd).value.equity)
  {
    hide StateAfter, Run, Visited, Holding, Marked;
    var env, cs := Scenario(R, w), [Rally(w)];
    RunFinishes(w, R, cancelAtEnd);
    HoldingIsMarked(w);
    RunsNeverAccuseTheirBooks(env, cs, cancelAtEnd);
    PrefixIsPublished(env, cs, cancelAtEnd, 1);
    assert cs[..1] == cs;
  }

  /** The published curve of the same run shows a drawdown past the maximum although the run never
      halted: the forced close deepened its last point after the last chance to halt. */
  lemma {:induction false} CurveBreachesUnhalted(w: Story, R: Arithmetic, cancelAtEnd: bool)
    ensures Run(Scenario(R, w), [Rally(w)], cancelAtEnd).Ok?
    ensures var f := Run(Scenario(R, w), [Rally(w)], cancelAtEnd).value;
      !f.halt && exists i :: 0 <= i < |f.equity| && Breaches(OnePercent(w), f.equity[i])
  {
    hide StateAfter, Run, Visited, Holding, Marked, LiquidationDrawdown;
    var env, cs := Scenario(R, w), [Rally(w)];
    RunFinishes(w, R, cancelAtEnd);
    HoldingIsMarked(w);
    PublishedHaltIsExplained(env, cs, cancelAtEnd);
    LiquidationIsTooDeep(w);
  }

  lemma {:induction false} LiquidationIsTooDeep(w: Story)
    ensures TooDeep(OnePercent(w), LiquidationDrawdown(OnePercent(w), Marked(Holding(w), 2.0 * w.u), 2.0 * w.u))
  {
    hide Holding, Marked, DrawdownPct, FeeModel.Rate, Config.SlippageRate;
    HoldingIsMarked(w);
    HoldingIsSound(w);
    Rates(w);
    var net := NetProceeds(OnePercent(w), 1.0, 2.0 * w.u);
    assert net == 1.98 * w.u;
    var peak, lost := 10.99 * w.u, 0.02 * w.u;
    assert 0.1 <= DrawdownPct(peak, lost) by { DrawdownAbove(peak, lost); }
  }

  lemma {:induction false} DrawdownAbove(peak: real, lost: real)
    requires 0.0 < peak && peak <= 1000.0 * lost
    ensures 0.1 <= DrawdownPct(peak, lost)
  {
    CancelFactor(lost, peak);
    ProductMonotone(lost / peak, 0.001, peak);
  }
}
