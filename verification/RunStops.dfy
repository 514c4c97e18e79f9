/** Where every engine stop comes from, and what every one that fires without a gap pays. */
module RunStops {
  import opened Domain
  import opened Accounting
  import opened Execution
  import opened Risk
  import opened Ledger
  import opened Regime
  import opened Strategy
  import opened EngineSpec
  import opened OrderTable
  import opened BookInvariant
  import opened RunInvariant
  import opened RunSafety
  import opened RunConclusion
  import opened RunTheorems
  import opened Replay
  import opened ReplayTheorems
  import opened RunTrades

  /** The order was created by the reconciliation that followed this fill. */
  predicate MadeBy(o: Order, f: Fill) { o.createdAt == f.time && o.createdIndex == f.candleIndex }

  predicate OpenStopsMade(orders: seq<Order>, fills: seq<Fill>) {
    forall i :: 0 <= i < |orders| && OpenStop(orders[i]) ==> fills != [] && MadeBy(orders[i], fills[|fills| - 1])
  }

  /** The price and the fee of a stop that fires at its own price. */
  predicate FiresAtStop(cfg: Config, o: Order, f: Fill)
    requires o.intent.kind.StopMarket?
  {
    && f.price == o.intent.kind.stop * (1.0 - cfg.SlippageRate()) && f.notional == Notional(f.quantity, f.price)
    && f.fee == f.notional * cfg.fees.Rate(Taker)
  }

  /** If fill `j` is an engine stop's, the fill before it made that stop, to fit the position and the
      average entry that the fills before `j` add up to. */
  predicate StopExplained(cfg: Config, orders: seq<Order>, fills: seq<Fill>, j: nat)
    requires j < |fills|
  {
    && 1 <= fills[j].orderId <= |orders|
    && var f, o := fills[j], orders[fills[j].orderId - 1];
    IsStop(o) ==>
      && cfg.limits.stop.FixedPercent? && j > 0 && MadeBy(o, fills[j - 1])
      && f.side == Sell && f.quantity == o.intent.quantity
      && var r := ApplyAll(Initialize(cfg.capital), fills[..j]);
      r.Ok? && 0.0 < r.value.base && FitsPosition(cfg, o, r.value)
        && (f.reason == StopTriggered ==> FiresAtStop(cfg, o, f))
  }

  predicate StopsExplained(cfg: Config, orders: seq<Order>, fills: seq<Fill>) {
    forall j: nat :: j < |fills| ==> StopExplained(cfg, orders, fills, j)
  }

  predicate StopsInv(cfg: Config, b: Book) {
    && Accounted(cfg.capital, b.fills, b.portfolio)
    && OpenStopsMade(b.orders, b.fills) && StopsExplained(cfg, b.orders, b.fills)
  }

  lemma {:induction false} EvolvedStaysExplained(cfg: Config, a: seq<Order>, b: seq<Order>, fills: seq<Fill>,
                                                 more: seq<Fill>, j: nat)
    requires Evolves(a, b) && fills <= more && j < |fills| && StopExplained(cfg, a, fills, j)
    ensures StopExplained(cfg, b, more, j)
  {
    hide ApplyAll, StopPrice;
    assert more[..j] == fills[..j];
    assert OrderEvolves(a[fills[j].orderId - 1], b[fills[j].orderId - 1]);
  }

  /** Closing orders and appending ones that are not stops. */
  lemma {:induction false} EvolvingKeepsStops(cfg: Config, b: Book, orders: seq<Order>)
    requires StopsInv(cfg, b) && Evolves(b.orders, orders)
    requires forall i :: 0 <= i < |orders| && OpenStop(orders[i]) ==> i < |b.orders| && orders[i] == b.orders[i]
    ensures StopsInv(cfg, b.(orders := orders))
  {
    hide StopExplained, Accounted, Evolves;
    forall j: nat | j < |b.fills| ensures StopExplained(cfg, orders, b.fills, j) {
      EvolvedStaysExplained(cfg, b.orders, orders, b.fills, b.fills, j);
    }
  }

  lemma {:induction false} ReconcileMakes(cfg: Config, p: Portfolio, orders: seq<Order>, t: int, index: int)
    ensures Reconcile(cfg, p, orders, t, index).Ok? ==>
      var r := Reconcile(cfg, p, orders, t, index).value;
      forall i :: 0 <= i < |r| && OpenStop(r[i]) ==> r[i].createdAt == t && r[i].createdIndex == index
  {
    hide EvaluateStop;
  }

  /** The position and the average a stop fits do not depend on how the portfolio was valued. */
  lemma {:induction false} FitsAnyValuation(cfg: Config, o: Order, p: Portfolio, q: Portfolio)
    requires cfg.limits.stop.FixedPercent? && SameMoney(q, p) && FitsPosition(cfg, o, p)
    ensures FitsPosition(cfg, o, q)
  {}

  lemma {:induction false} NewFillExplained(cfg: Config, b: Book, orders: seq<Order>, position: nat, f: Fill,
                                            index: nat)
    requires BookInv(cfg, b, index) && StopsInv(cfg, b) && Evolves(b.orders, orders)
    requires position < |b.orders| && b.orders[position].status == Open
    requires FillFor(cfg, b.orders[position], f, |b.fills| + 1, index)
    requires IsStop(b.orders[position]) && f.reason == StopTriggered ==>
      b.orders[position].intent.kind.StopMarket? && FiresAtStop(cfg, b.orders[position], f)
    ensures StopExplained(cfg, orders, b.fills + [f], |b.fills|)
  {
    hide ApplyAll, Sound, StopPrice, PortfolioInv, Records, FillsMatch, StopExplained, OpenBounded, Floored;
    var o, n := b.orders[position], |b.fills|;
    assert OrderShape(cfg, o, position, index);
    assert (b.fills + [f])[..n] == b.fills;
    if IsStop(o) {
      FitsAnyValuation(cfg, o, b.portfolio, ApplyAll(Initialize(cfg.capital), b.fills).value);
      assert OpenStop(o) && (b.fills + [f])[n - 1] == b.fills[n - 1];
    }
    assert OrderEvolves(o, orders[position]);
    ExplainedHere(cfg, orders, b.fills + [f], n, o);
  }

  /** The definition at the last fill, with the order as it was before it was filled. */
  lemma {:induction false} ExplainedHere(cfg: Config, orders: seq<Order>, fills: seq<Fill>, j: nat, o: Order)
    requires j < |fills| && 1 <= fills[j].orderId <= |orders| && OrderEvolves(o, orders[fills[j].orderId - 1])
    requires fills[j].side == o.intent.side && fills[j].quantity == o.intent.quantity
    requires IsStop(o) ==>
      && cfg.limits.stop.FixedPercent? && j > 0 && MadeBy(o, fills[j - 1])
      && ApplyAll(Initialize(cfg.capital), fills[..j]).Ok?
      && 0.0 < ApplyAll(Initialize(cfg.capital), fills[..j]).value.base
      && FitsPosition(cfg, o, ApplyAll(Initialize(cfg.capital), fills[..j]).value)
      && (fills[j].reason == StopTriggered ==> FiresAtStop(cfg, o, fills[j]))
    ensures StopExplained(cfg, orders, fills, j)
  {}

  lemma {:induction false} TakeFillKeepsStops(cfg: Config, b: Book, position: nat, f: Fill, index: nat)
    requires BookInv(cfg, b, index) && StopsInv(cfg, b)
    requires position < |b.orders| && b.orders[position].status == Open && b.orders[position].eligibleIndex <= index
    requires FillFor(cfg, b.orders[position], f, |b.fills| + 1, index) && Cleared(cfg, b, b.orders[position], f)
    requires IsStop(b.orders[position]) ==> NoneAfter(b.fills, index - 1)
    requires IsStop(b.orders[position]) && f.reason == StopTriggered ==>
      b.orders[position].intent.kind.StopMarket? && FiresAtStop(cfg, b.orders[position], f)
    ensures TakeFill(cfg, b, position, f, index).Ok? ==> StopsInv(cfg, TakeFill(cfg, b, position, f, index).value)
  {
    hide BookInv, Accounted, StopExplained, ApplyFill, RecordFill, Evolves, Cleared, NoneAfter;
    TakeFillKeepsInvariant(cfg, b, position, f, index);
    var r := TakeFill(cfg, b, position, f, index);
    if r.Ok? {
      TakeFillFolds(cfg, b, position, f, index);
      BookIsSound(cfg, b, index);
      FoldStaysAccounted(cfg.capital, b, r.value, index, f.time);
      forall j: nat | j < |r.value.fills| ensures StopExplained(cfg, r.value.orders, r.value.fills, j) {
        if j < |b.fills| {
          EvolvedStaysExplained(cfg, b.orders, r.value.orders, b.fills, r.value.fills, j);
        } else {
          NewFillExplained(cfg, b, r.value.orders, position, f, index);
        }
      }
      FilledTableMakes(cfg, b, position, f, index);
    }
  }

  lemma {:induction false} BookIsSound(cfg: Config, b: Book, index: int)
    requires BookInv(cfg, b, index)
    ensures Sound(b.portfolio)
  {}

  lemma {:induction false} FilledTableMakes(cfg: Config, b: Book, position: nat, f: Fill, index: nat)
    requires position < |b.orders| && f.candleIndex == index && TakeFill(cfg, b, position, f, index).Ok?
    ensures var r := TakeFill(cfg, b, position, f, index).value; OpenStopsMade(r.orders, r.fills)
  {
    hide ApplyFill, RecordFill, Reconcile;
    var m := ApplyFill(b.portfolio, f).value;
    var ledger := RecordFill(b.ledger, f, m).value;
    var filled := CloseOrder(Book(m.after, b.orders, b.fills + [f], ledger), position, Filled, f.time).value;
    ReconcileMakes(cfg, m.after, filled.orders, f.time, index);
  }

  // One candle

  /** The verdict on a stop that triggers without a gap prices the fill at the stop. */
  lemma {:induction false} TriggeredAtStop(cfg: Config, b: Book, o: Order, position: nat, c: Candle, index: nat)
    requires OrderShape(cfg, o, position, index) && OpenStop(o)
    ensures var v := Judge(cfg, b, o, c, index);
      v.Ok? && v.value.Execute? && v.value.fill.reason == StopTriggered ==>
        o.intent.kind.StopMarket? && FiresAtStop(cfg, o, v.value.fill)
  {
    var v := Judge(cfg, b, o, c, index);
    if v.Ok? && v.value.Execute? && v.value.fill.reason == StopTriggered { TriggeredFill(cfg, b, o, c, index); }
  }

  lemma {:induction false} ProcessOrderKeepsStops(env: Env, s: State, c: Candle, position: nat)
    requires TradingInv(env, s, c) && Processable(s, position) && StopsInv(env.cfg, s.book)
    ensures ProcessOrder(env, s, c, position).Ok? ==> StopsInv(env.cfg, ProcessOrder(env, s, c, position).value.book)
  {
    hide Judge, TakeFill, AfterFill, CloseOrder, BookInv, CallsOk, HistoryOk, OnlyStopsOpen, FillFor, ValidateFill,
      StopsInv, FiresAtStop, NoneAfter;
    var o := s.book.orders[position];
    VerdictIsLegal(env.cfg, s.book, o, c, s.processed);
    var verdict := Judge(env.cfg, s.book, o, c, s.processed);
    if verdict.Ok? {
      StopsFitBook(env.cfg, s.book, position, s.processed);
      TableIsShaped(env.cfg, s.book, s.processed);
      assert OrderShape(env.cfg, o, position, s.processed);
      match verdict.value
      case Leave =>
      case Expire(at) => ClosingKeepsStops(env.cfg, s.book, position, Expired, at);
      case Refuse => ClosingKeepsStops(env.cfg, s.book, position, Cancelled, c.openTime);
      case Execute(f) =>
        if IsStop(o) { TriggeredAtStop(env.cfg, s.book, o, position, c, s.processed); }
        ExecutionKeepsStops(env, s, c, position, f);
    }
  }

  lemma {:induction false} ClosingKeepsStops(cfg: Config, b: Book, position: nat, to: Status, t: int)
    requires StopsInv(cfg, b) && position < |b.orders| && b.orders[position].status == Open
    requires to == Expired || to == Cancelled
    ensures CloseOrder(b, position, to, t).Ok? ==> StopsInv(cfg, CloseOrder(b, position, to, t).value)
  {
    hide StopExplained, Accounted;
    var r := CloseOrder(b, position, to, t);
    if r.Ok? { EvolvingKeepsStops(cfg, b, r.value.orders); }
  }

  lemma {:induction false} ExecutionKeepsStops(env: Env, s: State, c: Candle, position: nat, f: Fill)
    requires TradingInv(env, s, c) && Processable(s, position) && StopsInv(env.cfg, s.book)
    requires FillFor(env.cfg, s.book.orders[position], f, |s.book.fills| + 1, s.processed) && f.time == c.openTime
    requires Cleared(env.cfg, s.book, s.book.orders[position], f)
    requires IsStop(s.book.orders[position]) && f.reason == StopTriggered ==>
      s.book.orders[position].intent.kind.StopMarket? && FiresAtStop(env.cfg, s.book.orders[position], f)
    ensures
      var b := TakeFill(env.cfg, s.book, position, f, s.processed);
      b.Ok? ==>
        var after := AfterFill(env, s.(book := b.value, lastFill := Some(f)), f);
        after.Ok? ==> StopsInv(env.cfg, after.value.book)
  {
    hide TakeFill, AfterFill, TradingInv, OrderStep, Cleared, FillFor, StopExplained, Accounted, FiresAtStop;
    TradingBook(env, s, c);
    TakeFillKeepsStops(env.cfg, s.book, position, f, s.processed);
    ExecuteKeeps(env, s, c, position, f);
    var b := TakeFill(env.cfg, s.book, position, f, s.processed);
    if b.Ok? {
      var filled := s.(book := b.value, lastFill := Some(f));
      FillIndex(env.cfg, s.book.orders[position], f, |s.book.fills| + 1, s.processed);
      AfterFillKeeps(env, filled, f, c);
      var after := AfterFill(env, filled, f);
      if after.Ok? { EvolvingKeepsStops(env.cfg, filled.book, after.value.book.orders); }
    }
  }

  lemma {:induction false} TradingBook(env: Env, s: State, c: Candle)
    requires TradingInv(env, s, c)
    ensures BookInv(env.cfg, s.book, s.processed)
  {}

  lemma {:induction false} FillIndex(cfg: Config, o: Order, f: Fill, sequence: nat, index: nat)
    requires FillFor(cfg, o, f, sequence, index)
    ensures f.candleIndex == index
  {}

  lemma {:induction false} ProcessOrdersKeepStops(env: Env, s0: State, c: Candle, positions: seq<nat>, k: nat)
    requires TradingInv(env, s0, c) && NoneAfter(s0.book.fills, s0.processed - 1) && StopsInv(env.cfg, s0.book)
    requires positions == EligiblePositions(s0.book.orders, s0.processed) && k <= |positions|
    ensures var r := ProcessOrders(env, s0, c, positions[..k]); r.Ok? ==> StopsInv(env.cfg, r.value.book)
  {
    hide ProcessOrder, EligiblePositions, NoneAfter, StopsInv, Progress, BookInv, CallsOk, HistoryOk;
    if k > 0 {
      ProcessOrdersKeepStops(env, s0, c, positions, k - 1);
      ProcessOrdersKeeps(env, s0, c, positions, k - 1);
      assert positions[..k][..k - 1] == positions[..k - 1];
      var before := ProcessOrders(env, s0, c, positions[..k - 1]);
      if before.Ok? {
        AtMostOne(env.cfg, s0.book, s0.processed);
        NextIsProcessable(s0, before.value, c, positions, k - 1);
        ProcessOrderKeepsStops(env, before.value, c, positions[k - 1]);
      }
    }
  }

  lemma {:induction false} AtMostOne(cfg: Config, b: Book, index: int)
    requires BookInv(cfg, b, index)
    ensures AtMostOneStop(b.orders)
  {}

  lemma {:induction false} TradeCandleKeepsStops(env: Env, s: State, c: Candle)
    requires CandleReady(env, s, c) && StopsInv(env.cfg, s.book)
    ensures TradeCandle(env, s, c).Ok? ==> StopsInv(env.cfg, TradeCandle(env, s, c).value.book)
  {
    hide BookInv, StopsInv, ProcessOrders, EligiblePositions, EngineSpec.SubmitIntents;
    SubmitPendingKeeps(env, s, c);
    PendingKeepsStops(env, s, c);
    var r1 := SubmitPending(env, s, c);
    if r1.Ok? {
      var s1 := r1.value;
      var positions := EligiblePositions(s1.book.orders, s1.processed);
      assert positions[..|positions|] == positions;
      ProcessOrdersKeepStops(env, s1, c, positions, |positions|);
    }
  }

  lemma {:induction false} PendingKeepsStops(env: Env, s: State, c: Candle)
    requires CandleReady(env, s, c) && StopsInv(env.cfg, s.book)
    ensures SubmitPending(env, s, c).Ok? ==> StopsInv(env.cfg, SubmitPending(env, s, c).value.book)
  {
    hide EngineSpec.SubmitIntents, StopExplained, Accounted, BookSound;
    if s.processed == 0 && s.pending != [] {
      SubmitIntentsKeeps(env, s, s.pending, -1, c.openTime, c.open);
      var r := SubmitIntents(env, s, s.pending, -1, c.openTime, c.open);
      if r.Ok? { EvolvingKeepsStops(env.cfg, s.book, r.value.book.orders); }
    }
  }

  lemma {:induction false} CloseCandleKeepsStops(env: Env, s: State, c: Candle)
    requires StopsInv(env.cfg, s.book) && CloseCandle(env, s, c).Ok?
    ensures StopsInv(env.cfg, CloseCandle(env, s, c).value.book)
  {
    hide StopExplained, Accounted, RecordMark, HaltRequired, Marked, Checked;
    var s' := CloseCandle(env, s, c).value;
    EvolvingKeepsStops(env.cfg, s.book, s'.book.orders);
    MarkStaysAccounted(env.cfg.capital, s.book.fills, s.book.portfolio, c.close);
    MarkIsMarked(s.book.portfolio, c.close);
  }

  lemma {:induction false} MarkIsMarked(p: Portfolio, price: real)
    ensures MarkToMarket(p, price).Ok? ==> MarkToMarket(p, price).value == Marked(p, price)
  {}

  lemma {:induction false} EvaluationKeepsStops(env: Env, s: State, c: Candle, regime: Option<RegimePoint>)
    requires CandleReady(env, s, c) && RegimeFits(regime, c) && env.cfg.evaluationStart <= c.openTime
    requires StopsInv(env.cfg, s.book) && EvaluateCandle(env, s, c, regime).Ok?
    ensures StopsInv(env.cfg, EvaluateCandle(env, s, c, regime).value.book)
  {
    hide TradeCandle, CloseCandle, FinishCandle, BookInv, CallsOk, HistoryOk, Punctual, AccumulatorOk, Exhausted,
      StopExplained, Accounted;
    TradeCandleKeepsStops(env, s, c);
    TradeCandleKeeps(env, s, c);
    var s2 := TradeCandle(env, s, c).value;
    CloseCandleKeepsStops(env, s2, c);
    CloseCandleKeeps(env, s2, c);
    var s3 := CloseCandle(env, s2, c).value;
    FinishSubmits(env, s3, c, regime);
    FinishCandleKeeps(env, s3, c, regime);
    EvolvingKeepsStops(env.cfg, s3.book, FinishCandle(env, s3, c, regime).value.book.orders);
  }

  lemma {:induction false} StepKeepsStops(env: Env, s: State, c: Candle)
    requires RunInv(env, s) && StopsInv(env.cfg, s.book) && StepCandle(env, s, c).Ok?
    ensures StopsInv(env.cfg, StepCandle(env, s, c).value.book)
  {
    hide EvaluateCandle, WarmupCandle, BookInv, CallsOk, HistoryOk, Punctual, StopsInv;
    ObserveRegimeFits(env, s.accumulator, c);
    var observed := ObserveRegime(env, s.accumulator, c).value;
    var s1 := Admitted(s, c, observed.accumulator);
    AdmitKeeps(env, s, c, observed.accumulator);
    if c.openTime < env.cfg.evaluationStart {
      WarmupKeepsCurve(env, s1, c, observed.point);
    } else {
      EvaluationKeepsStops(env, s1, c, observed.point);
    }
  }

  lemma {:induction false} StartHasNoStops(env: Env)
    requires Start(env).Ok?
    ensures StopsInv(env.cfg, Start(env).value.book)
  {}

  /** After every candle each OPEN engine stop was made by the last fill, and every engine-stop fill
      by the fill before it. */
  lemma {:induction false} EveryStopIsExplained(env: Env, cs: seq<Candle>)
    requires StateAfter(env, cs).Ok?
    ensures StopsInv(env.cfg, StateAfter(env, cs).value.book)
  {
    hide StepCandle, Start, StopsInv, RunInv;
    if cs == [] {
      StartHasNoStops(env);
    } else {
      var rest := cs[..|cs| - 1];
      EveryStopIsExplained(env, rest);
      EveryStateIsSound(env, rest);
      StepKeepsStops(env, StateAfter(env, rest).value, cs[|cs| - 1]);
    }
  }

  // The end of the run

  /** A fill that is neither missing nor older than `fills` is the forced close of an ordinary order. */
  lemma {:induction false} ConclusionFills(env: Env, s: State, cancelAtEnd: bool, j: nat)
    requires RunInv(env, s) && Conclude(env, s, cancelAtEnd).Ok? && j < |Conclude(env, s, cancelAtEnd).value.book.fills|
    ensures var f := Conclude(env, s, cancelAtEnd).value;
      && Evolves(s.book.orders, f.book.orders) && s.book.fills <= f.book.fills
      && (j >= |s.book.fills| ==> f.book.fills[j].reason == ForceClose)
  {
    hide Conclude, ApplyFill, MarkToMarket, BookInv, CallsOk, HistoryOk, Punctual, ForcedFill, Evolves;
    ConcludeKeeps(env, s, cancelAtEnd);
    if ForcesClose(env, s) {
      ForcedConclusion(env, s, cancelAtEnd);
      ForcedFillReason(env, s);
    } else {
      ConclusionKeepsCurve(env, s, cancelAtEnd);
    }
  }

  lemma {:induction false} ForcedFillReason(env: Env, s: State)
    requires ForcesClose(env, s) && s.processed > 0 && s.lastCandle.Some? && ForcedFill(env, s).Ok?
    ensures ForcedFill(env, s).value.reason == ForceClose
  {
    var c := s.lastCandle.value;
    var order := LiquidationOrder(s.book.portfolio, |s.book.orders| + 1, c, s.processed - 1);
    LiquidationFillFor(env.cfg, order, c, s.processed - 1, |s.book.fills| + 1);
  }

  lemma {:induction false} FillsFold(capital: Positive, fills: seq<Fill>, j: nat)
    requires j < |fills| && ApplyAll(Initialize(capital), fills).Ok?
    ensures ApplyAll(Initialize(capital), fills[..j]).Ok? && Sound(ApplyAll(Initialize(capital), fills[..j]).value)
    ensures ApplyFill(ApplyAll(Initialize(capital), fills[..j]).value, fills[j]).Ok?
  {
    hide ApplyFill, Sound;
    var start := Initialize(capital);
    if ApplyAll(start, fills[..j + 1]).Err? { ApplyAllFails(start, fills, j + 1); }
    assert fills[..j + 1][..j] == fills[..j];
    assert Sound(start) by { InitialIsSound(capital); }
    ApplyAllKeepsSound(start, fills[..j]);
  }

  lemma {:induction false} InitialIsSound(capital: Positive)
    ensures Sound(Initialize(capital))
  {}

  /** Fill `j` closed the position that the fill before it left, through the stop made right then, at
      the tick floor below the average entry that has not moved since, and realized more than the floor. */
  predicate StopPays(cfg: Config, orders: seq<Order>, fills: seq<Fill>, j: nat)
    requires j < |fills| && 1 <= fills[j].orderId <= |orders|
  {
    && j > 0 && MadeBy(orders[fills[j].orderId - 1], fills[j - 1])
    && var f, r := fills[j], ApplyAll(Initialize(cfg.capital), fills[..j]);
    && r.Ok? && f.side == Sell && f.quantity == r.value.base && cfg.limits.stop.FixedPercent?
    && FitsPosition(cfg, orders[f.orderId - 1], r.value)
    && ApplyFill(r.value, f).Ok?
    && ApplyFill(r.value, f).value.realizedDelta > StopLossFloor(cfg, r.value.base, r.value.average)
  }

  lemma {:induction false} ExplainedStopPays(cfg: Config, orders: seq<Order>, fills: seq<Fill>, j: nat)
    requires j < |fills| && ApplyAll(Initialize(cfg.capital), fills).Ok? && StopExplained(cfg, orders, fills, j)
    requires IsStop(orders[fills[j].orderId - 1]) && fills[j].reason == StopTriggered
    ensures StopPays(cfg, orders, fills, j)
  {
    hide ApplyAll, ApplyFill, Sound, StopPrice, StopLossFloor, TickFloor, OnGrid, Notional, FeeModel.Rate,
      Config.SlippageRate;
    FillsFold(cfg.capital, fills, j);
    var p := ApplyAll(Initialize(cfg.capital), fills[..j]).value;
    AverageIsSigned(p);
    StopPriceIsTickFloor(cfg, p.average);
    StopSaleAboveFloor(cfg, p, fills[j], orders[fills[j].orderId - 1].intent.kind.stop);
  }

  lemma {:induction false} AverageIsSigned(p: Portfolio)
    requires Sound(p)
    ensures 0.0 <= p.average
  {}

  /** Every engine-stop fill a run publishes that fired without a gap realized more than the floor
      given by percentage, tick, slippage and fee. */
  lemma {:induction false} StopFillsPayAboveTheFloor(env: Env, candles: seq<Candle>, cancelAtEnd: bool, j: nat)
    requires Run(env, candles, cancelAtEnd).Ok?
    ensures
      var b := Run(env, candles, cancelAtEnd).value.book;
      j < |b.fills| ==>
        && 1 <= b.fills[j].orderId <= |b.orders|
        && (IsStop(b.orders[b.fills[j].orderId - 1]) && b.fills[j].reason == StopTriggered ==>
              StopPays(env.cfg, b.orders, b.fills, j))
  {
    hide StateAfter, Conclude, RunInv, FinalInv, FillsAccounted, StopExplained, StopPays, ApplyAll, IsStop, Evolves;
    var cs := Visited(env, candles);
    var s, f := StateAfter(env, cs).value, Run(env, candles, cancelAtEnd).value;
    EveryStateIsSound(env, cs);
    EveryStopIsExplained(env, cs);
    EveryStateAccounted(env, cs);
    ConclusionAccounted(env, s, cancelAtEnd);
    RunsNeverAccuseTheirBooks(env, candles, cancelAtEnd);
    if j < |f.book.fills| {
      FillHasOrder(env, f, cancelAtEnd, j);
      ConclusionFills(env, s, cancelAtEnd, j);
      if j < |s.book.fills| && IsStop(f.book.orders[f.book.fills[j].orderId - 1])
        && f.book.fills[j].reason == StopTriggered {
        assert StopExplained(env.cfg, s.book.orders, s.book.fills, j);
        EvolvedStaysExplained(env.cfg, s.book.orders, f.book.orders, s.book.fills, f.book.fills, j);
        ExplainedStopPays(env.cfg, f.book.orders, f.book.fills, j);
      }
    }
  }

  lemma {:induction false} FillHasOrder(env: Env, f: State, cancelAtEnd: bool, j: nat)
    requires FinalInv(env, f, cancelAtEnd) && j < |f.book.fills|
    ensures 1 <= f.book.fills[j].orderId <= |f.book.orders|
  {
    assert FillOk(env.cfg, f.book.orders, f.book.fills, j);
  }
}
