/** The invariant of a whole run and its preservation by every step of the candle machine. */
module RunInvariant {
  import opened Domain
  import opened Execution
  import opened Risk
  import opened Regime
  import opened Strategy
  import opened EngineSpec
  import opened OrderTable
  import opened Priority
  import opened BookInvariant

  /** A view passes its own checks, and a fill callback sees no candle as late as the fill's. */
  predicate CallOk(call: Call) {
    && ValidContext(call.context)
    && (call.OnFill? ==> OpensBefore(call.context.history, call.fill.time))
  }

  predicate CallsOk(calls: seq<Call>) { forall i :: 0 <= i < |calls| ==> CallOk(calls[i]) }

  predicate OpensBefore(history: seq<Candle>, t: int) {
    forall i :: 0 <= i < |history| ==> history[i].openTime < t
  }

  predicate HistoryOk(history: seq<Candle>, regime: Option<RegimePoint>) {
    && StrictlyOrdered(history)
    && (regime.Some? ==>
          history != [] && regime.value.Valid() && regime.value.time == history[|history| - 1].closeTime)
  }

  /** While candle `c` is being processed. */
  predicate TradingInv(env: Env, s: State, c: Candle) {
    && BookInv(env.cfg, s.book, s.processed)
    && (s.halt ==> OnlyStopsOpen(s.book.orders))
    && CallsOk(s.calls)
    && HistoryOk(s.history, s.lastRegime) && OpensBefore(s.history, c.openTime)
  }

  /** Fills stay, except for at most one more: a SELL of the whole position. */
  predicate AtMostTheExit(a: Book, b: Book) {
    || (b.fills == a.fills && b.portfolio.base == a.portfolio.base)
    || (&& a.portfolio.base > 0.0 && |b.fills| == |a.fills| + 1 && b.portfolio.base == 0.0
        && b.fills[|a.fills|].side == Sell && b.fills[|a.fills|].quantity == a.portfolio.base)
  }

  /** What the tables of a run may become: they only grow, and a halt stays. */
  predicate Grows(s: State, s': State) {
    && Evolves(s.book.orders, s'.book.orders)
    && s.book.fills <= s'.book.fills && s.book.ledger <= s'.book.ledger
    && s.calls <= s'.calls
    && (s.halt ==> s'.halt && AtMostTheExit(s.book, s'.book))
  }

  lemma {:induction false} GrowsTransitive(a: State, b: State, c: State)
    requires Grows(a, b) && Grows(b, c)
    ensures Grows(a, c)
  {
    EvolvesTransitive(a.book.orders, b.book.orders, c.book.orders);
  }

  predicate SameFeed(s: State, s': State) {
    s' == s.(book := s'.book, lastFill := s'.lastFill, calls := s'.calls)
  }

  /** Submission appends orders of the given candle that are neither stops nor filled. */
  predicate Submitted(a: seq<Order>, b: seq<Order>, index: int, halt: bool) {
    && a <= b
    && forall k :: |a| <= k < |b| ==>
         && !IsStop(b[k]) && b[k].status != Filled && b[k].createdIndex == index
         && (halt ==> b[k].status != Open)
  }

  lemma {:induction false} SubmittedKeepsBook(cfg: Config, b: Book, orders: seq<Order>, index: int, halt: bool)
    requires BookInv(cfg, b, index) && Submitted(b.orders, orders, index, halt)
    requires OrdersShaped(cfg, orders, index) && OpenBounded(cfg, orders)
    ensures BookInv(cfg, b.(orders := orders), index)
    ensures Evolves(b.orders, orders)
    ensures halt && OnlyStopsOpen(b.orders) ==> OnlyStopsOpen(orders)
  {
    assert forall i :: 0 <= i < |b.orders| ==> orders[i] == b.orders[i];
    EvolvingKeepsMatch(cfg, b.orders, orders, b.fills, index);
    AppendingKeepsProtection(cfg, b.orders, orders, b.portfolio);
  }

  lemma {:induction false} SubmitIntentsKeeps(env: Env, s: State, intents: seq<Intent>, index: int, t: int,
                                              reference: real)
    requires BookInv(env.cfg, s.book, index) && -1 <= index
    ensures SubmitIntents(env, s, intents, index, t, reference).Ok? ==>
      var s' := SubmitIntents(env, s, intents, index, t, reference).value;
      && s' == s.(book := s.book.(orders := s'.book.orders))
      && BookInv(env.cfg, s'.book, index)
      && Submitted(s.book.orders, s'.book.orders, index, s.halt)
      && Evolves(s.book.orders, s'.book.orders)
      && (s.halt && OnlyStopsOpen(s.book.orders) ==> OnlyStopsOpen(s'.book.orders))
    ensures SubmitIntents(env, s, intents, index, t, reference).Err? ==>
      !SubmitIntents(env, s, intents, index, t, reference).error.AccusesOwnBooks()
  {
    SubmitKeepsTable(env.cfg, s.book.portfolio, s.book.orders, intents, index, t, reference, s.halt);
    var r := Submit(env.cfg, s.book.portfolio, s.book.orders, intents, index, t, reference, s.halt);
    if r.Ok? { SubmittedKeepsBook(env.cfg, s.book, r.value, index, s.halt); }
  }

  /** Calling the strategy with a well-formed view fails only if the strategy itself raises. */
  lemma {:induction false} CallKeeps(env: Env, s: State, call: Call)
    requires CallsOk(s.calls) && CallOk(call)
    ensures CallStrategy(env, s, call).Ok? ==>
      var called := CallStrategy(env, s, call).value;
      && called.state == s.(calls := s.calls + [call]) && CallsOk(called.state.calls)
    ensures CallStrategy(env, s, call).Err? ==> CallStrategy(env, s, call).error == StrategyFailure
  {}

  lemma {:induction false} FillContextOk(s: State, f: Fill)
    requires HistoryOk(s.history, s.lastRegime) && OpensBefore(s.history, f.time)
    ensures CallOk(OnFill(FillContext(s, f), f))
  {
    ViewShowsOpenOrders(s.book.orders);
  }

  lemma {:induction false} AfterFillKeeps(env: Env, s: State, f: Fill, c: Candle)
    requires TradingInv(env, s, c) && f.candleIndex == s.processed && f.time == c.openTime
    ensures AfterFill(env, s, f).Ok? ==>
      var s' := AfterFill(env, s, f).value;
      && TradingInv(env, s', c) && SameFeed(s, s') && s'.lastFill == s.lastFill
      && s'.book == s.book.(orders := s'.book.orders)
      && Submitted(s.book.orders, s'.book.orders, s.processed, s.halt)
      && Evolves(s.book.orders, s'.book.orders)
      && s.calls <= s'.calls
    ensures AfterFill(env, s, f).Err? ==> !AfterFill(env, s, f).error.AccusesOwnBooks()
  {
    FillContextOk(s, f);
    CallKeeps(env, s, OnFill(FillContext(s, f), f));
    var called := CallStrategy(env, s, OnFill(FillContext(s, f), f));
    if called.Ok? && called.value.reply.Intents? {
      SubmitIntentsKeeps(env, called.value.state, called.value.reply.intents, f.candleIndex, f.time, f.price);
    }
  }

  // One eligible order

  /** MARKET and IOC orders may not outlive their first eligible candle. */
  predicate Immediate(o: Order) { o.intent.kind.Market? || o.intent.tif == IOC }

  /** An order that may still be OPEN after candle `c` found it due. */
  ghost predicate Lingers(o: Order, c: Candle) {
    !Immediate(o) && OnItsDay(o, c.openTime) && forall price :: Trades(c, price) ==> !Meets(o.intent, price)
  }

  lemma {:induction false} VerdictIsLegal(cfg: Config, b: Book, o: Order, c: Candle, index: nat)
    requires o.status == Open && o.eligibleIndex <= index
    ensures Judge(cfg, b, o, c, index).Ok? ==>
      var v := Judge(cfg, b, o, c, index).value;
      && (v.Leave? ==> Lingers(o, c))
      && (v.Refuse? ==> !IsStop(o))
      && (v.Expire? ==> o.intent.tif != GTC)
      && (v.Execute? ==>
            && FillFor(cfg, o, v.fill, |b.fills| + 1, index) && v.fill.time == c.openTime && OnItsDay(o, c.openTime)
            && (!IsStop(o) ==> ValidateFill(cfg, v.fill, b.portfolio).None?))
    ensures Judge(cfg, b, o, c, index).Err? ==> Judge(cfg, b, o, c, index).error == InvalidExecutionPrice
  {
    var quote := QuoteOrder(cfg, o, c, index);
    if quote.Ok? && quote.value.Some? {
      MakeFillFor(cfg, o, quote.value.value, c.openTime, index, |b.fills| + 1);
    }
  }

  /** Closing an order that is not a stop keeps the book. */
  lemma {:induction false} CloseOrderKeeps(cfg: Config, b: Book, position: nat, to: Status, t: int, index: int)
    requires BookInv(cfg, b, index) && position < |b.orders|
    requires b.orders[position].status == Open && !IsStop(b.orders[position]) && (to == Cancelled || to == Expired)
    ensures CloseOrder(b, position, to, t).Ok?
    ensures var b' := CloseOrder(b, position, to, t).value;
      && BookInv(cfg, b', index) && b' == b.(orders := b'.orders)
      && Evolves(b.orders, b'.orders) && |b'.orders| == |b.orders|
      && b'.orders[position].status == to
      && (forall i :: 0 <= i < |b.orders| && i != position ==> b'.orders[i] == b.orders[i])
      && (OnlyStopsOpen(b.orders) ==> OnlyStopsOpen(b'.orders))
  {
    CloseKeepsTable(cfg, b.orders, position, to, t, index);
    var b' := CloseOrder(b, position, to, t).value;
    EvolvingKeepsMatch(cfg, b.orders, b'.orders, b.fills, index);
    ClosingKeepsProtection(cfg, b.orders, b'.orders, b.portfolio);
  }

  /** What processing one eligible order changes. */
  ghost predicate OrderStep(s: State, s': State, c: Candle, position: nat)
    requires position < |s.book.orders|
  {
    && Grows(s, s') && SameFeed(s, s')
    && (s'.book.orders[position].status == Open ==> Lingers(s.book.orders[position], c))
    && (forall i :: 0 <= i < |s.book.orders| && i != position && !IsStop(s.book.orders[i]) ==>
          s'.book.orders[i] == s.book.orders[i])
    && (forall i :: |s.book.orders| <= i < |s'.book.orders| ==> s'.book.orders[i].createdIndex == s.processed)
  }

  predicate Processable(s: State, position: nat) {
    && position < |s.book.orders|
    && s.book.orders[position].status == Open && s.book.orders[position].eligibleIndex <= s.processed
    && (IsStop(s.book.orders[position]) ==> NoneAfter(s.book.fills, s.processed - 1))
  }

  lemma {:induction false} ExecuteKeeps(env: Env, s: State, c: Candle, position: nat, f: Fill)
    requires TradingInv(env, s, c) && Processable(s, position)
    requires FillFor(env.cfg, s.book.orders[position], f, |s.book.fills| + 1, s.processed) && f.time == c.openTime
    requires Cleared(env.cfg, s.book, s.book.orders[position], f)
    ensures var b := TakeFill(env.cfg, s.book, position, f, s.processed);
      && (b.Err? ==> !b.error.AccusesOwnBooks())
      && (b.Ok? ==>
            var filled := s.(book := b.value, lastFill := Some(f));
            && TradingInv(env, filled, c) && OrderStep(s, filled, c, position)
            && filled.book.orders[position].status != Open)
  {
    TakeFillKeepsInvariant(env.cfg, s.book, position, f, s.processed);
    var b := TakeFill(env.cfg, s.book, position, f, s.processed);
    if b.Ok? && s.halt {
      assert IsStop(s.book.orders[position]);
    }
  }

  /** An OPEN engine stop is good till cancelled and sells the whole position. */
  lemma {:induction false} StopsFitBook(cfg: Config, b: Book, position: nat, index: int)
    requires BookInv(cfg, b, index) && position < |b.orders| && b.orders[position].status == Open
    ensures IsStop(b.orders[position]) ==>
      var i := b.orders[position].intent; i.tif == GTC && i.side == Sell && i.quantity == b.portfolio.base
  {
    assert OrderShape(cfg, b.orders[position], position, index);
  }

  /** Expiring or refusing an order. */
  lemma {:induction false} ClosingKeeps(env: Env, s: State, c: Candle, position: nat, to: Status, t: int)
    requires TradingInv(env, s, c) && Processable(s, position)
    requires !IsStop(s.book.orders[position]) && (to == Cancelled || to == Expired)
    ensures CloseOrder(s.book, position, to, t).Ok?
    ensures var s' := s.(book := CloseOrder(s.book, position, to, t).value);
      TradingInv(env, s', c) && OrderStep(s, s', c, position)
  {
    hide BookInv, CallsOk, HistoryOk, OnlyStopsOpen;
    CloseOrderKeeps(env.cfg, s.book, position, to, t, s.processed);
  }

  lemma {:induction false} ProcessOrderKeeps(env: Env, s: State, c: Candle, position: nat)
    requires TradingInv(env, s, c) && Processable(s, position)
    ensures ProcessOrder(env, s, c, position).Ok? ==>
      TradingInv(env, ProcessOrder(env, s, c, position).value, c)
      && OrderStep(s, ProcessOrder(env, s, c, position).value, c, position)
    ensures ProcessOrder(env, s, c, position).Err? ==> !ProcessOrder(env, s, c, position).error.AccusesOwnBooks()
  {
    hide Judge, TakeFill, AfterFill, CloseOrder, BookInv, CallsOk, HistoryOk, OnlyStopsOpen, FillFor, ValidateFill;
    var o := s.book.orders[position];
    VerdictIsLegal(env.cfg, s.book, o, c, s.processed);
    var verdict := Judge(env.cfg, s.book, o, c, s.processed);
    if verdict.Ok? {
      StopsFitBook(env.cfg, s.book, position, s.processed);
      match verdict.value
      case Leave =>
      case Expire(at) => ClosingKeeps(env, s, c, position, Expired, at);
      case Refuse => ClosingKeeps(env, s, c, position, Cancelled, c.openTime);
      case Execute(f) => ExecutionKeeps(env, s, c, position, f);
    }
  }

  /** Taking the fill, and then calling back and submitting what the strategy answers. */
  lemma {:induction false} ExecutionKeeps(env: Env, s: State, c: Candle, position: nat, f: Fill)
    requires TradingInv(env, s, c) && Processable(s, position)
    requires FillFor(env.cfg, s.book.orders[position], f, |s.book.fills| + 1, s.processed) && f.time == c.openTime
    requires Cleared(env.cfg, s.book, s.book.orders[position], f)
    ensures
      var b := TakeFill(env.cfg, s.book, position, f, s.processed);
      && (b.Err? ==> !b.error.AccusesOwnBooks())
      && (b.Ok? ==>
            var after := AfterFill(env, s.(book := b.value, lastFill := Some(f)), f);
            && (after.Ok? ==> TradingInv(env, after.value, c) && OrderStep(s, after.value, c, position))
            && (after.Err? ==> !after.error.AccusesOwnBooks()))
  {
    hide TakeFill, AfterFill, TradingInv, OrderStep, Cleared, Evolves;
    ExecuteKeeps(env, s, c, position, f);
    var b := TakeFill(env.cfg, s.book, position, f, s.processed);
    if b.Ok? {
      var filled := s.(book := b.value, lastFill := Some(f));
      AfterFillKeeps(env, filled, f, c);
      var after := AfterFill(env, filled, f);
      if after.Ok? { SubmissionExtendsStep(s, filled, after.value, c, position); }
    }
  }

  lemma {:induction false} SubmissionExtendsStep(s: State, mid: State, s': State, c: Candle, position: nat)
    requires position < |s.book.orders| && OrderStep(s, mid, c, position)
    requires mid.book.orders[position].status != Open
    requires SameFeed(mid, s') && s'.book == mid.book.(orders := s'.book.orders)
    requires Submitted(mid.book.orders, s'.book.orders, s.processed, mid.halt) && mid.calls <= s'.calls
    requires Evolves(mid.book.orders, s'.book.orders)
    ensures OrderStep(s, s', c, position)
  {
    GrowsTransitive(s, mid, s');
    assert forall i :: 0 <= i < |mid.book.orders| ==> s'.book.orders[i] == mid.book.orders[i];
  }

  // All eligible orders of a candle

  /** After the first `k` positions: later ones are untouched, earlier immediate ones are closed. */
  ghost predicate Progress(s0: State, s: State, c: Candle, positions: seq<nat>, k: nat)
    requires k <= |positions| && Within(positions, |s0.book.orders|)
  {
    && Grows(s0, s) && SameFeed(s0, s)
    && (forall m :: k <= m < |positions| ==> s.book.orders[positions[m]] == s0.book.orders[positions[m]])
    && (forall m :: 0 <= m < k && s.book.orders[positions[m]].status == Open ==>
      Lingers(s0.book.orders[positions[m]], c))
    && (forall i :: |s0.book.orders| <= i < |s.book.orders| ==> s.book.orders[i].createdIndex == s0.processed)
  }

  /** The next position still names the OPEN order it named when the list was computed. */
  lemma {:induction false} NextIsProcessable(s0: State, s: State, c: Candle, positions: seq<nat>, k: nat)
    requires AtMostOneStop(s0.book.orders) && NoneAfter(s0.book.fills, s0.processed - 1)
    requires positions == EligiblePositions(s0.book.orders, s0.processed) && k < |positions|
    requires Progress(s0, s, c, positions, k) && (k == 0 ==> s == s0)
    ensures Processable(s, positions[k])
    ensures Distinct(positions) && forall m :: 0 < m < |positions| ==> !IsStop(s0.book.orders[positions[m]])
  {
    StopComesFirst(s0.book.orders, s0.processed);
    assert positions[k] in positions;
    assert s.book.orders[positions[k]] == s0.book.orders[positions[k]];
  }

  lemma {:induction false} ProcessOrdersKeeps(env: Env, s0: State, c: Candle, positions: seq<nat>, k: nat)
    requires TradingInv(env, s0, c) && NoneAfter(s0.book.fills, s0.processed - 1)
    requires positions == EligiblePositions(s0.book.orders, s0.processed) && k <= |positions|
    ensures var r := ProcessOrders(env, s0, c, positions[..k]);
      && (r.Ok? ==> TradingInv(env, r.value, c) && Progress(s0, r.value, c, positions, k) && (k == 0 ==> r.value == s0))
      && (r.Err? ==> !r.error.AccusesOwnBooks())
  {
    hide TradingInv, ProcessOrder, EligiblePositions, NoneAfter;
    if k > 0 {
      ProcessOrdersKeeps(env, s0, c, positions, k - 1);
      assert positions[..k][..k - 1] == positions[..k - 1];
      var before := ProcessOrders(env, s0, c, positions[..k - 1]);
      if before.Ok? { ProcessNextKeeps(env, s0, before.value, c, positions, k - 1); }
    }
  }

  lemma {:induction false} ProcessNextKeeps(env: Env, s0: State, s: State, c: Candle, positions: seq<nat>, k: nat)
    requires TradingInv(env, s0, c) && NoneAfter(s0.book.fills, s0.processed - 1)
    requires positions == EligiblePositions(s0.book.orders, s0.processed) && k < |positions|
    requires TradingInv(env, s, c) && Progress(s0, s, c, positions, k) && (k == 0 ==> s == s0)
    ensures var r := ProcessOrder(env, s, c, positions[k]);
      && (r.Ok? ==> TradingInv(env, r.value, c) && Progress(s0, r.value, c, positions, k + 1))
      && (r.Err? ==> !r.error.AccusesOwnBooks())
  {
    NextIsProcessable(s0, s, c, positions, k);
    ProcessOrderKeeps(env, s, c, positions[k]);
    var r := ProcessOrder(env, s, c, positions[k]);
    if r.Ok? { ProgressStep(s0, s, r.value, c, positions, k); }
  }

  lemma {:induction false} ProgressStep(s0: State, s: State, s': State, c: Candle, positions: seq<nat>, k: nat)
    requires k < |positions| && Within(positions, |s0.book.orders|) && Distinct(positions)
    requires forall m :: 0 < m < |positions| ==> !IsStop(s0.book.orders[positions[m]])
    requires Progress(s0, s, c, positions, k) && OrderStep(s, s', c, positions[k])
    ensures Progress(s0, s', c, positions, k + 1)
  {
    GrowsTransitive(s0, s, s');
    forall m | 0 <= m < k && s'.book.orders[positions[m]].status == Open
      ensures Lingers(s0.book.orders[positions[m]], c) {
      assert OrderEvolves(s.book.orders[positions[m]], s'.book.orders[positions[m]]);
    }
    forall i | |s0.book.orders| <= i < |s'.book.orders| ensures s'.book.orders[i].createdIndex == s0.processed {
      if i < |s.book.orders| { assert OrderEvolves(s.book.orders[i], s'.book.orders[i]); }
    }
  }

  /** No MARKET or IOC order is OPEN past its first eligible candle. */
  predicate Punctual(orders: seq<Order>, next: int) {
    forall i :: 0 <= i < |orders| && orders[i].status == Open && Immediate(orders[i]) ==>
      orders[i].eligibleIndex >= next
  }

  /** No order that was due by candle `last`, and that candle `c` could trade, is still OPEN. */
  ghost predicate Exhausted(orders: seq<Order>, c: Candle, last: int) {
    forall i :: 0 <= i < |orders| && orders[i].status == Open && orders[i].eligibleIndex <= last ==>
      Lingers(orders[i], c)
  }

  lemma {:induction false} AllProcessed(cfg: Config, s0: State, s: State, c: Candle, positions: seq<nat>)
    requires OrdersShaped(cfg, s.book.orders, s0.processed)
    requires AtMostOneStop(s0.book.orders) && positions == EligiblePositions(s0.book.orders, s0.processed)
    requires Progress(s0, s, c, positions, |positions|)
    ensures Exhausted(s.book.orders, c, s0.processed) && Punctual(s.book.orders, s0.processed + 1)
  {
    hide Lingers;
    StopComesFirst(s0.book.orders, s0.processed);
    forall i: nat | i < |s.book.orders| && s.book.orders[i].status == Open
      && s.book.orders[i].eligibleIndex <= s0.processed
      ensures Lingers(s.book.orders[i], c)
    {
      assert OrderShape(cfg, s.book.orders[i], i, s0.processed);
      assert i < |s0.book.orders|;
      assert OrderEvolves(s0.book.orders[i], s.book.orders[i]);
      ProcessedLingers(s0, s, c, positions, i);
    }
    ExhaustedIsPunctual(s.book.orders, c, s0.processed);
  }

  lemma {:induction false} ExhaustedIsPunctual(orders: seq<Order>, c: Candle, last: int)
    requires Exhausted(orders, c, last)
    ensures Punctual(orders, last + 1)
  {
    forall i | 0 <= i < |orders| && orders[i].status == Open && orders[i].eligibleIndex <= last
      ensures !Immediate(orders[i]) { assert Lingers(orders[i], c); }
  }

  lemma {:induction false} ProcessedLingers(s0: State, s: State, c: Candle, positions: seq<nat>, i: nat)
    requires Within(positions, |s0.book.orders|) && Progress(s0, s, c, positions, |positions|)
    requires i in positions && s.book.orders[i].status == Open
    ensures Lingers(s0.book.orders[i], c)
  {
    var m :| 0 <= m < |positions| && positions[m] == i;
    assert s.book.orders[positions[m]].status == Open;
  }
}
