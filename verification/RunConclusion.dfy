/** The end of a run: terminal cancellation, forced close, final ledger state and last callback. */
module RunConclusion {
  import opened Domain
  import opened Accounting
  import opened Execution
  import opened Ledger
  import opened Strategy
  import opened EngineSpec
  import opened OrderTable
  import opened Priority
  import opened BookInvariant
  import opened RunInvariant
  import opened RunSafety

  predicate AllTerminal(orders: seq<Order>) { forall i :: 0 <= i < |orders| ==> Terminal(orders[i].status) }

  /** A finished run. */
  predicate FinalInv(env: Env, s: State, cancelAtEnd: bool) {
    && s.processed > 0
    && BookSound(env.cfg, s.book, s.processed - 1)
    && CallsOk(s.calls)
    && |s.equity| == s.processed && EquityIndexed(s.equity)
    && Punctual(s.book.orders, s.processed)
    && (cancelAtEnd ==> AllTerminal(s.book.orders))
    && (!cancelAtEnd ==> Protected(env.cfg, s.book.orders, s.book.portfolio))
    && (env.cfg.forceClose ==> s.book.portfolio.base == 0.0)
  }

  /** How the end of a run changes the state before it: tables grow, the last point may be rewritten. */
  predicate Concludes(s: State, s': State) {
    && Grows(s, s') && s'.halt == s.halt
    && s'.processed == s.processed && s'.regimes == s.regimes
    && |s'.equity| == |s.equity|
    && (forall i :: 0 <= i < |s.equity| - 1 ==> s'.equity[i] == s.equity[i])
  }

  /** The state between the terminal cancellation and the final record. */
  predicate Winding(env: Env, s: State, cancelAtEnd: bool) {
    && s.processed > 0
    && BookSound(env.cfg, s.book, s.processed - 1)
    && CallsOk(s.calls) && HistoryOk(s.history, s.lastRegime) && EndsAt(s.history, s.lastCandle)
    && |s.equity| == s.processed && EquityIndexed(s.equity)
    && Punctual(s.book.orders, s.processed)
    && s.history != []
    && (cancelAtEnd ==> AllTerminal(s.book.orders))
    && (!cancelAtEnd ==> Protected(env.cfg, s.book.orders, s.book.portfolio))
  }

  lemma {:induction false} CancelRemainingKeeps(env: Env, s: State, cancelAtEnd: bool, t: int)
    requires RunInv(env, s) && s.processed > 0
    ensures var s1 := CancelRemaining(s, cancelAtEnd, t);
      && Winding(env, s1, cancelAtEnd) && Concludes(s, s1)
      && s1 == s.(book := s.book.(orders := s1.book.orders))
  {
    SweepKeepsTable(env.cfg, s.book.orders, Everything, t, s.processed - 1);
    var swept := CancelSwept(s.book.orders, Everything, t);
    EvolvingKeepsMatch(env.cfg, s.book.orders, swept, s.book.fills, s.processed - 1);
    forall i: nat | i < |swept| ensures Terminal(swept[i].status) {
      assert OrderShape(env.cfg, s.book.orders[i], i, s.processed - 1);
    }
  }

  /** The liquidation fill: a SELL of the whole position that the portfolio always accepts. */
  lemma {:induction false} LiquidationFillIsSound(cfg: Config, b: Book, f: Fill)
    requires PortfolioInv(cfg, b.portfolio, b.fills)
    requires f.side == Sell && f.quantity == b.portfolio.base && f.fee <= f.notional
    ensures ApplyFill(b.portfolio, f).Ok?
    ensures var m := ApplyFill(b.portfolio, f).value;
      PortfolioInv(cfg, m.after, b.fills + [f]) && m.after.base == 0.0
  {
    ApplyFillAccepts(b.portfolio, f);
    HeldSnoc(b.fills, f);
    GridClosed(b.portfolio.base, b.portfolio.base, cfg.constraints.step);
  }

  /** An OPEN order that keeps the table's shape once it is filled at `t`. */
  predicate Liquidates(cfg: Config, order: Order, t: int, position: nat, index: nat) {
    && OrderShape(cfg, order.(status := Filled, terminalAt := Some(t)), position, index)
    && order.status == Open && !IsStop(order) && order.intent.tif == IOC && order.eligibleIndex == index
  }

  lemma {:induction false} LiquidationOrderJoins(cfg: Config, b: Book, order: Order, f: Fill, index: nat)
    requires BookSound(cfg, b, index)
    requires Liquidates(cfg, order, f.time, |b.orders|, index)
    requires FillFor(cfg, order, f, |b.fills| + 1, index) && f.side == Sell && f.reason == ForceClose
    ensures var orders := b.orders + [order.(status := Filled, terminalAt := Some(f.time))];
      && OrdersShaped(cfg, orders, index) && OpenBounded(cfg, orders)
      && Evolves(b.orders, orders)
      && FillsMatch(cfg, orders, b.fills + [f], index)
  {
    var closed := order.(status := Filled, terminalAt := Some(f.time));
    var before, after := b.orders + [order], b.orders + [closed];
    AppendKeepsTable(cfg, b.orders, closed, index);
    EvolvingKeepsMatch(cfg, b.orders, before, b.fills, index);
    assert (b.fills + [f])[..|b.fills| + 1] == b.fills + [f];
    assert FillOk(cfg, after, b.fills + [f], |b.fills|);
    FillingKeepsMatch(cfg, before, after, |b.orders|, b.fills, f, index);
  }

  /** The books and orders after a liquidation. */
  predicate Liquidated(env: Env, b: Book, b': Book, index: int) {
    && BookSound(env.cfg, b', index) && b'.portfolio.base == 0.0
    && Protected(env.cfg, b'.orders, b'.portfolio)
    && Evolves(b.orders, b'.orders) && b.ledger <= b'.ledger
    && |b'.orders| > |b.orders|
    && (forall i :: |b.orders| <= i < |b'.orders| ==> b'.orders[i].status == Filled)
    && |b'.fills| == |b.fills| + 1 && b.fills <= b'.fills
    && b'.fills[|b.fills|].side == Sell && b'.fills[|b.fills|].quantity == b.portfolio.base
    && b'.fills[|b.fills|].reason == ForceClose
  }

  lemma {:induction false} LiquidationSettles(env: Env, b: Book, order: Order, f: Fill, price: real, t: int, index: nat)
    requires BookSound(env.cfg, b, index) && b.portfolio.base > 0.0 && 0.0 < price
    requires Liquidates(env.cfg, order, f.time, |b.orders|, index)
    requires FillFor(env.cfg, order, f, |b.fills| + 1, index) && f.side == Sell && f.quantity == b.portfolio.base
    requires f.reason == ForceClose && f.time == t
    ensures SettleLiquidation(env.cfg, b, order, f, price, t, index).Ok?
    ensures Liquidated(env, b, SettleLiquidation(env.cfg, b, order, f, price, t, index).value, index)
  {
    LiquidationFillIsSound(env.cfg, b, f);
    RecordFillAgrees(b.ledger, b.portfolio, f);
    LedgerKeepsFloor(env.cfg, b, f);
    var m := ApplyFill(b.portfolio, f).value;
    MarkKeepsSound(m.after, price);
    LiquidationTable(env.cfg, b, order, f, Marked(m.after, price), t, index);
  }

  lemma {:induction false} LiquidationTable(cfg: Config, b: Book, order: Order, f: Fill, p: Portfolio, t: int,
                                            index: nat)
    requires BookSound(cfg, b, index) && Sound(p) && p.base == 0.0 && OnGrid(p.base, cfg.constraints.step)
    requires Liquidates(cfg, order, f.time, |b.orders|, index)
    requires FillFor(cfg, order, f, |b.fills| + 1, index) && f.side == Sell && f.reason == ForceClose
    ensures var joined := b.orders + [order.(status := Filled, terminalAt := Some(f.time))];
      var r := Reconcile(cfg, p, joined, t, index);
      && r.Ok?
      && OrdersShaped(cfg, r.value, index) && OpenBounded(cfg, r.value) && Protected(cfg, r.value, p)
      && Evolves(b.orders, r.value) && FillsMatch(cfg, r.value, b.fills + [f], index)
      && |r.value| == |b.orders| + 1 && r.value[|b.orders|].status == Filled
  {
    LiquidationOrderJoins(cfg, b, order, f, index);
    var joined := b.orders + [order.(status := Filled, terminalAt := Some(f.time))];
    ReconcileProtects(cfg, p, joined, t, index);
    var orders := Reconcile(cfg, p, joined, t, index).value;
    EvolvesTransitive(b.orders, joined, orders);
    EvolvingKeepsMatch(cfg, joined, orders, b.fills + [f], index);
    assert OrderEvolves(joined[|b.orders|], orders[|b.orders|]);
  }

  lemma {:induction false} LiquidationFillFor(cfg: Config, order: Order, c: Candle, index: nat, sequence: nat)
    ensures var r := LiquidationFill(cfg, order, c, index, sequence);
      && (r.Err? ==> r.error == InvalidExecutionPrice)
      && (r.Ok? ==>
            && FillFor(cfg, order, r.value, sequence, index) && 0.0 < c.close
            && r.value.reason == ForceClose && r.value.time == c.closeTime)
  {
    var quote := AdverseQuote(cfg, c.close, Sell, ForceClose);
    if quote.Ok? { MakeFillFor(cfg, order, quote.value, c.closeTime, index, sequence); }
  }

  lemma {:induction false} LiquidateBookSettles(env: Env, b: Book, c: Candle, index: nat)
    requires BookSound(env.cfg, b, index) && b.portfolio.base > 0.0
    ensures var r := LiquidateBook(env.cfg, b, c, index);
      && (r.Ok? ==> Liquidated(env, b, r.value, index))
      && (r.Err? ==> !r.error.AccusesOwnBooks())
  {
    var order := LiquidationOrder(b.portfolio, |b.orders| + 1, c, index);
    assert Liquidates(env.cfg, order, c.closeTime, |b.orders|, index);
    LiquidationFillFor(env.cfg, order, c, index, |b.fills| + 1);
    var fill := LiquidationFill(env.cfg, order, c, index, |b.fills| + 1);
    if fill.Ok? { LiquidationSettles(env, b, order, fill.value, c.close, c.closeTime, index); }
  }

  lemma {:induction false} LiquidateKeeps(env: Env, s: State, c: Candle, cancelAtEnd: bool)
    requires Winding(env, s, cancelAtEnd)
    ensures ForceCloseIfAsked(env, s, c).Ok? ==>
      var s' := ForceCloseIfAsked(env, s, c).value;
      && Winding(env, s', cancelAtEnd) && Concludes(s, s') && s'.lastCandle == s.lastCandle
      && (env.cfg.forceClose ==> s'.book.portfolio.base == 0.0)
    ensures ForceCloseIfAsked(env, s, c).Err? ==> !ForceCloseIfAsked(env, s, c).error.AccusesOwnBooks()
  {
    if env.cfg.forceClose && s.book.portfolio.base > 0.0 { LiquidateStateKeeps(env, s, c, cancelAtEnd); }
  }

  lemma {:induction false} LiquidateStateKeeps(env: Env, s: State, c: Candle, cancelAtEnd: bool)
    requires Winding(env, s, cancelAtEnd) && s.book.portfolio.base > 0.0
    ensures Liquidate(env, s, c).Ok? ==>
      var s' := Liquidate(env, s, c).value;
      Winding(env, s', cancelAtEnd) && Concludes(s, s') && s'.lastCandle == s.lastCandle
        && s'.book.portfolio.base == 0.0
    ensures Liquidate(env, s, c).Err? ==> !Liquidate(env, s, c).error.AccusesOwnBooks()
  {
    hide LiquidateBook, BookSound, CallsOk, HistoryOk, Punctual, EquityIndexed, AllTerminal;
    LiquidateBookSettles(env, s.book, c, s.processed - 1);
    var r := Liquidate(env, s, c);
    if r.Ok? { LiquidationConcludes(env, s, r.value, c, cancelAtEnd); }
  }

  lemma {:induction false} LiquidationConcludes(env: Env, s: State, s': State, c: Candle, cancelAtEnd: bool)
    requires Winding(env, s, cancelAtEnd) && s.book.portfolio.base > 0.0
    requires Liquidated(env, s.book, s'.book, s.processed - 1)
    requires s' == s.(book := s'.book, lastFill := s'.lastFill, equity := s'.equity)
    requires s'.equity == s.equity[..|s.equity| - 1] + [PointOf(s.processed - 1, c, s'.book.portfolio)]
    ensures Winding(env, s', cancelAtEnd) && Concludes(s, s')
  {
    forall i | 0 <= i < |s'.book.orders| && i < |s.book.orders|
      ensures OrderEvolves(s.book.orders[i], s'.book.orders[i]) {}
  }

  /** Every finished run satisfies its final invariant; the end never accuses the books. */
  lemma {:induction false} ConcludeKeeps(env: Env, s: State, cancelAtEnd: bool)
    requires RunInv(env, s)
    ensures Conclude(env, s, cancelAtEnd).Ok? ==>
      FinalInv(env, Conclude(env, s, cancelAtEnd).value, cancelAtEnd)
      && Concludes(s, Conclude(env, s, cancelAtEnd).value)
    ensures Conclude(env, s, cancelAtEnd).Err? ==> !Conclude(env, s, cancelAtEnd).error.AccusesOwnBooks()
  {
    if s.processed > 0 {
      var c := s.lastCandle.value;
      var s1 := CancelRemaining(s, cancelAtEnd, c.closeTime);
      CancelRemainingKeeps(env, s, cancelAtEnd, c.closeTime);
      LiquidateKeeps(env, s1, c, cancelAtEnd);
      var s2 := ForceCloseIfAsked(env, s1, c);
      if s2.Ok? {
        FinalRecordKeeps(env, s2.value, c, cancelAtEnd);
        ConcludesTransitive(s, s1, s2.value);
        var s3 := FinalRecord(env, s2.value, c);
        if s3.Ok? { ConcludesTransitive(s, s2.value, s3.value); }
      }
    }
  }

  lemma {:induction false} ConcludesTransitive(a: State, b: State, c: State)
    requires Concludes(a, b) && Concludes(b, c)
    ensures Concludes(a, c)
  {
    GrowsTransitive(a, b, c);
  }

  /** The final ledger state joins sound books. */
  lemma {:induction false} FinalMarkKeeps(cfg: Config, b: Book, t: int, index: nat)
    requires BookSound(cfg, b, index)
    ensures RecordMark(b.ledger, b.portfolio, t, index, true).Ok?
    ensures var ledger := RecordMark(b.ledger, b.portfolio, t, index, true).value;
      BookSound(cfg, b.(ledger := ledger), index) && b.ledger <= ledger
  {
    hide FillsMatch, OrdersShaped, OpenBounded, Floored;
    RecordMarkAgrees(b.ledger, b.portfolio, b.portfolio, t, index, true);
    RecordMarkFloored(b.ledger, b.portfolio, t, index, true, CashFloor(cfg));
  }

  lemma {:induction false} FinalRecordKeeps(env: Env, s: State, c: Candle, cancelAtEnd: bool)
    requires Winding(env, s, cancelAtEnd) && s.lastCandle == Some(c)
    ensures FinalRecord(env, s, c).Ok? ==>
      var s' := FinalRecord(env, s, c).value;
      && Winding(env, s', cancelAtEnd) && Concludes(s, s')
      && s'.book.portfolio == s.book.portfolio && s'.equity == s.equity
      && s'.book.fills == s.book.fills && s'.book.orders == s.book.orders
    ensures FinalRecord(env, s, c).Err? ==> !FinalRecord(env, s, c).error.AccusesOwnBooks()
  {
    hide BookSound, Protected, Punctual, AllTerminal, OpenOrderView, EquityIndexed, RecordMark;
    FinalMarkKeeps(env.cfg, s.book, c.closeTime, s.processed - 1);
    var ledger := RecordMark(s.book.ledger, s.book.portfolio, c.closeTime, s.processed - 1, true).value;
    var s3 := s.(book := s.book.(ledger := ledger));
    ViewShowsOpenOrders(s3.book.orders);
    CallKeeps(env, s3, OnEnd(View(s3, s3.processed - 1, Some(c), s3.history, s3.lastRegime, s3.lastFill)));
  }
}
