/** What every row of a run's tables records: the candle it traded at, the terms it was placed on, the
    order in which it was processed and the postings it left. */
module RunRecord {
  import opened Domain
  import opened Accounting
  import opened Execution
  import opened Risk
  import opened Ledger
  import opened Regime
  import opened Strategy
  import opened EngineSpec
  import opened OrderTable
  import opened Priority
  import opened BookInvariant
  import opened RunInvariant
  import opened RunSafety
  import opened RunConclusion
  import opened RunTheorems
  import opened Replay
  import opened ReplayTheorems
  import opened RunTrades
  import opened RunStops
  import opened Timing
  import opened Placement

  // Fills

  /** The fill is priced and charged as its order and its candle say, a forced close at the close. */
  predicate FillRecorded(cfg: Config, orders: seq<Order>, ks: seq<Candle>, f: Fill) {
    && 1 <= f.orderId <= |orders| && f.candleIndex < |ks|
    && (if f.reason == ForceClose then ClosePriced(cfg, f, ks[f.candleIndex])
        else FillPriced(cfg, orders[f.orderId - 1].intent, f, ks[f.candleIndex]))
  }

  predicate AllRecorded(cfg: Config, orders: seq<Order>, fills: seq<Fill>, ks: seq<Candle>) {
    forall j :: 0 <= j < |fills| ==> FillRecorded(cfg, orders, ks, fills[j])
  }

  /** Of two fills of one candle, the earlier answers the engine's stop or else the earlier order. */
  predicate InLine(orders: seq<Order>, x: Fill, y: Fill) {
    && 1 <= x.orderId <= |orders| && 1 <= y.orderId <= |orders|
    && var a, b := orders[x.orderId - 1], orders[y.orderId - 1];
    x.candleIndex == y.candleIndex ==> !IsStop(b) && (IsStop(a) || Earlier(a, b))
  }

  predicate AllInLine(orders: seq<Order>, fills: seq<Fill>) {
    forall i, j :: 0 <= i < j < |fills| ==> InLine(orders, fills[i], fills[j])
  }

  // Submissions

  /** Where an order came from: asked for at the start, in answer to a fill, or at a candle's close. The
      first `n` fills were already taken, and `reference` was the price of the moment. */
  predicate SubmittedAt(fills: seq<Fill>, ks: seq<Candle>, closed: nat, o: Order, n: nat, reference: real)
    requires n <= |fills|
  {
    || (o.createdIndex == -1 && n == 0 && ks != [] && o.createdAt == ks[0].openTime && reference == ks[0].open)
    || (n > 0 && o.createdIndex == fills[n - 1].candleIndex && o.createdAt == fills[n - 1].time
        && reference == fills[n - 1].price)
    || (&& 0 <= o.createdIndex < closed <= |ks|
        && o.createdAt == ks[o.createdIndex].closeTime && reference == ks[o.createdIndex].close
        && (n > 0 ==> fills[n - 1].candleIndex <= o.createdIndex)
        && (n < |fills| ==> o.createdIndex < fills[n].candleIndex || fills[n].reason == ForceClose))
  }

  /** Cash and position at a price. */
  function Worth(cash: real, base: real, price: real): real { cash + base * price }

  ghost predicate PlacedAfter(cfg: Config, fills: seq<Fill>, ks: seq<Candle>, closed: nat, o: Order, n: nat,
                              reference: real)
  {
    && n <= |fills| && SubmittedAt(fills, ks, closed, o, n, reference)
    && var cash, base := cfg.capital + CashFlow(fills[..n]), Held(fills[..n]);
    Placed(cfg, o.intent, cash, base, Worth(cash, base, reference), reference)
  }

  /** An order that ever opened, the engine's stop aside, met every check at the price of its moment. */
  ghost predicate OrderPlaced(cfg: Config, fills: seq<Fill>, ks: seq<Candle>, closed: nat, o: Order) {
    !IsStop(o) && o.openedAt.Some? ==> exists n: nat, reference :: PlacedAfter(cfg, fills, ks, closed, o, n, reference)
  }

  ghost predicate AllPlaced(cfg: Config, orders: seq<Order>, fills: seq<Fill>, ks: seq<Candle>, closed: nat) {
    forall i :: 0 <= i < |orders| ==> OrderPlaced(cfg, fills, ks, closed, orders[i])
  }

  // Postings

  ghost predicate FillPosted(ledger: Books, f: Fill) {
    && (exists i :: 0 <= i < |ledger| && PostsFill(ledger[i].event, f))
    && (f.fee != 0.0 ==> exists i :: 0 <= i < |ledger| && PostsFee(ledger[i].event, f))
  }

  ghost predicate ClosePosted(ledger: Books, ks: seq<Candle>, k: nat)
    requires k < |ks|
  {
    exists i :: 0 <= i < |ledger| && PostsMark(ledger[i].event, ks[k].close, ks[k].closeTime, k, false)
  }

  ghost predicate AllPosted(ledger: Books, fills: seq<Fill>, ks: seq<Candle>, closed: nat) {
    && closed <= |ks|
    && (forall j :: 0 <= j < |fills| ==> FillPosted(ledger, fills[j]))
    && forall k: nat :: k < closed ==> ClosePosted(ledger, ks, k)
  }

  /** The record of a book over the evaluated candles `ks`, of which the first `closed` are over. */
  ghost predicate Recorded(cfg: Config, b: Book, ks: seq<Candle>, closed: nat) {
    && closed <= |ks| && Accounted(cfg.capital, b.fills, b.portfolio)
    && AllRecorded(cfg, b.orders, b.fills, ks) && AllInLine(b.orders, b.fills)
    && AllPlaced(cfg, b.orders, b.fills, ks, closed)
    && AllPosted(b.ledger, b.fills, ks, closed)
  }

  // How each part survives

  lemma {:induction false} EvolvedIntent(a: seq<Order>, b: seq<Order>, i: nat)
    requires Evolves(a, b) && i < |a|
    ensures b[i].intent == a[i].intent && b[i].eligibleIndex == a[i].eligibleIndex && b[i].sequence == a[i].sequence
    ensures b[i].createdAt == a[i].createdAt && b[i].createdIndex == a[i].createdIndex && b[i].openedAt == a[i].openedAt
  {
    assert OrderEvolves(a[i], b[i]);
  }

  lemma {:induction false} FillsStayRecorded(cfg: Config, a: seq<Order>, b: seq<Order>, fills: seq<Fill>,
                                             ks: seq<Candle>, later: seq<Candle>)
    requires Evolves(a, b) && ks <= later && AllRecorded(cfg, a, fills, ks) && AllInLine(a, fills)
    ensures AllRecorded(cfg, b, fills, later) && AllInLine(b, fills)
  {
    hide FillPriced, ClosePriced;
    forall j | 0 <= j < |fills| ensures FillRecorded(cfg, b, later, fills[j]) {
      assert FillRecorded(cfg, a, ks, fills[j]);
      EvolvedIntent(a, b, fills[j].orderId - 1);
    }
    forall i, j | 0 <= i < j < |fills| ensures InLine(b, fills[i], fills[j]) {
      assert InLine(a, fills[i], fills[j]);
      EvolvedIntent(a, b, fills[i].orderId - 1);
      EvolvedIntent(a, b, fills[j].orderId - 1);
    }
  }

  /** Neither a changed status nor later candles and fills undo a placement. */
  lemma {:induction false} OrderStaysPlaced(cfg: Config, fills: seq<Fill>, more: seq<Fill>, ks: seq<Candle>,
                                            later: seq<Candle>, closed: nat, over: nat, x: Order, y: Order)
    requires OrderPlaced(cfg, fills, ks, closed, x) && fills <= more && ks <= later && closed <= over
    requires over <= |later|
    requires |more| > |fills| ==> closed <= more[|fills|].candleIndex || more[|fills|].reason == ForceClose
    requires y.intent == x.intent && y.createdAt == x.createdAt && y.createdIndex == x.createdIndex
    requires y.openedAt == x.openedAt
    ensures OrderPlaced(cfg, more, later, over, y)
  {
    hide Placed;
    if !IsStop(y) && y.openedAt.Some? {
      var n: nat, reference :| PlacedAfter(cfg, fills, ks, closed, x, n, reference);
      assert more[..n] == fills[..n];
      assert PlacedAfter(cfg, more, later, over, y, n, reference);
    }
  }

  lemma {:induction false} OrdersStayPlaced(cfg: Config, a: seq<Order>, b: seq<Order>, fills: seq<Fill>,
                                            more: seq<Fill>, ks: seq<Candle>, later: seq<Candle>, closed: nat,
                                            over: nat)
    requires AllPlaced(cfg, a, fills, ks, closed) && Evolves(a, b) && fills <= more && ks <= later
    requires closed <= over <= |later|
    requires |more| > |fills| ==> closed <= more[|fills|].candleIndex || more[|fills|].reason == ForceClose
    requires forall i :: |a| <= i < |b| ==> OrderPlaced(cfg, more, later, over, b[i])
    ensures AllPlaced(cfg, b, more, later, over)
  {
    hide OrderPlaced;
    forall i | 0 <= i < |a| ensures OrderPlaced(cfg, more, later, over, b[i]) {
      EvolvedIntent(a, b, i);
      OrderStaysPlaced(cfg, fills, more, ks, later, closed, over, a[i], b[i]);
    }
  }

  lemma {:induction false} FillStaysPosted(a: Books, b: Books, f: Fill)
    requires a <= b && FillPosted(a, f)
    ensures FillPosted(b, f)
  {
    hide PostsFill, PostsFee;
    var i :| 0 <= i < |a| && PostsFill(a[i].event, f);
    assert PostsFill(b[i].event, f);
    if f.fee != 0.0 {
      var m :| 0 <= m < |a| && PostsFee(a[m].event, f);
      assert PostsFee(b[m].event, f);
    }
  }

  lemma {:induction false} PostingsStay(a: Books, b: Books, fills: seq<Fill>, ks: seq<Candle>, later: seq<Candle>,
                                        closed: nat)
    requires a <= b && AllPosted(a, fills, ks, closed) && ks <= later
    ensures AllPosted(b, fills, later, closed)
  {
    hide FillPosted, PostsMark;
    forall j | 0 <= j < |fills| ensures FillPosted(b, fills[j]) { FillStaysPosted(a, b, fills[j]); }
    forall k: nat | k < closed ensures ClosePosted(b, later, k) {
      assert ClosePosted(a, ks, k);
      var i :| 0 <= i < |a| && PostsMark(a[i].event, ks[k].close, ks[k].closeTime, k, false);
      assert PostsMark(b[i].event, later[k].close, later[k].closeTime, k, false);
    }
  }

  /** Closing orders, appending placed ones and reading further candles. */
  lemma {:induction false} EvolvingKeepsRecord(cfg: Config, b: Book, orders: seq<Order>, ledger: Books, p: Portfolio,
                                               ks: seq<Candle>, later: seq<Candle>, closed: nat, over: nat)
    requires Recorded(cfg, b, ks, closed) && Evolves(b.orders, orders) && b.ledger <= ledger && ks <= later
    requires Accounted(cfg.capital, b.fills, p) && closed <= over <= |later|
    requires forall i :: |b.orders| <= i < |orders| ==> OrderPlaced(cfg, b.fills, later, over, orders[i])
    requires forall k: nat :: closed <= k < over ==> ClosePosted(ledger, later, k)
    ensures Recorded(cfg, Book(p, orders, b.fills, ledger), later, over)
  {
    hide Accounted, AllRecorded, AllInLine, AllPlaced, OrderPlaced, ClosePosted, FillPosted, Evolves;
    FillsStayRecorded(cfg, b.orders, orders, b.fills, ks, later);
    OrdersStayPlaced(cfg, b.orders, orders, b.fills, b.fills, ks, later, closed, over);
    PostingsStay(b.ledger, ledger, b.fills, ks, later, closed);
  }

  // Submission

  /** What a submission appends. */
  ghost predicate NewlyPlaced(cfg: Config, p: Portfolio, o: Order, t: int, index: int, reference: real) {
    && o.createdAt == t && o.createdIndex == index
    && (o.openedAt.Some? ==> Placed(cfg, o.intent, p.cash, p.base, p.equity, reference))
  }

  lemma {:induction false} SubmissionsArePlaced(cfg: Config, p: Portfolio, orders: seq<Order>, intents: seq<Intent>,
                                                index: int, t: int, reference: real, halt: bool)
    requires 0.0 <= p.equity && Submit(cfg, p, orders, intents, index, t, reference, halt).Ok?
    ensures var r := Submit(cfg, p, orders, intents, index, t, reference, halt).value;
      && orders <= r && forall i :: |orders| <= i < |r| ==> NewlyPlaced(cfg, p, r[i], t, index, reference)
  {
    hide Decide, Placed;
    if intents != [] {
      var rest := intents[..|intents| - 1];
      SubmissionsArePlaced(cfg, p, orders, rest, index, t, reference, halt);
      var before := Submit(cfg, p, orders, rest, index, t, reference, halt).value;
      DecisionsArePlaced(cfg, p, before, intents[|intents| - 1], index, t, reference, halt);
    }
  }

  /** A new order was placed on the cash and the position that the fills so far leave. */
  lemma {:induction false} NewOrderIsPlaced(cfg: Config, b: Book, ks: seq<Candle>, closed: nat, o: Order, t: int,
                                            index: int, reference: real)
    requires Accounted(cfg.capital, b.fills, b.portfolio) && NewlyPlaced(cfg, b.portfolio, o, t, index, reference)
    requires b.portfolio.equity == Worth(b.portfolio.cash, b.portfolio.base, reference)
    requires SubmittedAt(b.fills, ks, closed, o, |b.fills|, reference)
    ensures OrderPlaced(cfg, b.fills, ks, closed, o)
  {
    hide Placed, ApplyAll, Sound, SubmittedAt, Worth;
    if o.openedAt.Some? {
      ApplyAllFolds(cfg.capital, b.fills);
      assert b.fills[..|b.fills|] == b.fills;
      assert PlacedAfter(cfg, b.fills, ks, closed, o, |b.fills|, reference);
    }
  }

  lemma {:induction false} SubmittingKeepsRecord(env: Env, s: State, intents: seq<Intent>, index: int, t: int,
                                                 reference: real, ks: seq<Candle>, closed: nat, over: nat)
    requires Recorded(env.cfg, s.book, ks, closed) && closed <= over <= |ks| && 0.0 <= s.book.portfolio.equity
    requires Evolves(s.book.orders, s.book.orders)
    requires s.book.portfolio.equity == Worth(s.book.portfolio.cash, s.book.portfolio.base, reference)
    requires forall o: Order :: o.createdAt == t && o.createdIndex == index ==>
      SubmittedAt(s.book.fills, ks, over, o, |s.book.fills|, reference)
    requires forall k: nat :: closed <= k < over ==> ClosePosted(s.book.ledger, ks, k)
    requires EngineSpec.SubmitIntents(env, s, intents, index, t, reference).Ok?
    ensures Recorded(env.cfg, EngineSpec.SubmitIntents(env, s, intents, index, t, reference).value.book, ks, over)
  {
    hide Submit, Placed, Accounted, AllRecorded, AllInLine, AllPlaced, OrderPlaced, AllPosted, ClosePosted,
      SubmittedAt, Worth, NewlyPlaced;
    var r := EngineSpec.SubmitIntents(env, s, intents, index, t, reference).value;
    SubmissionsArePlaced(env.cfg, s.book.portfolio, s.book.orders, intents, index, t, reference, s.halt);
    AppendedEvolves(s.book.orders, r.book.orders);
    forall i | |s.book.orders| <= i < |r.book.orders|
      ensures OrderPlaced(env.cfg, s.book.fills, ks, over, r.book.orders[i]) {
      assert NewlyPlaced(env.cfg, s.book.portfolio, r.book.orders[i], t, index, reference);
      NewlyDated(env.cfg, s.book.portfolio, r.book.orders[i], t, index, reference);
      NewOrderIsPlaced(env.cfg, s.book, ks, over, r.book.orders[i], t, index, reference);
    }
    EvolvingKeepsRecord(env.cfg, s.book, r.book.orders, s.book.ledger, s.book.portfolio, ks, ks, closed, over);
  }

  lemma {:induction false} NewlyDated(cfg: Config, p: Portfolio, o: Order, t: int, index: int, reference: real)
    requires NewlyPlaced(cfg, p, o, t, index, reference)
    ensures o.createdAt == t && o.createdIndex == index
  {}

  lemma {:induction false} AppendedEvolves(a: seq<Order>, b: seq<Order>)
    requires a <= b
    ensures Evolves(a, b)
  {}

  // One fill

  /** No fill of the current candle answers an order that should have come later. */
  predicate NextInLine(orders: seq<Order>, fills: seq<Fill>, position: nat, index: int)
    requires position < |orders|
  {
    forall i :: 0 <= i < |fills| && fills[i].candleIndex == index ==>
      && 1 <= fills[i].orderId <= |orders| && !IsStop(orders[position])
      && (IsStop(orders[fills[i].orderId - 1]) || Earlier(orders[fills[i].orderId - 1], orders[position]))
  }

  lemma {:induction false} AccountedIsValued(p: Portfolio, f: Fill)
    requires ApplyFill(p, f).Ok?
    ensures var q := ApplyFill(p, f).value.after; q.equity == Worth(q.cash, q.base, f.price) && 0.0 <= q.equity
  {
    hide Portfolio.Valid, DrawdownPct;
    var traded := Traded(p, f).value.after;
    assert MarkToMarket(traded, f.price) == Ok(Marked(traded, f.price));
    MarkedIsValid(traded, f.price);
  }

  lemma {:induction false} MarkedIsValid(p: Portfolio, price: real)
    requires MarkToMarket(p, price).Ok?
    ensures 0.0 <= Marked(p, price).equity
  {}

  lemma {:induction false} FillIsPosted(cfg: Config, b: Book, position: nat, f: Fill, index: int)
    requires position < |b.orders| && TakeFill(cfg, b, position, f, index).Ok?
    ensures var r := TakeFill(cfg, b, position, f, index).value;
      b.ledger <= r.ledger && FillPosted(r.ledger, f)
  {
    hide ApplyFill, RecordFill, Reconcile, PostsFill, PostsFee, PostsProfit;
    var m := ApplyFill(b.portfolio, f).value;
    FillsArePosted(b.ledger, f, m);
    var r := RecordFill(b.ledger, f, m).value;
    assert PostsFill(r[|b.ledger|].event, f);
    if f.fee != 0.0 { assert PostsFee(r[|b.ledger| + 1].event, f); }
  }

  lemma {:induction false} NewFillRecorded(cfg: Config, b: Book, orders: seq<Order>, position: nat, f: Fill, index: nat,
                                           ks: seq<Candle>)
    requires AllRecorded(cfg, b.orders, b.fills, ks) && AllInLine(b.orders, b.fills) && Evolves(b.orders, orders)
    requires position < |b.orders| && f.orderId == position + 1 && f.candleIndex == index < |ks|
    requires f.reason != ForceClose && FillPriced(cfg, b.orders[position].intent, f, ks[index])
    requires NextInLine(b.orders, b.fills, position, index)
    ensures AllRecorded(cfg, orders, b.fills + [f], ks) && AllInLine(orders, b.fills + [f])
  {
    hide FillPriced, ClosePriced;
    FillsStayRecorded(cfg, b.orders, orders, b.fills, ks, ks);
    EvolvedIntent(b.orders, orders, position);
    var fills := b.fills + [f];
    forall i | 0 <= i < |b.fills| ensures InLine(orders, fills[i], f) {
      assert FillRecorded(cfg, b.orders, ks, b.fills[i]);
      EvolvedIntent(b.orders, orders, b.fills[i].orderId - 1);
    }
    forall j | 0 <= j < |fills| ensures FillRecorded(cfg, orders, ks, fills[j]) {
      if j < |b.fills| { assert FillRecorded(cfg, orders, ks, b.fills[j]); }
    }
    forall i, j | 0 <= i < j < |fills| ensures InLine(orders, fills[i], fills[j]) {
      if j < |b.fills| { assert InLine(orders, b.fills[i], b.fills[j]); }
    }
  }

  lemma {:induction false} PostingsGrow(a: Books, b: Books, fills: seq<Fill>, f: Fill, ks: seq<Candle>, closed: nat)
    requires AllPosted(a, fills, ks, closed) && a <= b && FillPosted(b, f)
    ensures AllPosted(b, fills + [f], ks, closed)
  {
    hide FillPosted, ClosePosted;
    PostingsStay(a, b, fills, ks, ks, closed);
  }

  lemma {:induction false} TakeFillKeepsRecord(cfg: Config, b: Book, position: nat, f: Fill, index: nat,
                                               ks: seq<Candle>, closed: nat)
    requires BookInv(cfg, b, index) && Recorded(cfg, b, ks, closed) && closed <= index < |ks|
    requires position < |b.orders| && b.orders[position].status == Open && b.orders[position].eligibleIndex <= index
    requires FillFor(cfg, b.orders[position], f, |b.fills| + 1, index) && Cleared(cfg, b, b.orders[position], f)
    requires IsStop(b.orders[position]) ==> NoneAfter(b.fills, index - 1)
    requires f.reason != ForceClose && FillPriced(cfg, b.orders[position].intent, f, ks[index])
    requires NextInLine(b.orders, b.fills, position, index)
    ensures TakeFill(cfg, b, position, f, index).Ok? ==>
      var r := TakeFill(cfg, b, position, f, index).value;
      Recorded(cfg, r, ks, closed) && 0.0 <= r.portfolio.equity
      && r.portfolio.equity == Worth(r.portfolio.cash, r.portfolio.base, f.price)
  {
    hide BookInv, Accounted, ApplyFill, RecordFill, Cleared, NoneAfter, FillPriced, NextInLine, AllRecorded,
      AllInLine, AllPlaced, AllPosted, Evolves, TakeFill, FillPosted, Worth;
    TakeFillKeepsInvariant(cfg, b, position, f, index);
    if TakeFill(cfg, b, position, f, index).Ok? {
      var r := TakeFill(cfg, b, position, f, index).value;
      FillIndex(cfg, b.orders[position], f, |b.fills| + 1, index);
      OpenOrderId(cfg, b, position, index);
      TakeFillFolds(cfg, b, position, f, index);
      BookIsSound(cfg, b, index);
      FoldStaysAccounted(cfg.capital, b, r, index, f.time);
      TakenApplies(cfg, b, position, f, index);
      AccountedIsValued(b.portfolio, f);
      NewFillRecorded(cfg, b, r.orders, position, f, index, ks);
      forall i | |b.orders| <= i < |r.orders| ensures OrderPlaced(cfg, r.fills, ks, closed, r.orders[i]) {
        assert IsStop(r.orders[i]);
      }
      OrdersStayPlaced(cfg, b.orders, r.orders, b.fills, r.fills, ks, ks, closed, closed);
      FillIsPosted(cfg, b, position, f, index);
      PostingsGrow(b.ledger, r.ledger, b.fills, f, ks, closed);
    }
  }

  lemma {:induction false} OpenOrderId(cfg: Config, b: Book, position: nat, index: int)
    requires BookInv(cfg, b, index) && position < |b.orders|
    ensures b.orders[position].id == position + 1
  {
    assert OrderShape(cfg, b.orders[position], position, index);
  }

  lemma {:induction false} TakenApplies(cfg: Config, b: Book, position: nat, f: Fill, index: int)
    requires position < |b.orders| && TakeFill(cfg, b, position, f, index).Ok?
    ensures ApplyFill(b.portfolio, f).Ok?
  {}

  // One eligible order

  /** The verdict to fill prices the fill at the candle. */
  lemma {:induction false} VerdictIsPriced(cfg: Config, b: Book, o: Order, c: Candle, index: nat)
    ensures var v := Judge(cfg, b, o, c, index);
      v.Ok? && v.value.Execute? ==> FillPriced(cfg, o.intent, v.value.fill, c) && v.value.fill.reason != ForceClose
  {
    hide QuoteOrder, MakeFill, FillPriced, ValidateFill;
    var v := Judge(cfg, b, o, c, index);
    if v.Ok? && v.value.Execute? {
      QuotedFillsArePriced(cfg, o, c, index, |b.fills| + 1);
      PricedHasReason(cfg, o.intent, v.value.fill, c);
    }
  }

  lemma {:induction false} PricedHasReason(cfg: Config, i: Intent, f: Fill, c: Candle)
    requires FillPriced(cfg, i, f, c)
    ensures f.reason != ForceClose
  {}

  lemma {:induction false} ClosingKeepsRecord(cfg: Config, b: Book, position: nat, to: Status, t: int, ks: seq<Candle>,
                                              closed: nat)
    requires Recorded(cfg, b, ks, closed) && position < |b.orders| && b.orders[position].status == Open
    requires to == Expired || to == Cancelled
    ensures CloseOrder(b, position, to, t).Ok? ==> Recorded(cfg, CloseOrder(b, position, to, t).value, ks, closed)
  {
    hide Accounted, AllRecorded, AllInLine, AllPlaced, AllPosted;
    var r := CloseOrder(b, position, to, t);
    if r.Ok? { EvolvingKeepsRecord(cfg, b, r.value.orders, b.ledger, b.portfolio, ks, ks, closed, closed); }
  }

  lemma {:induction false} ExecutionKeepsRecord(env: Env, s: State, c: Candle, position: nat, f: Fill, ks: seq<Candle>)
    requires TradingInv(env, s, c) && Processable(s, position)
    requires |ks| == s.processed + 1 && ks[s.processed] == c && Recorded(env.cfg, s.book, ks, s.processed)
    requires FillFor(env.cfg, s.book.orders[position], f, |s.book.fills| + 1, s.processed) && f.time == c.openTime
    requires Cleared(env.cfg, s.book, s.book.orders[position], f)
    requires f.reason != ForceClose && FillPriced(env.cfg, s.book.orders[position].intent, f, c)
    requires NextInLine(s.book.orders, s.book.fills, position, s.processed)
    ensures
      var b := TakeFill(env.cfg, s.book, position, f, s.processed);
      b.Ok? ==>
        var after := AfterFill(env, s.(book := b.value, lastFill := Some(f)), f);
        after.Ok? ==> Recorded(env.cfg, after.value.book, ks, s.processed)
  {
    hide TakeFill, TradingInv, OrderStep, Cleared, FillPriced, Recorded, EngineSpec.SubmitIntents, CallStrategy,
      FillContext, Worth, NextInLine;
    TradingBook(env, s, c);
    TakeFillKeepsRecord(env.cfg, s.book, position, f, s.processed, ks, s.processed);
    var b := TakeFill(env.cfg, s.book, position, f, s.processed);
    if b.Ok? {
      TakeFillFolds(env.cfg, s.book, position, f, s.processed);
      TakenFills(env.cfg, s.book, position, f, s.processed);
      var filled := s.(book := b.value, lastFill := Some(f));
      var after := AfterFill(env, filled, f);
      if after.Ok? {
        var called := CallStrategy(env, filled, OnFill(FillContext(filled, f), f)).value;
        CalledKeepsBook(env, filled, OnFill(FillContext(filled, f), f));
        SubmittingKeepsRecord(env, called.state, called.reply.intents, f.candleIndex, f.time, f.price, ks, s.processed,
          s.processed);
      }
    }
  }

  lemma {:induction false} TakenFills(cfg: Config, b: Book, position: nat, f: Fill, index: int)
    requires position < |b.orders| && TakeFill(cfg, b, position, f, index).Ok?
    ensures TakeFill(cfg, b, position, f, index).value.fills == b.fills + [f]
  {}

  lemma {:induction false} CalledKeepsBook(env: Env, s: State, call: Call)
    requires CallStrategy(env, s, call).Ok?
    ensures CallStrategy(env, s, call).value.state.book == s.book
    ensures CallStrategy(env, s, call).value.state == s.(calls := s.calls + [call])
  {}

  lemma {:induction false} ProcessOrderKeepsRecord(env: Env, s: State, c: Candle, position: nat, ks: seq<Candle>)
    requires TradingInv(env, s, c) && Processable(s, position)
    requires |ks| == s.processed + 1 && ks[s.processed] == c && Recorded(env.cfg, s.book, ks, s.processed)
    requires NextInLine(s.book.orders, s.book.fills, position, s.processed)
    ensures ProcessOrder(env, s, c, position).Ok? ==>
      Recorded(env.cfg, ProcessOrder(env, s, c, position).value.book, ks, s.processed)
  {
    hide Judge, TakeFill, AfterFill, CloseOrder, BookInv, CallsOk, HistoryOk, OnlyStopsOpen, FillFor, ValidateFill,
      Recorded, FillPriced, NoneAfter, NextInLine;
    var o := s.book.orders[position];
    VerdictIsLegal(env.cfg, s.book, o, c, s.processed);
    VerdictIsPriced(env.cfg, s.book, o, c, s.processed);
    var verdict := Judge(env.cfg, s.book, o, c, s.processed);
    if verdict.Ok? {
      StopsFitBook(env.cfg, s.book, position, s.processed);
      match verdict.value
      case Leave =>
      case Expire(at) => ClosingKeepsRecord(env.cfg, s.book, position, Expired, at, ks, s.processed);
      case Refuse => ClosingKeepsRecord(env.cfg, s.book, position, Cancelled, c.openTime, ks, s.processed);
      case Execute(f) =>
        FillSide(env.cfg, o, f, |s.book.fills| + 1, s.processed);
        ExecutionKeepsRecord(env, s, c, position, f, ks);
    }
  }

  lemma {:induction false} FillSide(cfg: Config, o: Order, f: Fill, sequence: nat, index: nat)
    requires FillFor(cfg, o, f, sequence, index)
    ensures f.side == o.intent.side && f.quantity == o.intent.quantity
  {}

  // The eligible orders of a candle, in order

  /** Every fill taken so far in this candle answers one of the first `k` eligible orders. */
  predicate FromList(taken: nat, fills: seq<Fill>, positions: seq<nat>, k: nat)
    requires k <= |positions|
  {
    forall j :: taken <= j < |fills| ==> Named(positions, k, fills[j].orderId)
  }

  predicate Named(positions: seq<nat>, k: nat, id: nat)
    requires k <= |positions|
  {
    exists m :: 0 <= m < k && positions[m] + 1 == id
  }

  lemma {:induction false} ProcessOrderFills(env: Env, s: State, c: Candle, position: nat)
    requires ProcessOrder(env, s, c, position).Ok? && position < |s.book.orders|
    ensures var s' := ProcessOrder(env, s, c, position).value;
      || s'.book.fills == s.book.fills
      || (|s'.book.fills| == |s.book.fills| + 1 && s.book.fills <= s'.book.fills
          && s'.book.fills[|s.book.fills|].orderId == s.book.orders[position].id)
  {
    hide Judge, TakeFill, AfterFill;
    var o := s.book.orders[position];
    var verdict := Judge(env.cfg, s.book, o, c, s.processed);
    JudgedFillAnswers(env.cfg, s.book, o, c, s.processed);
    if verdict.Ok? && verdict.value.Execute? {
      var f := verdict.value.fill;
      TakenFills(env.cfg, s.book, position, f, s.processed);
      var b := TakeFill(env.cfg, s.book, position, f, s.processed).value;
      AnsweringTakesNoFill(env, s.(book := b, lastFill := Some(f)), f);
    }
  }

  lemma {:induction false} JudgedFillAnswers(cfg: Config, b: Book, o: Order, c: Candle, index: nat)
    ensures var v := Judge(cfg, b, o, c, index); v.Ok? && v.value.Execute? ==> v.value.fill.orderId == o.id
  {
    hide QuoteOrder, ValidateFill;
  }

  lemma {:induction false} AnsweringTakesNoFill(env: Env, s: State, f: Fill)
    requires AfterFill(env, s, f).Ok?
    ensures AfterFill(env, s, f).value.book.fills == s.book.fills
  {
    hide FillContext, Submit;
  }

  lemma {:induction false} ListedFills(env: Env, s0: State, c: Candle, positions: seq<nat>, k: nat)
    requires TradingInv(env, s0, c) && NoneAfter(s0.book.fills, s0.processed - 1)
    requires positions == EligiblePositions(s0.book.orders, s0.processed) && k <= |positions|
    ensures var r := ProcessOrders(env, s0, c, positions[..k]);
      r.Ok? ==> s0.book.fills <= r.value.book.fills && FromList(|s0.book.fills|, r.value.book.fills, positions, k)
  {
    hide ProcessOrder, EligiblePositions, NoneAfter, TradingInv, Progress;
    if k > 0 {
      ListedFills(env, s0, c, positions, k - 1);
      ProcessOrdersKeeps(env, s0, c, positions, k - 1);
      assert positions[..k][..k - 1] == positions[..k - 1];
      var before := ProcessOrders(env, s0, c, positions[..k - 1]);
      var r := ProcessOrders(env, s0, c, positions[..k]);
      if before.Ok? && r.Ok? {
        TradingBook(env, s0, c);
        AtMostOne(env.cfg, s0.book, s0.processed);
        NextIsProcessable(s0, before.value, c, positions, k - 1);
        TradingBook(env, before.value, c);
        OpenOrderId(env.cfg, before.value.book, positions[k - 1], before.value.processed);
        ProcessOrderFills(env, before.value, c, positions[k - 1]);
        ListGrows(|s0.book.fills|, before.value.book.fills, r.value.book.fills, positions, k - 1);
      }
    }
  }

  lemma {:induction false} ListGrows(taken: nat, fills: seq<Fill>, more: seq<Fill>, positions: seq<nat>, k: nat)
    requires k < |positions| && FromList(taken, fills, positions, k) && fills <= more && taken <= |fills|
    requires |more| == |fills| || (|more| == |fills| + 1 && more[|fills|].orderId == positions[k] + 1)
    ensures FromList(taken, more, positions, k + 1)
  {
    forall j | taken <= j < |more| ensures Named(positions, k + 1, more[j].orderId) {
      if j < |fills| {
        assert Named(positions, k, fills[j].orderId);
      } else {
        assert positions[k] + 1 == more[j].orderId;
      }
    }
  }

  /** The list is processed in line. */
  lemma {:induction false} ListIsInLine(cfg: Config, b0: Book, orders: seq<Order>, fills: seq<Fill>,
                                        positions: seq<nat>, k: nat, index: nat)
    requires BookInv(cfg, b0, index) && NoneAfter(b0.fills, index - 1) && b0.fills <= fills
    requires positions == EligiblePositions(b0.orders, index) && k < |positions| && Evolves(b0.orders, orders)
    requires FromList(|b0.fills|, fills, positions, k) && positions[k] < |orders|
    ensures NextInLine(orders, fills, positions[k], index)
  {
    hide BookInv, EligiblePositions;
    TableIsShaped(cfg, b0, index);
    AtMostOne(cfg, b0, index);
    ShapedIsSequenced(cfg, b0.orders, index);
    EligibleInOrder(b0.orders, index);
    StopComesFirst(b0.orders, index);
    forall i | 0 <= i < |fills| && fills[i].candleIndex == index
      ensures 1 <= fills[i].orderId <= |orders| && !IsStop(orders[positions[k]])
      ensures IsStop(orders[fills[i].orderId - 1]) || Earlier(orders[fills[i].orderId - 1], orders[positions[k]])
    {
      assert i >= |b0.fills|;
      assert Named(positions, k, fills[i].orderId);
      var m :| 0 <= m < k && positions[m] + 1 == fills[i].orderId;
      assert positions[m] in positions && positions[k] in positions;
      EvolvedIntent(b0.orders, orders, positions[m]);
      EvolvedIntent(b0.orders, orders, positions[k]);
    }
  }

  lemma {:induction false} ShapedIsSequenced(cfg: Config, orders: seq<Order>, index: int)
    requires OrdersShaped(cfg, orders, index)
    ensures Sequenced(orders)
  {
    forall i: nat | i < |orders| ensures orders[i].sequence == i + 1 { assert OrderShape(cfg, orders[i], i, index); }
  }

  lemma {:induction false} ProcessOrdersKeepRecord(env: Env, s0: State, c: Candle, positions: seq<nat>, k: nat,
                                                   ks: seq<Candle>)
    requires TradingInv(env, s0, c) && NoneAfter(s0.book.fills, s0.processed - 1)
    requires positions == EligiblePositions(s0.book.orders, s0.processed) && k <= |positions|
    requires |ks| == s0.processed + 1 && ks[s0.processed] == c && Recorded(env.cfg, s0.book, ks, s0.processed)
    ensures var r := ProcessOrders(env, s0, c, positions[..k]);
      r.Ok? ==> Recorded(env.cfg, r.value.book, ks, s0.processed)
  {
    hide ProcessOrder, EligiblePositions, NoneAfter, Recorded, Progress, TradingInv, NextInLine, FromList;
    if k > 0 {
      ProcessOrdersKeepRecord(env, s0, c, positions, k - 1, ks);
      ProcessOrdersKeeps(env, s0, c, positions, k - 1);
      ListedFills(env, s0, c, positions, k - 1);
      assert positions[..k][..k - 1] == positions[..k - 1];
      var before := ProcessOrders(env, s0, c, positions[..k - 1]);
      if before.Ok? {
        TradingBook(env, s0, c);
        AtMostOne(env.cfg, s0.book, s0.processed);
        NextIsProcessable(s0, before.value, c, positions, k - 1);
        EligibleWithin(s0.book.orders, s0.processed);
        ProgressGrows(s0, before.value, c, positions, k - 1);
        ListIsInLine(env.cfg, s0.book, before.value.book.orders, before.value.book.fills, positions, k - 1,
          s0.processed);
        ProcessOrderKeepsRecord(env, before.value, c, positions[k - 1], ks);
      }
    }
  }

  lemma {:induction false} EligibleWithin(orders: seq<Order>, index: int)
    ensures Within(EligiblePositions(orders, index), |orders|)
  {}

  lemma {:induction false} ProgressGrows(s0: State, s: State, c: Candle, positions: seq<nat>, k: nat)
    requires k <= |positions| && Within(positions, |s0.book.orders|) && Progress(s0, s, c, positions, k)
    ensures Evolves(s0.book.orders, s.book.orders) && s.processed == s0.processed
  {}

  // One candle

  lemma {:induction false} FlatWorth(cash: real, price: real)
    ensures Worth(cash, 0.0, price) == cash
  {}

  lemma {:induction false} PendingKeepsRecord(env: Env, s: State, c: Candle, ks: seq<Candle>)
    requires CandleReady(env, s, c) && |ks| == s.processed + 1 && ks[s.processed] == c
    requires Recorded(env.cfg, s.book, ks, s.processed)
    requires s.processed == 0 ==> s.book.fills == [] && s.book.portfolio == Initialize(env.cfg.capital)
    ensures SubmitPending(env, s, c).Ok? ==> Recorded(env.cfg, SubmitPending(env, s, c).value.book, ks, s.processed)
  {
    hide EngineSpec.SubmitIntents, Recorded, Worth, BookInv, CallsOk, HistoryOk, Punctual;
    if s.processed == 0 && s.pending != [] && SubmitPending(env, s, c).Ok? {
      FlatWorth(env.cfg.capital, c.open);
      SubmittingKeepsRecord(env, s, s.pending, -1, c.openTime, c.open, ks, 0, 0);
    }
  }

  lemma {:induction false} TradingKeepsRecord(env: Env, s: State, c: Candle, ks: seq<Candle>)
    requires CandleReady(env, s, c) && |ks| == s.processed + 1 && ks[s.processed] == c
    requires Recorded(env.cfg, s.book, ks, s.processed)
    requires s.processed == 0 ==> s.book.fills == [] && s.book.portfolio == Initialize(env.cfg.capital)
    ensures TradeCandle(env, s, c).Ok? ==> Recorded(env.cfg, TradeCandle(env, s, c).value.book, ks, s.processed)
  {
    hide BookInv, Recorded, ProcessOrders, EligiblePositions, SubmitPending;
    SubmitPendingKeeps(env, s, c);
    PendingKeepsRecord(env, s, c, ks);
    var r1 := SubmitPending(env, s, c);
    if r1.Ok? {
      var positions := EligiblePositions(r1.value.book.orders, r1.value.processed);
      assert positions[..|positions|] == positions;
      ProcessOrdersKeepRecord(env, r1.value, c, positions, |positions|, ks);
    }
  }

  lemma {:induction false} CloseMarks(env: Env, s: State, c: Candle)
    requires CloseCandle(env, s, c).Ok?
    ensures var s' := CloseCandle(env, s, c).value;
      && s'.book.portfolio == Marked(s.book.portfolio, c.close) && s'.book.fills == s.book.fills
      && s'.processed == s.processed && 0.0 <= s'.book.portfolio.equity && Evolves(s.book.orders, s'.book.orders)
      && |s'.book.orders| == |s.book.orders|
      && RecordMark(s.book.ledger, s'.book.portfolio, c.closeTime, s.processed, false) == Ok(s'.book.ledger)
  {
    hide RecordMark, HaltRequired, DrawdownPct;
  }

  lemma {:induction false} MarkedIsValued(p: Portfolio, price: real)
    ensures var m := Marked(p, price); m.equity == Worth(m.cash, m.base, price) && m.lastMark == Some(price)
  {}

  lemma {:induction false} ClosingCandleKeepsRecord(env: Env, s: State, c: Candle, ks: seq<Candle>)
    requires |ks| == s.processed + 1 && ks[s.processed] == c && Recorded(env.cfg, s.book, ks, s.processed)
    requires CloseCandle(env, s, c).Ok?
    ensures Recorded(env.cfg, CloseCandle(env, s, c).value.book, ks, s.processed + 1)
  {
    hide CloseCandle, Accounted, AllRecorded, AllInLine, AllPlaced, AllPosted, Evolves, Marked, RecordMark, PostsMark;
    var s' := CloseCandle(env, s, c).value;
    CloseMarks(env, s, c);
    MarkStaysAccounted(env.cfg.capital, s.book.fills, s.book.portfolio, c.close);
    MarkedIsValued(s.book.portfolio, c.close);
    MarksArePosted(s.book.ledger, s'.book.portfolio, c.close, c.closeTime, s.processed, false);
    assert PostsMark(s'.book.ledger[|s.book.ledger|].event, ks[s.processed].close, ks[s.processed].closeTime,
      s.processed, false);
    assert ClosePosted(s'.book.ledger, ks, s.processed);
    EvolvingKeepsRecord(env.cfg, s.book, s'.book.orders, s'.book.ledger, s'.book.portfolio, ks, ks, s.processed,
      s.processed + 1);
  }

  lemma {:induction false} FinishingKeepsRecord(env: Env, s: State, c: Candle, regime: Option<RegimePoint>,
                                                ks: seq<Candle>)
    requires |ks| == s.processed + 1 && ks[s.processed] == c && Recorded(env.cfg, s.book, ks, s.processed + 1)
    requires NoneAfter(s.book.fills, s.processed) && 0.0 <= s.book.portfolio.equity
    requires s.book.portfolio.equity == Worth(s.book.portfolio.cash, s.book.portfolio.base, c.close)
    requires FinishCandle(env, s, c, regime).Ok?
    ensures Recorded(env.cfg, FinishCandle(env, s, c, regime).value.book, ks, s.processed + 1)
  {
    hide EngineSpec.SubmitIntents, Recorded, Worth, View, Push, CallStrategy;
    var s1 := s.(history := Push(s.history, c, env.cfg.historyWindow));
    var call := OnCandle(View(s1, s.processed, Some(c), s1.history, regime, s.lastFill), c);
    CalledKeepsBook(env, s1, call);
    var called := CallStrategy(env, s1, call).value;
    SubmittingKeepsRecord(env, called.state, called.reply.intents, s.processed, c.closeTime, c.close, ks,
      s.processed + 1, s.processed + 1);
  }

  lemma {:induction false} TradingFillsEarly(env: Env, s: State, c: Candle)
    requires TradingInv(env, s, c)
    ensures NoneAfter(s.book.fills, s.processed)
  {}

  lemma {:induction false} EvaluationKeepsRecord(env: Env, s: State, c: Candle, regime: Option<RegimePoint>,
                                                 ks: seq<Candle>)
    requires CandleReady(env, s, c) && RegimeFits(regime, c) && env.cfg.evaluationStart <= c.openTime
    requires |ks| == s.processed && Recorded(env.cfg, s.book, ks, s.processed)
    requires s.processed == 0 ==> s.book.fills == [] && s.book.portfolio == Initialize(env.cfg.capital)
    requires EvaluateCandle(env, s, c, regime).Ok?
    ensures Recorded(env.cfg, EvaluateCandle(env, s, c, regime).value.book, ks + [c], s.processed + 1)
  {
    hide TradeCandle, CloseCandle, FinishCandle, BookInv, CallsOk, HistoryOk, Punctual, AccumulatorOk, Exhausted,
      Accounted, AllRecorded, AllInLine, AllPlaced, AllPosted, Worth, Marked;
    var now := ks + [c];
    SameEvolves(s.book.orders);
    EvolvingKeepsRecord(env.cfg, s.book, s.book.orders, s.book.ledger, s.book.portfolio, ks, now, s.processed,
      s.processed);
    TradingKeepsRecord(env, s, c, now);
    TradeCandleKeeps(env, s, c);
    var s2 := TradeCandle(env, s, c).value;
    ClosingCandleKeepsRecord(env, s2, c, now);
    CloseMarks(env, s2, c);
    MarkedIsValued(s2.book.portfolio, c.close);
    TradingFillsEarly(env, s2, c);
    var s3 := CloseCandle(env, s2, c).value;
    FinishingKeepsRecord(env, s3, c, regime, now);
  }

  lemma {:induction false} SameEvolves(orders: seq<Order>)
    ensures Evolves(orders, orders)
  {}

  // Whole runs

  /** The evaluated candles, in order. */
  function EvaluatedCandles(env: Env, cs: seq<Candle>): seq<Candle> {
    if cs == [] then []
    else
      var rest := EvaluatedCandles(env, cs[..|cs| - 1]);
      if cs[|cs| - 1].openTime >= env.cfg.evaluationStart then rest + [cs[|cs| - 1]] else rest
  }

  ghost predicate RecordKept(env: Env, s: State, ks: seq<Candle>) {
    && |ks| == s.processed && Recorded(env.cfg, s.book, ks, s.processed)
    && (s.processed == 0 ==> s.book.fills == [] && s.book.portfolio == Initialize(env.cfg.capital))
  }

  lemma {:induction false} StepKeepsRecord(env: Env, s: State, c: Candle, ks: seq<Candle>)
    requires RunInv(env, s) && RecordKept(env, s, ks) && StepCandle(env, s, c).Ok?
    ensures RecordKept(env, StepCandle(env, s, c).value, if c.openTime < env.cfg.evaluationStart then ks else ks + [c])
  {
    hide EvaluateCandle, WarmupCandle, BookInv, CallsOk, HistoryOk, Punctual, Recorded;
    ObserveRegimeFits(env, s.accumulator, c);
    var observed := ObserveRegime(env, s.accumulator, c).value;
    var s1 := Admitted(s, c, observed.accumulator);
    AdmitKeeps(env, s, c, observed.accumulator);
    if c.openTime < env.cfg.evaluationStart {
      WarmupKeepsCurve(env, s1, c, observed.point);
    } else {
      EvaluationKeepsRecord(env, s1, c, observed.point, ks);
      EvaluationCounts(env, s1, c, observed.point);
    }
  }

  lemma {:induction false} StartIsRecorded(env: Env)
    requires Start(env).Ok?
    ensures RecordKept(env, Start(env).value, [])
  {
    hide ValidContext, View, AllPlaced;
    NothingPlaced(env.cfg);
    assert ApplyAll(Initialize(env.cfg.capital), []) == Ok(Initialize(env.cfg.capital));
    CapitalIsSound(env.cfg.capital);
  }

  lemma {:induction false} NothingPlaced(cfg: Config)
    ensures AllPlaced(cfg, [], [], [], 0)
  {}

  /** After every candle of every run the tables are recorded. */
  lemma {:induction false} EveryStateIsRecorded(env: Env, cs: seq<Candle>)
    requires StateAfter(env, cs).Ok?
    ensures RecordKept(env, StateAfter(env, cs).value, EvaluatedCandles(env, cs))
  {
    hide StepCandle, Start, RecordKept, RunInv;
    if cs == [] {
      StartIsRecorded(env);
    } else {
      var rest := cs[..|cs| - 1];
      EveryStateIsRecorded(env, rest);
      EveryStateIsSound(env, rest);
      StepKeepsRecord(env, StateAfter(env, rest).value, cs[|cs| - 1], EvaluatedCandles(env, rest));
    }
  }

  // The end of the run

  lemma {:induction false} ForcedIsPriced(env: Env, s: State)
    requires ForcesClose(env, s) && s.processed > 0 && s.lastCandle.Some? && ForcedFill(env, s).Ok?
    ensures var f := ForcedFill(env, s).value;
      && ClosePriced(env.cfg, f, s.lastCandle.value) && f.reason == ForceClose
      && f.orderId == |s.book.orders| + 1 && f.candleIndex == s.processed - 1
  {
    hide AdversePrice, Charged;
    var c := s.lastCandle.value;
    var order := LiquidationOrder(s.book.portfolio, |s.book.orders| + 1, c, s.processed - 1);
    var quote := AdverseQuote(env.cfg, c.close, Sell, ForceClose).value;
    QuoteIsCharged(env.cfg, order, quote, c.closeTime, s.processed - 1, |s.book.fills| + 1);
  }

  /** The liquidation's order comes after every other order. */
  lemma {:induction false} LiquidationIsLast(cfg: Config, b: Book, c: Candle, index: nat)
    requires b.portfolio.base > 0.0 && LiquidateBook(cfg, b, c, index).Ok?
    ensures var r := LiquidateBook(cfg, b, c, index).value;
      && |b.orders| < |r.orders|
      && var o := r.orders[|b.orders|];
      && !IsStop(o) && o.eligibleIndex == index && o.sequence == |b.orders| + 1
      && o.intent.side == Sell && o.intent.kind.Market? && o.intent.quantity == b.portfolio.base
  {
    hide ApplyFill, RecordFill, MarkToMarket, EvaluateStop, LiquidationFill;
  }

  /** What the end of a run adds when it sells the position. */
  ghost predicate ForcedTables(env: Env, s: State, f: State, fill: Fill, c: Candle) {
    && f.book.fills == s.book.fills + [fill] && FillPosted(f.book.ledger, fill)
    && |s.book.orders| < |f.book.orders|
    && var o := f.book.orders[|s.book.orders|];
    && !IsStop(o) && o.eligibleIndex == s.processed - 1 && o.sequence == |s.book.orders| + 1
    && o.intent.side == Sell && o.intent.kind.Market? && o.intent.quantity == s.book.portfolio.base
  }

  lemma {:induction false} LiquidationIsPosted(cfg: Config, b: Book, c: Candle, index: nat)
    requires b.portfolio.base > 0.0 && LiquidateBook(cfg, b, c, index).Ok?
    ensures var order := LiquidationOrder(b.portfolio, |b.orders| + 1, c, index);
      var fill := LiquidationFill(cfg, order, c, index, |b.fills| + 1);
      fill.Ok? && FillPosted(LiquidateBook(cfg, b, c, index).value.ledger, fill.value)
  {
    hide ApplyFill, RecordFill, MarkToMarket, Reconcile, LiquidationFill, PostsFill, PostsFee, PostsProfit;
    var order := LiquidationOrder(b.portfolio, |b.orders| + 1, c, index);
    var f := LiquidationFill(cfg, order, c, index, |b.fills| + 1).value;
    var m := ApplyFill(b.portfolio, f).value;
    FillsArePosted(b.ledger, f, m);
    var r := RecordFill(b.ledger, f, m).value;
    assert PostsFill(r[|b.ledger|].event, f);
    if f.fee != 0.0 { assert PostsFee(r[|b.ledger| + 1].event, f); }
  }

  /** The last posting is the final state at the last close, after all the others. */
  predicate EndsFinal(b: Books, c: Candle, index: int) {
    b != [] && PostsMark(b[|b| - 1].event, c.close, c.closeTime, index, true)
  }

  lemma {:induction false} FinalStateIsPosted(env: Env, s: State, cancelAtEnd: bool)
    requires Conclude(env, s, cancelAtEnd).Ok? && s.lastCandle.Some?
    requires s.book.portfolio.lastMark == Some(s.lastCandle.value.close)
    ensures s.processed > 0
    ensures EndsFinal(Conclude(env, s, cancelAtEnd).value.book.ledger, s.lastCandle.value, s.processed - 1)
  {
    hide LiquidateBook, CallStrategy, View, PostsMark, RecordMark, WithinEventLimit;
    var c := s.lastCandle.value;
    var s1 := CancelRemaining(s, cancelAtEnd, c.closeTime);
    var s2 := ForceCloseIfAsked(env, s1, c).value;
    if ForcesClose(env, s1) { LiquidatedIsMarked(env.cfg, s1.book, c, s1.processed - 1); }
    MarksArePosted(s2.book.ledger, s2.book.portfolio, c.close, c.closeTime, s2.processed - 1, true);
    FinalLedger(env, s2, c);
  }

  lemma {:induction false} FinalLedger(env: Env, s: State, c: Candle)
    requires s.processed > 0 && FinalRecord(env, s, c).Ok?
    ensures RecordMark(s.book.ledger, s.book.portfolio, c.closeTime, s.processed - 1, true)
      == Ok(FinalRecord(env, s, c).value.book.ledger)
    ensures FinalRecord(env, s, c).value.book == s.book.(ledger := FinalRecord(env, s, c).value.book.ledger)
  {
    hide View, ValidContext, RecordMark;
  }

  lemma {:induction false} LiquidatedIsMarked(cfg: Config, b: Book, c: Candle, index: nat)
    requires b.portfolio.base > 0.0 && LiquidateBook(cfg, b, c, index).Ok?
    ensures LiquidateBook(cfg, b, c, index).value.portfolio.lastMark == Some(c.close)
  {
    hide ApplyFill, RecordFill, Reconcile, LiquidationFill, DrawdownPct, Portfolio.Valid;
  }

  lemma {:induction false} ForcedTablesHold(env: Env, s: State, cancelAtEnd: bool)
    requires ForcesClose(env, s) && Conclude(env, s, cancelAtEnd).Ok?
    ensures s.processed > 0 && s.lastCandle.Some? && ForcedFill(env, s).Ok?
    ensures ForcedTables(env, s, Conclude(env, s, cancelAtEnd).value, ForcedFill(env, s).value, s.lastCandle.value)
  {
    hide LiquidateBook, LiquidationFill, FinalRecord, FillPosted, LiquidationOrder;
    ForcedConclusion(env, s, cancelAtEnd);
    var c := s.lastCandle.value;
    var s1 := CancelRemaining(s, cancelAtEnd, c.closeTime);
    assert |s1.book.orders| == |s.book.orders|;
    LiquidationIsLast(env.cfg, s1.book, c, s.processed - 1);
    LiquidationIsPosted(env.cfg, s1.book, c, s.processed - 1);
    var s2 := ForceCloseIfAsked(env, s1, c).value;
    FinalLedger(env, s2, c);
    LedgerGrows(s2.book.ledger, s2.book.portfolio, c.closeTime, s2.processed - 1);
    FillStaysPosted(s2.book.ledger, Conclude(env, s, cancelAtEnd).value.book.ledger, ForcedFill(env, s).value);
  }

  lemma {:induction false} LedgerGrows(b: Books, p: Portfolio, t: int, index: int)
    requires RecordMark(b, p, t, index, true).Ok?
    ensures b <= RecordMark(b, p, t, index, true).value
  {}

  /** What a finished run publishes, over its evaluated candles. */
  ghost predicate TablesRecorded(cfg: Config, f: State, ks: seq<Candle>, submitted: nat) {
    && |ks| == f.processed > 0
    && AllRecorded(cfg, f.book.orders, f.book.fills, ks) && AllInLine(f.book.orders, f.book.fills)
    && submitted <= |f.book.orders|
    && (forall i :: 0 <= i < submitted ==> OrderPlaced(cfg, f.book.fills, ks, |ks|, f.book.orders[i]))
    && AllPosted(f.book.ledger, f.book.fills, ks, |ks|)
    && EndsFinal(f.book.ledger, ks[|ks| - 1], f.processed - 1)
  }

  lemma {:induction false} ForcedKeepsRecord(env: Env, s: State, f: State, cancelAtEnd: bool, fill: Fill,
                                             ks: seq<Candle>)
    requires Recorded(env.cfg, s.book, ks, |ks|) && |ks| == s.processed > 0 && s.lastCandle == Some(ks[|ks| - 1])
    requires ForcesClose(env, s) && Evolves(s.book.orders, f.book.orders) && s.book.ledger <= f.book.ledger
    requires ForcedTables(env, s, f, fill, ks[|ks| - 1]) && FinalInv(env, f, cancelAtEnd)
    requires ForcedFill(env, s) == Ok(fill)
    ensures AllRecorded(env.cfg, f.book.orders, f.book.fills, ks) && AllInLine(f.book.orders, f.book.fills)
    ensures forall i :: 0 <= i < |s.book.orders| ==> OrderPlaced(env.cfg, f.book.fills, ks, |ks|, f.book.orders[i])
    ensures AllPosted(f.book.ledger, f.book.fills, ks, |ks|)
  {
    hide Accounted, FillPriced, ClosePriced, FillPosted, OrderPlaced, ForcedFill, AllPosted, BookSound;
    ForcedIsPriced(env, s);
    FillsStayRecorded(env.cfg, s.book.orders, f.book.orders, s.book.fills, ks, ks);
    var fills, n := f.book.fills, |s.book.fills|;
    forall j | 0 <= j < |fills| ensures FillRecorded(env.cfg, f.book.orders, ks, fills[j]) {
      if j < n { assert FillRecorded(env.cfg, f.book.orders, ks, s.book.fills[j]); }
    }
    forall i | 0 <= i < n ensures InLine(f.book.orders, fills[i], fill) {
      assert FillRecorded(env.cfg, s.book.orders, ks, s.book.fills[i]);
      assert fills[i] == s.book.fills[i];
      EligibleByFill(env, f, cancelAtEnd, i);
    }
    forall i, j | 0 <= i < j < |fills| ensures InLine(f.book.orders, fills[i], fills[j]) {
      if j < n { assert InLine(f.book.orders, s.book.fills[i], s.book.fills[j]); }
    }
    var head := f.book.orders[..|s.book.orders|];
    OrdersStayPlaced(env.cfg, s.book.orders, head, s.book.fills, fills, ks, ks, |ks|, |ks|);
    forall i | 0 <= i < |s.book.orders| ensures OrderPlaced(env.cfg, fills, ks, |ks|, f.book.orders[i]) {
      assert head[i] == f.book.orders[i];
    }
    PostingsGrow(s.book.ledger, f.book.ledger, s.book.fills, fill, ks, |ks|);
  }

  lemma {:induction false} EligibleByFill(env: Env, f: State, cancelAtEnd: bool, i: nat)
    requires FinalInv(env, f, cancelAtEnd) && i < |f.book.fills|
    ensures var x := f.book.fills[i];
      && 1 <= x.orderId <= |f.book.orders|
      && var o := f.book.orders[x.orderId - 1]; o.eligibleIndex <= x.candleIndex && o.sequence == x.orderId
  {
    assert FillOk(env.cfg, f.book.orders, f.book.fills, i);
    var id := f.book.fills[i].orderId;
    assert OrderShape(env.cfg, f.book.orders[id - 1], id - 1, f.processed - 1);
  }

  lemma {:induction false} LastEvaluated(env: Env, cs: seq<Candle>)
    requires StateAfter(env, cs).Ok? && StateAfter(env, cs).value.processed > 0
    ensures var ks := EvaluatedCandles(env, cs);
      cs != [] && ks != [] && ks[|ks| - 1] == cs[|cs| - 1]
      && StateAfter(env, cs).value.lastCandle == Some(cs[|cs| - 1])
      && StateAfter(env, cs).value.book.portfolio.lastMark == Some(cs[|cs| - 1].close)
  {
    hide StepCandle, RunInv;
    if cs == [] {
      StartIsRecorded(env);
    } else {
      var c := cs[|cs| - 1];
      var s := StateAfter(env, cs[..|cs| - 1]).value;
      EveryStateIsSound(env, cs);
      EveryStateIsRecorded(env, cs);
      StepCounts(env, s, c);
      LateCandleIsEvaluated(env, StateAfter(env, cs).value);
      StepMarks(env, s, c);
    }
  }

  lemma {:induction false} LateCandleIsEvaluated(env: Env, s: State)
    requires RunInv(env, s) && s.processed > 0
    ensures s.lastCandle.Some? && env.cfg.evaluationStart <= s.lastCandle.value.openTime
  {}

  lemma {:induction false} StepMarks(env: Env, s: State, c: Candle)
    requires StepCandle(env, s, c).Ok? && env.cfg.evaluationStart <= c.openTime
    ensures StepCandle(env, s, c).value.book.portfolio.lastMark == Some(c.close)
  {
    hide TradeCandle, CloseCandle, EngineSpec.SubmitIntents, CallStrategy, View, Push, Observe, CheckCandle, Marked;
    var observed := ObserveRegime(env, s.accumulator, c).value;
    var s1 := Admitted(s, c, observed.accumulator);
    var s2 := TradeCandle(env, s1, c).value;
    CloseMarks(env, s2, c);
    MarkedIsValued(s2.book.portfolio, c.close);
    var s3 := CloseCandle(env, s2, c).value;
    FinishKeepsMoney(env, s3, c, observed.point);
  }

  lemma {:induction false} FinishKeepsMoney(env: Env, s: State, c: Candle, regime: Option<RegimePoint>)
    requires FinishCandle(env, s, c, regime).Ok?
    ensures FinishCandle(env, s, c, regime).value.book.portfolio == s.book.portfolio
  {
    hide View, Push, Submit;
  }

  /** Everything a finished run publishes is recorded: each fill is priced and charged by its order and
      candle, a forced close at the close; the fills of a candle follow the priority of their orders;
      every order that opened met every check on what the fills before it had left, at the price of its
      moment; and the ledger posts each fill and its fee, each close and at last the final state. */
  lemma {:induction false} RunsAreRecorded(env: Env, candles: seq<Candle>, cancelAtEnd: bool)
    requires Run(env, candles, cancelAtEnd).Ok?
    ensures StateAfter(env, Visited(env, candles)).Ok?
    ensures TablesRecorded(env.cfg, Run(env, candles, cancelAtEnd).value, EvaluatedCandles(env, Visited(env, candles)),
                           |StateAfter(env, Visited(env, candles)).value.book.orders|)
  {
    hide StateAfter, Visited, Conclude, RunInv, AllRecorded, AllInLine, AllPosted, OrderPlaced, EndsFinal, Accounted,
      FinalInv, Evolves, ForcedFill, EvaluatedCandles;
    var cs := Visited(env, candles);
    var s, f := StateAfter(env, cs).value, Run(env, candles, cancelAtEnd).value;
    var ks := EvaluatedCandles(env, cs);
    EveryStateIsSound(env, cs);
    EveryStateIsRecorded(env, cs);
    RunsNeverAccuseTheirBooks(env, candles, cancelAtEnd);
    ConcludedSomething(env, s, cancelAtEnd);
    LastEvaluated(env, cs);
    FinalStateIsPosted(env, s, cancelAtEnd);
    if ForcesClose(env, s) {
      ForcedTablesHold(env, s, cancelAtEnd);
      ForcedKeepsRecord(env, s, f, cancelAtEnd, ForcedFill(env, s).value, ks);
      EvolvedLength(s.book.orders, f.book.orders);
    } else {
      ConclusionKeepsCurve(env, s, cancelAtEnd);
      UnforcedKeepsRecord(env.cfg, s.book, f.book, ks);
    }
  }

  lemma {:induction false} EvolvedLength(a: seq<Order>, b: seq<Order>)
    requires Evolves(a, b)
    ensures |a| <= |b|
  {}

  lemma {:induction false} ConcludedSomething(env: Env, s: State, cancelAtEnd: bool)
    requires Conclude(env, s, cancelAtEnd).Ok?
    ensures s.processed > 0
  {}

  lemma {:induction false} UnforcedKeepsRecord(cfg: Config, a: Book, b: Book, ks: seq<Candle>)
    requires Recorded(cfg, a, ks, |ks|) && Evolves(a.orders, b.orders) && b.fills == a.fills && a.ledger <= b.ledger
    ensures AllRecorded(cfg, b.orders, b.fills, ks) && AllInLine(b.orders, b.fills) && |a.orders| <= |b.orders|
    ensures forall i :: 0 <= i < |a.orders| ==> OrderPlaced(cfg, b.fills, ks, |ks|, b.orders[i])
    ensures AllPosted(b.ledger, b.fills, ks, |ks|)
  {
    hide Accounted, AllRecorded, AllInLine, AllPosted, OrderPlaced;
    FillsStayRecorded(cfg, a.orders, b.orders, a.fills, ks, ks);
    var head := b.orders[..|a.orders|];
    OrdersStayPlaced(cfg, a.orders, head, a.fills, a.fills, ks, ks, |ks|, |ks|);
    forall i | 0 <= i < |a.orders| ensures OrderPlaced(cfg, b.fills, ks, |ks|, b.orders[i]) {
      assert head[i] == b.orders[i];
    }
    PostingsStay(a.ledger, b.ledger, a.fills, ks, ks, |ks|);
  }
}
