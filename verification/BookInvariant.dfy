/** The invariant of the money and the orders, and what one fill does to it. */
module BookInvariant {
  import opened Domain
  import opened RealArithmetic
  import opened Accounting
  import opened Execution
  import opened Risk
  import opened Ledger
  import opened EngineSpec
  import opened OrderTable

  function CashFloor(cfg: Config): real { Min(cfg.capital, cfg.Reserve()) }

  predicate PortfolioInv(cfg: Config, p: Portfolio, fills: seq<Fill>) {
    && Sound(p) && p.initial == cfg.capital
    && OnGrid(p.base, cfg.constraints.step)
    && p.base == Held(fills)
    && CashFloor(cfg) <= p.cash
  }

  predicate ExposureBounded(cfg: Config, f: Fill, held: real) {
    f.side == Buy ==> !Exceeds(Notional(held, f.price), cfg.limits.maxPositionNotional)
  }

  /** The notional limits every fill is checked against, engine stops and liquidations aside. */
  predicate WithinLimits(cfg: Config, notional: real) {
    && cfg.constraints.minimumNotional <= notional
    && !Exceeds(notional, cfg.constraints.maximumNotional) && !Exceeds(notional, cfg.limits.maxOrderNotional)
  }

  /** Fill `j` belongs to one FILLED order of equal side and quantity, is not early, keeps the
      exposure bound, and, when it is an engine stop, opens its candle and flattens the position. */
  predicate FillOk(cfg: Config, orders: seq<Order>, fills: seq<Fill>, j: nat)
    requires j < |fills|
  {
    var f := fills[j];
    && f.fillId == j + 1
    && 1 <= f.orderId <= |orders|
    && var o := orders[f.orderId - 1];
    && o.status == Filled && o.terminalAt == Some(f.time)
    && f.side == o.intent.side && f.quantity == o.intent.quantity
    && o.createdIndex + 1 == o.eligibleIndex <= f.candleIndex && OnItsDay(o, f.time)
    && f.notional == Notional(f.quantity, f.price)
    && (j > 0 ==> fills[j - 1].candleIndex <= f.candleIndex)
    && ExposureBounded(cfg, f, Held(fills[..j + 1]))
    && (IsStop(o) || f.reason == ForceClose || WithinLimits(cfg, f.notional))
    && (IsStop(o) ==> (j > 0 ==> fills[j - 1].candleIndex < f.candleIndex) && Held(fills[..j + 1]) == 0.0)
  }

  predicate FillsOk(cfg: Config, orders: seq<Order>, fills: seq<Fill>) {
    forall j: nat :: j < |fills| ==> FillOk(cfg, orders, fills, j)
  }

  predicate OneFillPerOrder(fills: seq<Fill>) {
    forall i, j :: 0 <= i < j < |fills| ==> fills[i].orderId != fills[j].orderId
  }

  predicate HasFill(fills: seq<Fill>, id: nat) { exists j :: 0 <= j < |fills| && fills[j].orderId == id }

  predicate FilledHaveFills(orders: seq<Order>, fills: seq<Fill>) {
    forall i: nat :: i < |orders| && orders[i].status == Filled ==> HasFill(fills, i + 1)
  }

  predicate NoneAfter(fills: seq<Fill>, index: int) {
    forall j :: 0 <= j < |fills| ==> fills[j].candleIndex <= index
  }

  /** The fills and the FILLED orders are one-to-one, up to candle `index`. */
  predicate FillsMatch(cfg: Config, orders: seq<Order>, fills: seq<Fill>, index: int) {
    && FillsOk(cfg, orders, fills) && OneFillPerOrder(fills)
    && FilledHaveFills(orders, fills) && NoneAfter(fills, index)
  }

  /** Everything but the stop's presence; what holds through the end of a run. */
  predicate BookSound(cfg: Config, b: Book, index: int) {
    && PortfolioInv(cfg, b.portfolio, b.fills)
    && Records(b.ledger, b.portfolio) && Floored(b.ledger, CashFloor(cfg))
    && OrdersShaped(cfg, b.orders, index) && OpenBounded(cfg, b.orders)
    && FillsMatch(cfg, b.orders, b.fills, index)
  }

  predicate BookInv(cfg: Config, b: Book, index: int) {
    BookSound(cfg, b, index) && Protected(cfg, b.orders, b.portfolio)
  }

  /** The fill an execution quote makes of an order. */
  predicate FillFor(cfg: Config, o: Order, f: Fill, sequence: nat, index: nat) {
    && f.fillId == sequence && f.orderId == o.id && f.candleIndex == index
    && f.side == o.intent.side && f.quantity == o.intent.quantity
    && f.notional == Notional(f.quantity, f.price)
    && f.fee <= f.notional
  }

  lemma {:induction false} MakeFillFor(cfg: Config, o: Order, q: Quote, t: int, index: nat, sequence: nat)
    ensures MakeFill(cfg, o, q, t, index, sequence).Ok? ==>
      var f := MakeFill(cfg, o, q, t, index, sequence).value;
      && FillFor(cfg, o, f, sequence, index) && f.time == t
      && f.price == q.price && f.basePrice == q.basePrice && f.reason == q.reason
      && f.fee == f.notional * cfg.fees.Rate(q.liquidity)
    ensures MakeFill(cfg, o, q, t, index, sequence).Err? ==>
      MakeFill(cfg, o, q, t, index, sequence).error == InvalidExecutionPrice
  {
    RatesBounded(cfg, q.liquidity);
    var notional := o.intent.quantity * q.price;
    if notional > 0.0 { ProductMonotone(cfg.fees.Rate(q.liquidity), 1.0, notional); }
  }

  lemma {:induction false} HeldSnoc(fills: seq<Fill>, f: Fill)
    ensures Held(fills + [f]) == Held(fills) + (if f.side == Buy then f.quantity else -(f.quantity as real))
  {
    assert (fills + [f])[..|fills|] == fills;
  }

  /** Fills stay matched while the order table evolves without new FILLED orders. */
  lemma {:induction false} EvolvingKeepsMatch(cfg: Config, a: seq<Order>, b: seq<Order>, fills: seq<Fill>, index: int)
    requires FillsMatch(cfg, a, fills, index) && Evolves(a, b) && NoNewFills(a, b)
    ensures FillsMatch(cfg, b, fills, index)
  {
    forall j: nat | j < |fills| ensures FillOk(cfg, b, fills, j) {
      assert FillOk(cfg, a, fills, j);
      assert OrderEvolves(a[fills[j].orderId - 1], b[fills[j].orderId - 1]);
    }
  }

  /** One more fill, for an order that has just become FILLED. */
  lemma {:induction false} FillingKeepsMatch(cfg: Config, a: seq<Order>, b: seq<Order>, position: nat, fills: seq<Fill>,
                                             f: Fill, index: nat)
    requires FillsMatch(cfg, a, fills, index) && Evolves(a, b)
    requires position < |a| && a[position].status == Open && f.orderId == position + 1 && f.candleIndex == index
    requires FillOk(cfg, b, fills + [f], |fills|)
    requires forall i :: 0 <= i < |b| && b[i].status == Filled ==> i < |a| && (i == position || a[i].status == Filled)
    ensures FillsMatch(cfg, b, fills + [f], index)
  {
    hide FillOk, Evolves, HasFill;
    FillsStayOk(cfg, a, b, fills, f);
    OrdersStayFresh(cfg, a, position, fills, f);
    FilledStayCovered(a, b, position, fills, f);
  }

  lemma {:induction false} FillsStayOk(cfg: Config, a: seq<Order>, b: seq<Order>, fills: seq<Fill>, f: Fill)
    requires FillsOk(cfg, a, fills) && Evolves(a, b) && FillOk(cfg, b, fills + [f], |fills|)
    ensures FillsOk(cfg, b, fills + [f])
  {
    hide FillOk, Evolves;
    forall j: nat | j < |fills| ensures FillOk(cfg, b, fills + [f], j) { EarlierFillStays(cfg, a, b, fills, f, j); }
  }

  lemma {:induction false} OrdersStayFresh(cfg: Config, a: seq<Order>, position: nat, fills: seq<Fill>, f: Fill)
    requires FillsOk(cfg, a, fills) && position < |a| && a[position].status == Open && f.orderId == position + 1
    ensures forall j :: 0 <= j < |fills| ==> fills[j].orderId != f.orderId
  {
    hide Held, Exceeds;
    forall j: nat | j < |fills| ensures fills[j].orderId != f.orderId { assert FillOk(cfg, a, fills, j); }
  }

  lemma {:induction false} EarlierFillStays(cfg: Config, a: seq<Order>, b: seq<Order>, fills: seq<Fill>, f: Fill,
                                            j: nat)
    requires j < |fills| && FillOk(cfg, a, fills, j) && Evolves(a, b)
    ensures FillOk(cfg, b, fills + [f], j)
  {
    assert (fills + [f])[..j + 1] == fills[..j + 1];
    assert OrderEvolves(a[fills[j].orderId - 1], b[fills[j].orderId - 1]);
  }

  lemma {:induction false} FilledStayCovered(a: seq<Order>, b: seq<Order>, position: nat, fills: seq<Fill>, f: Fill)
    requires FilledHaveFills(a, fills) && position < |a| && f.orderId == position + 1
    requires forall i :: 0 <= i < |b| && b[i].status == Filled ==> i < |a| && (i == position || a[i].status == Filled)
    ensures FilledHaveFills(b, fills + [f])
  {
    var more := fills + [f];
    forall i: nat | i < |b| && b[i].status == Filled ensures HasFill(more, i + 1) {
      if i == position {
        assert more[|fills|].orderId == i + 1;
      } else {
        var j :| 0 <= j < |fills| && fills[j].orderId == i + 1;
        assert more[j].orderId == i + 1;
      }
    }
  }

  /** A fill that passed its checks: either the risk check, or it is the engine's own stop. */
  predicate Cleared(cfg: Config, b: Book, o: Order, f: Fill) {
    OnItsDay(o, f.time) &&
    if IsStop(o) then f.side == Sell && f.quantity == b.portfolio.base else ValidateFill(cfg, f, b.portfolio).None?
  }

  /** A cleared fill is affordable, keeps the grid and the cash floor, and bounds the exposure. */
  lemma {:induction false} ClearedFillIsSound(cfg: Config, b: Book, o: Order, f: Fill, sequence: nat, index: nat)
    requires PortfolioInv(cfg, b.portfolio, b.fills) && Cleared(cfg, b, o, f)
    requires FillFor(cfg, o, f, sequence, index) && OnGrid(f.quantity, cfg.constraints.step)
    ensures ApplyFill(b.portfolio, f).Ok?
    ensures var p := ApplyFill(b.portfolio, f).value.after;
      && PortfolioInv(cfg, p, b.fills + [f])
      && ExposureBounded(cfg, f, Held(b.fills + [f]))
      && (IsStop(o) ==> p.base == 0.0)
  {
    var p := b.portfolio;
    assert Affordable(p, f);
    ApplyFillAccepts(p, f);
    HeldSnoc(b.fills, f);
    GridClosed(p.base, f.quantity, cfg.constraints.step);
    if f.side == Buy { ClearedBuyBounds(cfg, p, f); }
  }

  lemma {:induction false} ClearedBuyBounds(cfg: Config, p: Portfolio, f: Fill)
    requires f.side == Buy && ValidateFill(cfg, f, p).None?
    ensures p.cash - f.notional - f.fee >= cfg.Reserve()
    ensures !Exceeds(Notional(p.base + f.quantity, f.price), cfg.limits.maxPositionNotional)
  {
    assert Exposure(p, f.quantity, f.price) == Notional(p.base + f.quantity, f.price);
  }

  /** What a fill at `position` does to the order table: that order is FILLED, engine stops may be
      replaced, and every other order is untouched. */
  predicate FillEffect(a: seq<Order>, b: seq<Order>, position: nat, t: int, index: int)
    requires position < |a|
  {
    && Evolves(a, b)
    && b[position] == a[position].(status := Filled, terminalAt := Some(t))
    && (forall i :: 0 <= i < |b| && b[i].status == Filled ==> i < |a| && (i == position || a[i].status == Filled))
    && (forall i :: 0 <= i < |a| && i != position && !IsStop(a[i]) ==> b[i] == a[i])
    && (forall i :: |a| <= i < |b| ==> IsStop(b[i]) && b[i].createdIndex == index)
    && (OnlyStopsOpen(a) ==> OnlyStopsOpen(b))
  }

  lemma {:induction false} FillTable(cfg: Config, orders: seq<Order>, position: nat, p: Portfolio, t: int, index: int)
    requires OrdersShaped(cfg, orders, index) && OpenBounded(cfg, orders) && -1 <= index
    requires Sound(p) && OnGrid(p.base, cfg.constraints.step)
    requires position < |orders| && orders[position].status == Open
    ensures Transition(orders[position], Filled, t, None).Ok?
    ensures
      var filled := orders[position := Transition(orders[position], Filled, t, None).value];
      var r := Reconcile(cfg, p, filled, t, index);
      && (r.Ok? ==>
            && OrdersShaped(cfg, r.value, index) && OpenBounded(cfg, r.value)
            && Protected(cfg, r.value, p) && FillEffect(orders, r.value, position, t, index))
      && (r.Err? ==> !r.error.AccusesOwnBooks())
  {
    CloseKeepsTable(cfg, orders, position, Filled, t, index);
    var filled := orders[position := Transition(orders[position], Filled, t, None).value];
    ReconcileProtects(cfg, p, filled, t, index);
    var r := Reconcile(cfg, p, filled, t, index);
    if r.Ok? {
      EvolvesTransitive(orders, filled, r.value);
      assert OrderEvolves(filled[position], r.value[position]);
    }
  }

  lemma {:induction false} LedgerKeepsFloor(cfg: Config, b: Book, f: Fill)
    requires PortfolioInv(cfg, b.portfolio, b.fills) && Records(b.ledger, b.portfolio)
      && Floored(b.ledger, CashFloor(cfg))
    requires ApplyFill(b.portfolio, f).Ok? && PortfolioInv(cfg, ApplyFill(b.portfolio, f).value.after, b.fills + [f])
    ensures RecordFill(b.ledger, f, ApplyFill(b.portfolio, f).value).Ok?
    ensures Floored(RecordFill(b.ledger, f, ApplyFill(b.portfolio, f).value).value, CashFloor(cfg))
  {
    hide ApplyFill, RecordFill, Floored;
    ApplyFillAccepts(b.portfolio, f);
    RecordFillAgrees(b.ledger, b.portfolio, f);
    RecordFillFloored(b.ledger, f, ApplyFill(b.portfolio, f).value, b.portfolio.cash, CashFloor(cfg));
  }

  /** Taking a cleared fill never fails on the books and keeps the whole invariant. */
  lemma {:induction false} TakeFillKeepsInvariant(cfg: Config, b: Book, position: nat, f: Fill, index: nat)
    requires BookInv(cfg, b, index)
    requires position < |b.orders| && b.orders[position].status == Open && b.orders[position].eligibleIndex <= index
    requires FillFor(cfg, b.orders[position], f, |b.fills| + 1, index) && Cleared(cfg, b, b.orders[position], f)
    requires IsStop(b.orders[position]) ==> NoneAfter(b.fills, index - 1)
    ensures TakeFill(cfg, b, position, f, index).Ok? ==>
      var r := TakeFill(cfg, b, position, f, index).value;
      && BookInv(cfg, r, index)
      && FillEffect(b.orders, r.orders, position, f.time, index)
      && r.fills == b.fills + [f] && b.ledger <= r.ledger
      && r.portfolio == ApplyFill(b.portfolio, f).value.after
      && (IsStop(b.orders[position]) ==> r.portfolio.base == 0.0 && f.side == Sell && f.quantity == b.portfolio.base)
    ensures TakeFill(cfg, b, position, f, index).Err? ==> !TakeFill(cfg, b, position, f, index).error.AccusesOwnBooks()
  {
    var o := b.orders[position];
    ClearedFillIsSound(cfg, b, o, f, |b.fills| + 1, index);
    var m := ApplyFill(b.portfolio, f).value;
    RecordFillAgrees(b.ledger, b.portfolio, f);
    LedgerKeepsFloor(cfg, b, f);
    FillTable(cfg, b.orders, position, m.after, f.time, index);
    var filled := b.orders[position := Transition(o, Filled, f.time, None).value];
    var r := Reconcile(cfg, m.after, filled, f.time, index);
    if r.Ok? {
      NewFillMatches(cfg, b.orders, r.value, position, b.fills, f, index);
    }
  }

  lemma {:induction false} NewFillMatches(cfg: Config, a: seq<Order>, b: seq<Order>, position: nat, fills: seq<Fill>,
                                          f: Fill, index: nat)
    requires position < |a| && a[position].status == Open && FillEffect(a, b, position, f.time, index)
    requires FillsMatch(cfg, a, fills, index)
    requires OrderShape(cfg, a[position], position, index) && a[position].eligibleIndex <= index
    requires FillFor(cfg, a[position], f, |fills| + 1, index)
    requires ExposureBounded(cfg, f, Held(fills + [f]))
    requires OnItsDay(a[position], f.time)
    requires IsStop(a[position]) || f.reason == ForceClose || WithinLimits(cfg, f.notional)
    requires IsStop(a[position]) ==> NoneAfter(fills, index - 1) && Held(fills + [f]) == 0.0
    ensures FillsMatch(cfg, b, fills + [f], index)
  {
    assert (fills + [f])[..|fills| + 1] == fills + [f];
    assert FillOk(cfg, b, fills + [f], |fills|);
    FillingKeepsMatch(cfg, a, b, position, fills, f, index);
  }
}
