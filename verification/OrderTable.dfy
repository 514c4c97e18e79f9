/** What every sweep, submission and reconciliation keeps of the order table. */
module OrderTable {
  import opened Domain
  import opened Accounting
  import opened Execution
  import opened Risk
  import opened EngineSpec

  predicate Terminal(s: Status) { s == Filled || s == Cancelled || s == Rejected || s == Expired }

  /** What the risk manager asks of an order before it opens, whatever its price. */
  predicate Placeable(cfg: Config, i: Intent) {
    cfg.constraints.minimumQuantity <= i.quantity && AlignedTrigger(cfg, i)
  }

  /** The order at position `i`, created no later than candle `index`. */
  predicate OrderShape(cfg: Config, o: Order, i: nat, index: int) {
    && o.sequence == i + 1 && o.id == i + 1
    && -1 <= o.createdIndex <= index && o.eligibleIndex == o.createdIndex + 1
    && (o.status == Open ==> o.openedAt.Some? && o.terminalAt.None? && o.rejection.None?)
    && (o.status == Open ==> OnGrid(o.intent.quantity, cfg.constraints.step))
    && (o.status == Open && !IsStop(o) ==> Placeable(cfg, o.intent))
    && (o.status != Open ==> Terminal(o.status) && o.terminalAt.Some?)
    && (o.status == Rejected <==> o.rejection.Some?)
    && (IsStop(o) ==>
          && cfg.limits.stop.FixedPercent?
          && o.intent.side == Sell && o.intent.kind.StopMarket? && o.intent.tif == GTC)
  }

  predicate OrdersShaped(cfg: Config, orders: seq<Order>, index: int) {
    forall i: nat :: i < |orders| ==> OrderShape(cfg, orders[i], i, index)
  }

  predicate OpenBounded(cfg: Config, orders: seq<Order>) { OpenCount(orders) <= cfg.limits.maxOpenOrders }

  /** An order keeps its identity and its intent, and a terminal order never changes. */
  predicate OrderEvolves(x: Order, y: Order) {
    || x == y
    || (&& x.status == Open && Terminal(y.status)
        && y == x.(status := y.status, terminalAt := y.terminalAt, rejection := y.rejection))
  }

  predicate Evolves(a: seq<Order>, b: seq<Order>) {
    |a| <= |b| && forall i :: 0 <= i < |a| ==> OrderEvolves(a[i], b[i])
  }

  lemma {:induction false} EvolvesTransitive(a: seq<Order>, b: seq<Order>, c: seq<Order>)
    requires Evolves(a, b) && Evolves(b, c)
    ensures Evolves(a, c)
  {
    forall i | 0 <= i < |a| ensures OrderEvolves(a[i], c[i]) {
      assert OrderEvolves(b[i], c[i]);
    }
  }

  /** No order became FILLED. */
  predicate NoNewFills(a: seq<Order>, b: seq<Order>) {
    forall i :: 0 <= i < |b| && b[i].status == Filled ==> i < |a| && a[i].status == Filled
  }

  /** Orders that are not engine stops were not touched. */
  predicate KeepsOthers(a: seq<Order>, b: seq<Order>) {
    |a| <= |b| && forall i :: 0 <= i < |a| && !IsStop(a[i]) ==> b[i] == a[i]
  }

  predicate OnlyStopsOpen(orders: seq<Order>) {
    forall i :: 0 <= i < |orders| && orders[i].status == Open ==> IsStop(orders[i])
  }

  /** The stop that fits the position: its whole quantity, at the tick floor below the average. */
  predicate FitsPosition(cfg: Config, o: Order, p: Portfolio)
    requires cfg.limits.stop.FixedPercent?
  {
    && o.intent.side == Sell && o.intent.quantity == p.base
    && o.intent.kind.StopMarket? && o.intent.kind.stop == StopPrice(cfg, p.average)
  }

  predicate AtMostOneStop(orders: seq<Order>) {
    forall i, j :: 0 <= i < |orders| && 0 <= j < |orders| && OpenStop(orders[i]) && OpenStop(orders[j]) ==> i == j
  }

  predicate StopsFit(cfg: Config, orders: seq<Order>, p: Portfolio) {
    forall i :: 0 <= i < |orders| && OpenStop(orders[i]) ==>
      cfg.limits.stop.FixedPercent? && p.base > 0.0 && FitsPosition(cfg, orders[i], p)
  }

  predicate HasStop(orders: seq<Order>) { exists i :: 0 <= i < |orders| && OpenStop(orders[i]) }

  /** Exactly one OPEN engine stop, fitting the position, when there is one; none when flat. */
  predicate Protected(cfg: Config, orders: seq<Order>, p: Portfolio) {
    && AtMostOneStop(orders)
    && StopsFit(cfg, orders, p)
    && (cfg.limits.stop.FixedPercent? && p.base > 0.0 ==> HasStop(orders))
  }

  // Counting OPEN orders

  lemma {:induction false} OpenCountSnoc(orders: seq<Order>, o: Order)
    ensures OpenCount(orders + [o]) == OpenCount(orders) + (if o.status == Open then 1 else 0)
  {
    assert (orders + [o])[..|orders|] == orders;
  }

  /** The count is the number of OPEN orders, the engine's stop included. */
  lemma {:induction false} OpenCountCounts(orders: seq<Order>)
    ensures OpenCount(orders) == |set i: nat | i < |orders| && orders[i].status == Open|
  {
    if orders != [] {
      var n := |orders| - 1;
      OpenCountCounts(orders[..n]);
      var before := set i: nat | i < n && orders[..n][i].status == Open;
      var all := set i: nat | i < |orders| && orders[i].status == Open;
      assert all == before + (if orders[n].status == Open then {n} else {});
    }
  }

  lemma {:induction false} OpenCountUpdate(orders: seq<Order>, i: nat, o: Order)
    requires i < |orders| && o.status != Open
    ensures OpenCount(orders[i := o]) <= OpenCount(orders)
  {
    var n := |orders| - 1;
    if i < n {
      OpenCountUpdate(orders[..n], i, o);
      assert orders[i := o][..n] == orders[..n][i := o];
    } else {
      assert orders[i := o][..n] == orders[..n];
    }
  }

  lemma {:induction false} OpenCountSwept(orders: seq<Order>, sweep: Sweep, t: int)
    ensures OpenCount(CancelSwept(orders, sweep, t)) <= OpenCount(orders)
  {
    if orders != [] {
      var rest := orders[..|orders| - 1];
      OpenCountSwept(rest, sweep, t);
      assert CancelSwept(orders, sweep, t)[..|orders| - 1] == CancelSwept(rest, sweep, t);
    }
  }

  /** A sweep closes exactly the OPEN orders it names, legally, and changes nothing else. */
  lemma {:induction false} SweepKeepsTable(cfg: Config, orders: seq<Order>, sweep: Sweep, t: int, index: int)
    requires OrdersShaped(cfg, orders, index) && OpenBounded(cfg, orders)
    ensures var swept := CancelSwept(orders, sweep, t);
      && |swept| == |orders|
      && OrdersShaped(cfg, swept, index) && OpenBounded(cfg, swept)
      && Evolves(orders, swept) && NoNewFills(orders, swept)
      && (forall i :: 0 <= i < |orders| ==>
            if sweep.Hits(orders[i]) then Transition(orders[i], Cancelled, t, None) == Ok(swept[i])
            else swept[i] == orders[i])
  {
    OpenCountSwept(orders, sweep, t);
  }

  /** Closing one OPEN order as expired, cancelled or filled. */
  lemma {:induction false} CloseKeepsTable(cfg: Config, orders: seq<Order>, i: nat, to: Status, t: int, index: int)
    requires OrdersShaped(cfg, orders, index) && OpenBounded(cfg, orders)
    requires i < |orders| && orders[i].status == Open && (to == Filled || to == Cancelled || to == Expired)
    ensures Transition(orders[i], to, t, None).Ok?
    ensures var closed := orders[i := Transition(orders[i], to, t, None).value];
      && OrdersShaped(cfg, closed, index) && OpenBounded(cfg, closed) && Evolves(orders, closed)
      && closed[i] == orders[i].(status := to, terminalAt := Some(t))
  {
    OpenCountUpdate(orders, i, Transition(orders[i], to, t, None).value);
  }

  lemma {:induction false} AppendKeepsTable(cfg: Config, orders: seq<Order>, o: Order, index: int)
    requires OrdersShaped(cfg, orders, index) && OpenBounded(cfg, orders)
    requires OrderShape(cfg, o, |orders|, index)
    requires o.status == Open ==> OpenCount(orders) < cfg.limits.maxOpenOrders
    ensures OrdersShaped(cfg, orders + [o], index) && OpenBounded(cfg, orders + [o])
    ensures Evolves(orders, orders + [o])
  {
    OpenCountSnoc(orders, o);
    assert forall i :: 0 <= i < |orders| ==> (orders + [o])[i] == orders[i];
  }

  /** Reconciliation leaves exactly the protection the position needs and touches no other order. */
  lemma {:induction false} ReconcileProtects(cfg: Config, p: Portfolio, orders: seq<Order>, t: int, index: int)
    requires OrdersShaped(cfg, orders, index) && OpenBounded(cfg, orders) && -1 <= index
    requires Sound(p) && OnGrid(p.base, cfg.constraints.step)
    ensures Reconcile(cfg, p, orders, t, index).Ok? ==>
      var r := Reconcile(cfg, p, orders, t, index).value;
      && OrdersShaped(cfg, r, index) && OpenBounded(cfg, r)
      && Evolves(orders, r) && NoNewFills(orders, r) && KeepsOthers(orders, r)
      && Protected(cfg, r, p)
      && (OnlyStopsOpen(orders) ==> OnlyStopsOpen(r))
      && (forall i :: |orders| <= i < |r| ==> IsStop(r[i]) && r[i].createdIndex == index)
      && (|r| > |orders| ==> |r| == |orders| + 1 <= cfg.limits.maxTotalOrders)
    ensures Reconcile(cfg, p, orders, t, index).Err? ==>
      !Reconcile(cfg, p, orders, t, index).error.AccusesOwnBooks()
  {
    hide Truncate, StopPrice, OnGrid, Portfolio.Valid, OpenCount;
    var cleared := CancelSwept(orders, OnlyStops, t);
    SweepKeepsTable(cfg, orders, OnlyStops, t, index);
    assert forall i :: 0 <= i < |cleared| ==> !OpenStop(cleared[i]);
    var r := Reconcile(cfg, p, orders, t, index);
    if r.Ok? && r.value != cleared {
      var stop := r.value[|cleared|];
      assert stop == StopOrder(p.base, StopPrice(cfg, p.average), |cleared| + 1, t, index);
      AppendKeepsTable(cfg, cleared, stop, index);
      EvolvesTransitive(orders, cleared, r.value);
      assert OpenStop(r.value[|cleared|]);
    }
  }

  /** The order an intent becomes: OPEN and within every bound, or REJECTED; never a stop. */
  lemma {:induction false} DecideShapes(cfg: Config, p: Portfolio, orders: seq<Order>, i: Intent, index: int, t: int,
                                        reference: real, halt: bool)
    requires OrdersShaped(cfg, orders, index) && -1 <= index && i.tag != StopLossTag
    ensures Decide(cfg, p, orders, i, index, t, reference, halt).Ok? ==>
      var o := Decide(cfg, p, orders, i, index, t, reference, halt).value;
      && OrderShape(cfg, o, |orders|, index) && !IsStop(o)
      && o.createdIndex == index && o.status != Filled
      && (o.status == Open ==>
            !halt && OpenCount(orders) < cfg.limits.maxOpenOrders && |orders| < cfg.limits.maxTotalOrders)
    ensures Decide(cfg, p, orders, i, index, t, reference, halt).Err? ==>
      Decide(cfg, p, orders, i, index, t, reference, halt).error == InvalidReferencePrice
  {
    TruncateRoundsDown(i.quantity, cfg.constraints.step);
    var sizing := Size(cfg, i, p, reference);
    if sizing.Ok? && sizing.value.quantity > 0.0 {
      TruncateRoundsDown(sizing.value.quantity, cfg.constraints.step);
    }
  }

  /** Submitting intents appends orders and touches none that exist. */
  lemma {:induction false} SubmitKeepsTable(cfg: Config, p: Portfolio, orders: seq<Order>, intents: seq<Intent>,
                                            index: int, t: int, reference: real, halt: bool)
    requires OrdersShaped(cfg, orders, index) && OpenBounded(cfg, orders) && -1 <= index
    ensures Submit(cfg, p, orders, intents, index, t, reference, halt).Ok? ==>
      var r := Submit(cfg, p, orders, intents, index, t, reference, halt).value;
      && OrdersShaped(cfg, r, index) && OpenBounded(cfg, r)
      && orders <= r
      && (forall k :: |orders| <= k < |r| ==>
            && !IsStop(r[k]) && r[k].status != Filled && r[k].createdIndex == index
            && (halt ==> r[k].status != Open))
    ensures Submit(cfg, p, orders, intents, index, t, reference, halt).Err? ==>
      !Submit(cfg, p, orders, intents, index, t, reference, halt).error.AccusesOwnBooks()
  {
    hide Decide, OpenCount, OrderShape;
    if intents != [] {
      var rest, i := intents[..|intents| - 1], intents[|intents| - 1];
      SubmitKeepsTable(cfg, p, orders, rest, index, t, reference, halt);
      var before := Submit(cfg, p, orders, rest, index, t, reference, halt);
      if before.Ok? && i.tag != StopLossTag {
        DecideShapes(cfg, p, before.value, i, index, t, reference, halt);
        var o := Decide(cfg, p, before.value, i, index, t, reference, halt);
        if o.Ok? { AppendKeepsTable(cfg, before.value, o.value, index); }
      }
    }
  }

  /** Appending orders that are not stops leaves the protection in place. */
  lemma {:induction false} AppendingKeepsProtection(cfg: Config, a: seq<Order>, b: seq<Order>, p: Portfolio)
    requires a <= b && Protected(cfg, a, p) && (forall k :: |a| <= k < |b| ==> !IsStop(b[k]))
    ensures Protected(cfg, b, p)
  {
    assert forall i :: 0 <= i < |a| ==> b[i] == a[i];
  }

  /** Closing orders that are not stops leaves the protection in place. */
  lemma {:induction false} ClosingKeepsProtection(cfg: Config, a: seq<Order>, b: seq<Order>, p: Portfolio)
    requires |a| == |b| && Protected(cfg, a, p)
    requires forall i :: 0 <= i < |a| ==> (OpenStop(a[i]) <==> OpenStop(b[i])) && (OpenStop(a[i]) ==> b[i] == a[i])
    ensures Protected(cfg, b, p)
  {}
}
