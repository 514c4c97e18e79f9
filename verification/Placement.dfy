/** What an order had to satisfy to open and why it was rejected, in the terms of the configuration. */
module Placement {
  import opened Domain
  import opened Accounting
  import opened Execution
  import opened Risk
  import opened EngineSpec

  /** The price an order is assumed to fill at: its own limit or trigger, or else the reference. */
  predicate AssumedPrice(cfg: Config, i: Intent, reference: real, price: real) {
    match i.kind
    case Limit(limit) => price == limit
    case StopMarket(stop) => Adverse(cfg, stop, i.side, price)
    case Market => Adverse(cfg, reference, i.side, price)
  }

  function FeeBps(cfg: Config, i: Intent): Bps { if i.kind.Limit? then cfg.fees.makerBps else cfg.fees.takerBps }

  /** The assumed price, the notional there and the fee on it. */
  datatype Terms = Terms(price: real, notional: real, fee: real)

  predicate Assumed(cfg: Config, i: Intent, quantity: real, reference: real, x: Terms) {
    AssumedPrice(cfg, i, reference, x.price) && x.notional == quantity * x.price
      && IsBps(x.fee, x.notional, FeeBps(cfg, i))
  }

  predicate AtMost(x: real, bound: Option<Positive>) { bound.Some? ==> x <= bound.value }

  ghost predicate WholeTicks(price: real, tick: Positive) { exists k: int :: price == Multiple(k, tick) }

  ghost predicate TriggerOnTick(cfg: Config, i: Intent) {
    match i.kind
    case Market => true
    case Limit(p) => WholeTicks(p, cfg.constraints.tick)
    case StopMarket(p) => WholeTicks(p, cfg.constraints.tick)
  }

  /** The cash a BUY must leave. */
  function KeptCash(cfg: Config): real { if cfg.limits.allowAllIn then 0.0 else cfg.limits.quoteReserve }

  /** What an order is checked against besides itself. */
  datatype Situation = Situation(cash: real, base: real, openCount: nat, totalCount: nat, halt: bool)

  /** A reason for which an order of the given quantity is rejected. */
  ghost predicate Objects(cfg: Config, i: Intent, quantity: real, w: Situation, reference: real, x: Terms,
                          code: RejectionCode)
  {
    match code
    case RiskHaltActive => w.halt
    case MaximumOpenOrders => w.openCount >= cfg.limits.maxOpenOrders
    case MaximumTotalOrders => w.totalCount >= cfg.limits.maxTotalOrders
    case InvalidQuantity => quantity < cfg.constraints.minimumQuantity
    case InvalidPrice => reference <= 0.0 || !TriggerOnTick(cfg, i)
    case NotionalTooSmall => x.notional < cfg.constraints.minimumNotional
    case NotionalTooLarge =>
      !AtMost(x.notional, cfg.constraints.maximumNotional) || !AtMost(x.notional, cfg.limits.maxOrderNotional)
    case CashTooLow => i.side == Buy && w.cash < x.notional + x.fee + KeptCash(cfg)
    case PositionLimitExceeded =>
      i.side == Buy && !AtMost((w.base + quantity) * Max(reference, x.price), cfg.limits.maxPositionNotional)
    case PositionTooSmall => i.side == Sell && w.base < quantity
  }

  /** The order in which the reasons are tried. */
  const CHECKS: seq<RejectionCode> := [
    RiskHaltActive, MaximumOpenOrders, MaximumTotalOrders, InvalidQuantity, InvalidPrice, NotionalTooSmall,
    NotionalTooLarge, CashTooLow, PositionLimitExceeded, PositionTooSmall]

  /** The order is accepted for lack of any reason, or rejected for the first one. */
  ghost predicate Reasoned(cfg: Config, i: Intent, quantity: real, w: Situation, reference: real, x: Terms,
                           rejection: Option<RejectionCode>)
  {
    exists n: nat :: n <= |CHECKS| && FirstReason(cfg, i, quantity, w, reference, x, rejection, n)
  }

  ghost predicate FirstReason(cfg: Config, i: Intent, quantity: real, w: Situation, reference: real, x: Terms,
                              rejection: Option<RejectionCode>, n: nat)
    requires n <= |CHECKS|
  {
    && (forall m :: 0 <= m < n ==> !Objects(cfg, i, quantity, w, reference, x, CHECKS[m]))
    && (if n == |CHECKS| then rejection == None
        else rejection == Some(CHECKS[n]) && Objects(cfg, i, quantity, w, reference, x, CHECKS[n]))
  }

  lemma {:induction false} AdverseIsUnique(cfg: Config, base: real, side: Side, price: real)
    requires Adverse(cfg, base, side, price)
    ensures price == AdversePrice(cfg, base, side)
  {
    AdversePriceIsAdverse(cfg, base, side);
  }

  lemma {:induction false} AssumedIsEstimated(cfg: Config, i: Intent, quantity: real, reference: real, x: Terms)
    requires Assumed(cfg, i, quantity, reference, x)
    ensures x.price == EstimatedPrice(cfg, i, reference)
    ensures x.notional == Notional(quantity, EstimatedPrice(cfg, i, reference))
    ensures x.fee == FeeOn(x.notional, cfg.fees.Rate(OrderLiquidity(i)))
  {
    hide Adverse, AdversePrice;
    match i.kind
    case Limit(limit) =>
    case StopMarket(stop) => AdverseIsUnique(cfg, stop, i.side, x.price);
    case Market => AdverseIsUnique(cfg, reference, i.side, x.price);
    FeeIsBps(cfg, x.notional, OrderLiquidity(i), FeeOn(x.notional, cfg.fees.Rate(OrderLiquidity(i))));
  }

  lemma {:induction false} TriggersAligned(cfg: Config, i: Intent)
    ensures AlignedTrigger(cfg, i) <==> TriggerOnTick(cfg, i)
  {
    hide OnGrid;
    match i.kind
    case Market =>
    case Limit(p) => GridIsMultiples(p, cfg.constraints.tick);
    case StopMarket(p) => GridIsMultiples(p, cfg.constraints.tick);
  }

  function RejectionOf(d: Decision): Option<RejectionCode> { if d.Accept? then None else Some(d.code) }

  function CheckOf(d: Decision): nat {
    if d.Accept? then 10
    else match d.code
      case RiskHaltActive => 0
      case MaximumOpenOrders => 1
      case MaximumTotalOrders => 2
      case InvalidQuantity => 3
      case InvalidPrice => 4
      case NotionalTooSmall => 5
      case NotionalTooLarge => 6
      case CashTooLow => 7
      case PositionLimitExceeded => 8
      case PositionTooSmall => 9
  }

  /** The risk manager truncates the quantity, tries its reasons in order and stops at the first. */
  lemma {:induction false} EvaluationIsReasoned(cfg: Config, i: Intent, p: Portfolio, reference: real, openCount: nat,
                                                totalCount: nat, halt: bool, x: Terms)
    requires Assumed(cfg, i, Truncate(i.quantity, cfg.constraints.step), reference, x)
    ensures
      var q := Truncate(i.quantity, cfg.constraints.step);
      var d := EvaluateOrder(cfg, i, p, reference, openCount, totalCount, halt);
      && Reasoned(cfg, i, q, Situation(p.cash, p.base, openCount, totalCount, halt), reference, x, RejectionOf(d))
      && (d.Accept? ==> d.intent == i.(quantity := q) && d.notional == x.notional)
  {
    hide Truncate, FeeOn, Notional, FeeModel.Rate, AlignedTrigger, TriggerOnTick, Assumed, EstimatedPrice;
    var q := Truncate(i.quantity, cfg.constraints.step);
    var d := EvaluateOrder(cfg, i, p, reference, openCount, totalCount, halt);
    AssumedIsEstimated(cfg, i, q, reference, x);
    TriggersAligned(cfg, i);
    if 0.0 < q { SameEstimate(cfg, i, q, reference); }
    assert FirstReason(cfg, i, q, Situation(p.cash, p.base, openCount, totalCount, halt), reference, x, RejectionOf(d),
      CheckOf(d));
  }

  lemma {:induction false} SameEstimate(cfg: Config, i: Intent, q: Positive, reference: real)
    ensures EstimatedPrice(cfg, i.(quantity := q), reference) == EstimatedPrice(cfg, i, reference)
  {}

  // Sizing

  /** A sized BUY takes at most its share, and leaves both reserves after its fee. */
  predicate ShareKept(cfg: Config, equity: real, cash: real, x: Terms) {
    match cfg.sizing
    case ExplicitQuantity => true
    case FixedNotional(v, kept) => x.notional <= v && x.notional + x.fee + Max(KeptCash(cfg), kept) <= cash
    case EquityPercent(v, kept) =>
      100.0 * x.notional <= equity * v && x.notional + x.fee + Max(KeptCash(cfg), kept) <= cash
  }

  /** `more`, one step more than the quantity, would exceed the share or break a reserve. */
  predicate NoMoreFits(cfg: Config, bps: Bps, equity: real, cash: real, more: real, price: real) {
    match cfg.sizing
    case ExplicitQuantity => true
    case FixedNotional(v, kept) => more * price > v || Breaks(bps, cash - Max(KeptCash(cfg), kept), more, price)
    case EquityPercent(v, kept) =>
      100.0 * (more * price) > equity * v || Breaks(bps, cash - Max(KeptCash(cfg), kept), more, price)
  }

  /** That quantity and its fee cost more than the free cash. */
  predicate Breaks(bps: Bps, free: real, more: real, price: real) { more * price * (10000.0 + bps) > 10000.0 * free }

  lemma {:induction false} EstimateIsAssumed(cfg: Config, i: Intent, quantity: real, reference: real)
    ensures var price := EstimatedPrice(cfg, i, reference);
      var notional := Notional(quantity, price);
      Assumed(cfg, i, quantity, reference, Terms(price, notional, FeeOn(notional, cfg.fees.Rate(OrderLiquidity(i)))))
  {
    hide Adverse, AdversePrice, FeeModel.Rate;
    match i.kind {
      case Limit(limit) =>
      case StopMarket(stop) => AdversePriceIsAdverse(cfg, stop, i.side);
      case Market => AdversePriceIsAdverse(cfg, reference, i.side);
    }
    var notional := Notional(quantity, EstimatedPrice(cfg, i, reference));
    FeeIsBps(cfg, notional, OrderLiquidity(i), FeeOn(notional, cfg.fees.Rate(OrderLiquidity(i))));
  }

  lemma {:induction false} GrossExceeds(cfg: Config, i: Intent, more: real, price: real, free: real, cash: real)
    requires more * GrossPrice(price, cfg.fees.Rate(OrderLiquidity(i))) > free >= cash
    ensures Breaks(FeeBps(cfg, i), cash, more, price)
  {
    var next := more * price;
    var rate := cfg.fees.Rate(OrderLiquidity(i));
    assert more * (price * (1.0 + rate)) == next * (1.0 + rate);
    assert next * (10000.0 + FeeBps(cfg, i)) == 10000.0 * (next * (1.0 + rate)) by {
      assert 10000.0 * rate == FeeBps(cfg, i);
      assert 10000.0 * (next * (1.0 + rate)) == next * (10000.0 * (1.0 + rate));
    }
  }

  lemma {:induction false} TargetsAreShares(cfg: Config, p: Portfolio)
    requires cfg.sizing != ExplicitQuantity
    ensures cfg.sizing.FixedNotional? ==> TargetNotional(cfg, p) == cfg.sizing.value
    ensures cfg.sizing.EquityPercent? ==> 100.0 * TargetNotional(cfg, p) == p.equity * cfg.sizing.value
    ensures FreeCash(cfg, p) == Max(0.0, p.cash - Max(KeptCash(cfg), cfg.sizing.reserve))
  {}

  /** The sizer takes as many steps as the share and the reserves allow, and no more. */
  lemma {:induction false} SizingKeepsShare(cfg: Config, i: Intent, p: Portfolio, reference: real, x: Terms)
    requires i.side == Buy && cfg.sizing != ExplicitQuantity && 0.0 <= p.equity && 0.0 < reference
    requires Size(cfg, i, p, reference).Ok? ==>
      Assumed(cfg, i, Size(cfg, i, p, reference).value.quantity, reference, x)
    ensures Size(cfg, i, p, reference).Ok?
    ensures var q := Size(cfg, i, p, reference).value.quantity;
      && 0.0 <= q && WholeTicks(q, cfg.constraints.step)
      && (0.0 < q ==> ShareKept(cfg, p.equity, p.cash, x))
      && NoMoreFits(cfg, FeeBps(cfg, i), p.equity, p.cash, q + cfg.constraints.step, x.price)
  {
    hide Size, FeeModel.Rate, FeeOn, Notional, Outlay, GrossPrice, TargetNotional, FreeCash, EstimatedPrice, OnGrid,
      IsBps, Breaks, KeptCash, Assumed;
    SizedBuyIsTight(cfg, i, p, reference);
    var s := Size(cfg, i, p, reference).value;
    AssumedIsEstimated(cfg, i, s.quantity, reference, x);
    TargetsAreShares(cfg, p);
    GridIsMultiples(s.quantity, cfg.constraints.step);
    OutlayIsTerms(cfg, i, s.quantity, s.price, x);
    var more, free := s.quantity + cfg.constraints.step, p.cash - Max(KeptCash(cfg), cfg.sizing.reserve);
    if more * GrossPrice(s.price, cfg.fees.Rate(OrderLiquidity(i))) > FreeCash(cfg, p) {
      GrossExceeds(cfg, i, more, s.price, FreeCash(cfg, p), free);
    }
  }

  lemma {:induction false} OutlayIsTerms(cfg: Config, i: Intent, quantity: real, price: real, x: Terms)
    requires x.notional == Notional(quantity, price)
    requires x.fee == FeeOn(x.notional, cfg.fees.Rate(OrderLiquidity(i)))
    ensures Outlay(quantity, price, cfg.fees.Rate(OrderLiquidity(i))) == x.notional + x.fee
    ensures 0.0 <= quantity && 0.0 < price ==>
      0.0 <= x.fee && 0.0 <= x.notional && (0.0 < quantity ==> 0.0 < x.notional)
  {
    RatesBounded(cfg, OrderLiquidity(i));
  }

  /** What a sizing reports besides its quantity: the assumed price, the fee and the cash it would take. */
  lemma {:induction false} SizingReports(cfg: Config, i: Intent, p: Portfolio, reference: real, x: Terms)
    requires Size(cfg, i, p, reference).Ok?
    requires Assumed(cfg, i, Size(cfg, i, p, reference).value.quantity, reference, x)
    ensures var s := Size(cfg, i, p, reference).value;
      && s.price == x.price && s.fee == x.fee && s.cashRequired == x.notional + x.fee
      && (i.side == Sell || cfg.sizing == ExplicitQuantity ==> s.target == i.quantity * x.price)
      && (i.side == Buy && cfg.sizing.FixedNotional? ==> s.target == cfg.sizing.value)
      && (i.side == Buy && cfg.sizing.EquityPercent? ==> 100.0 * s.target == p.equity * cfg.sizing.value)
  {
    hide Truncate, QuantityWithin, FeeModel.Rate, FeeOn, Notional, Assumed, EstimatedPrice, TargetNotional,
      SpendableNotional, Outlay;
    var q := Size(cfg, i, p, reference).value.quantity;
    AssumedIsEstimated(cfg, i, q, reference, x);
    OutlayIsTerms(cfg, i, q, x.price, x);
    if cfg.sizing != ExplicitQuantity { TargetsAreShares(cfg, p); }
  }

  // Submission

  /** An order that opened: its terms at submission meet every check and its share. */
  ghost predicate PlacedAt(cfg: Config, i: Intent, cash: real, base: real, equity: real, reference: real, x: Terms) {
    && 0.0 < reference && Assumed(cfg, i, i.quantity, reference, x) && WholeTicks(i.quantity, cfg.constraints.step)
    && (forall n :: 3 <= n < |CHECKS| ==>
          !Objects(cfg, i, i.quantity, Situation(cash, base, 0, 0, false), reference, x, CHECKS[n]))
    && (i.side == Buy ==>
          && ShareKept(cfg, equity, cash, x)
          && NoMoreFits(cfg, FeeBps(cfg, i), equity, cash, i.quantity + cfg.constraints.step, x.price))
  }

  ghost predicate Placed(cfg: Config, i: Intent, cash: real, base: real, equity: real, reference: real) {
    exists x :: PlacedAt(cfg, i, cash, base, equity, reference, x)
  }

  /** The order asks for what the intent asked for, rounded down where the sizing leaves it that. */
  predicate Requested(cfg: Config, i: Intent, o: Order) {
    && o.intent == i.(quantity := o.intent.quantity)
    && (o.status == Open && (i.side == Sell || cfg.sizing == ExplicitQuantity) ==>
          o.intent.quantity <= i.quantity < o.intent.quantity + cfg.constraints.step)
  }

  lemma {:induction false} AcceptedIsPlaced(cfg: Config, i: Intent, q: Positive, p: Portfolio, reference: real,
                                            openCount: nat, totalCount: nat, halt: bool, x: Terms)
    requires Assumed(cfg, i, q, reference, x) && OnGrid(q, cfg.constraints.step)
    requires i.side == Buy ==>
      && ShareKept(cfg, p.equity, p.cash, x)
      && NoMoreFits(cfg, FeeBps(cfg, i), p.equity, p.cash, q + cfg.constraints.step, x.price)
    requires EvaluateOrder(cfg, i.(quantity := q), p, reference, openCount, totalCount, halt).Accept?
    ensures EvaluateOrder(cfg, i.(quantity := q), p, reference, openCount, totalCount, halt).intent == i.(quantity := q)
    ensures PlacedAt(cfg, i.(quantity := q), p.cash, p.base, p.equity, reference, x)
  {
    hide Truncate, EvaluateOrder, ShareKept, NoMoreFits, TriggerOnTick;
    var sized := i.(quantity := q);
    assert Truncate(q, cfg.constraints.step) == q;
    GridIsMultiples(q, cfg.constraints.step);
    assert Assumed(cfg, sized, q, reference, x);
    EvaluationIsReasoned(cfg, sized, p, reference, openCount, totalCount, halt, x);
    var w := Situation(p.cash, p.base, openCount, totalCount, halt);
    var n: nat :| n <= |CHECKS| && FirstReason(cfg, sized, q, w, reference, x, None, n);
    forall m | 3 <= m < |CHECKS|
      ensures !Objects(cfg, sized, q, Situation(p.cash, p.base, 0, 0, false), reference, x, CHECKS[m])
    {
      assert !Objects(cfg, sized, q, w, reference, x, CHECKS[m]);
      OtherCounts(cfg, sized, q, w, reference, x, CHECKS[m]);
    }
    assert !Objects(cfg, sized, q, w, reference, x, CHECKS[4]);
  }

  lemma {:induction false} OtherCounts(cfg: Config, i: Intent, q: real, w: Situation, reference: real, x: Terms,
                                       code: RejectionCode)
    requires code != RiskHaltActive && code != MaximumOpenOrders && code != MaximumTotalOrders
    ensures Objects(cfg, i, q, w, reference, x, code) <==>
      Objects(cfg, i, q, Situation(w.cash, w.base, 0, 0, false), reference, x, code)
  {}

  lemma {:induction false} ExplicitQuantityRoundsDown(cfg: Config, i: Intent, p: Portfolio, reference: real)
    requires (i.side == Sell || cfg.sizing == ExplicitQuantity) && Size(cfg, i, p, reference).Ok?
    ensures var q := Size(cfg, i, p, reference).value.quantity;
      OnGrid(q, cfg.constraints.step) && q <= i.quantity < q + cfg.constraints.step
  {
    hide Truncate, OnGrid;
    TruncateRoundsDown(i.quantity, cfg.constraints.step);
  }

  /** What an intent becomes: an OPEN order that keeps its share and passes every check at the reference
      price, or a REJECTED one. */
  lemma {:induction false} DecisionsArePlaced(cfg: Config, p: Portfolio, orders: seq<Order>, i: Intent, index: int,
                                              t: int, reference: real, halt: bool)
    requires 0.0 <= p.equity && Decide(cfg, p, orders, i, index, t, reference, halt).Ok?
    ensures var o := Decide(cfg, p, orders, i, index, t, reference, halt).value;
      && Requested(cfg, i, o) && o.createdAt == t && o.createdIndex == index
      && (if o.status == Open then o.openedAt == Some(t) && Placed(cfg, o.intent, p.cash, p.base, p.equity, reference)
          else o.status == Rejected && o.openedAt.None?)
  {
    hide Size, EvaluateOrder, PlacedAt, OnGrid, ShareKept, NoMoreFits, Assumed;
    var s := Size(cfg, i, p, reference).value;
    if s.quantity > 0.0 {
      var q: Positive := s.quantity;
      var price := EstimatedPrice(cfg, i, reference);
      var x := Terms(price, Notional(q, price), FeeOn(Notional(q, price), cfg.fees.Rate(OrderLiquidity(i))));
      EstimateIsAssumed(cfg, i, q, reference);
      SizePositive(cfg, i, p, reference);
      if i.side == Sell || cfg.sizing == ExplicitQuantity {
        ExplicitQuantityRoundsDown(cfg, i, p, reference);
      } else {
        SizingKeepsShare(cfg, i, p, reference, x);
        GridIsMultiples(q, cfg.constraints.step);
      }
      var d := EvaluateOrder(cfg, i.(quantity := q), p, reference, OpenCount(orders), |orders|, halt);
      if d.Accept? {
        if cfg.sizing == ExplicitQuantity { ExplicitHasNoShare(cfg, i, p, x); }
        AcceptedIsPlaced(cfg, i, q, p, reference, OpenCount(orders), |orders|, halt, x);
      }
    }
  }

  lemma {:induction false} SizePositive(cfg: Config, i: Intent, p: Portfolio, reference: real)
    requires Size(cfg, i, p, reference).Ok?
    ensures 0.0 < reference
  {}

  lemma {:induction false} ExplicitHasNoShare(cfg: Config, i: Intent, p: Portfolio, x: Terms)
    requires cfg.sizing == ExplicitQuantity
    ensures ShareKept(cfg, p.equity, p.cash, x)
    ensures forall more, price :: NoMoreFits(cfg, FeeBps(cfg, i), p.equity, p.cash, more, price)
  {}

  /** An order of a positive size is opened or rejected for the first reason, if there is one. */
  lemma {:induction false} DecisionsAreReasoned(cfg: Config, p: Portfolio, orders: seq<Order>, i: Intent, index: int,
                                                t: int, reference: real, halt: bool, x: Terms)
    requires Decide(cfg, p, orders, i, index, t, reference, halt).Ok?
    requires var o := Decide(cfg, p, orders, i, index, t, reference, halt).value;
      Assumed(cfg, o.intent, o.intent.quantity, reference, x) && OnGrid(o.intent.quantity, cfg.constraints.step)
    ensures var o := Decide(cfg, p, orders, i, index, t, reference, halt).value;
      || (Size(cfg, i, p, reference).value.quantity <= 0.0 && o.status == Rejected
        && o.rejection == Some(InvalidQuantity))
      || Reasoned(cfg, o.intent, o.intent.quantity, Situation(p.cash, p.base, OpenCount(orders), |orders|, halt),
                  reference, x, if o.status == Open then None else o.rejection)
  {
    hide Size, EvaluateOrder, Truncate, Assumed, Reasoned;
    var s := Size(cfg, i, p, reference).value;
    if s.quantity > 0.0 {
      var sized := i.(quantity := s.quantity);
      var o := Decide(cfg, p, orders, i, index, t, reference, halt).value;
      var d := EvaluateOrder(cfg, sized, p, reference, OpenCount(orders), |orders|, halt);
      AcceptedTruncates(cfg, sized, p, reference, OpenCount(orders), |orders|, halt);
      assert OnGrid(s.quantity, cfg.constraints.step) by { SizesAreOnGrid(cfg, i, p, reference); }
      assert o.intent == sized;
      EvaluationIsReasoned(cfg, sized, p, reference, OpenCount(orders), |orders|, halt, x);
    }
  }

  lemma {:induction false} SizesAreOnGrid(cfg: Config, i: Intent, p: Portfolio, reference: real)
    requires Size(cfg, i, p, reference).Ok?
    ensures OnGrid(Size(cfg, i, p, reference).value.quantity, cfg.constraints.step)
  {
    hide Truncate, OnGrid;
    var q := Size(cfg, i, p, reference).value.quantity;
    if i.side == Sell || cfg.sizing == ExplicitQuantity {
      TruncateRoundsDown(i.quantity, cfg.constraints.step);
    } else {
      var price := EstimatedPrice(cfg, i, reference);
      TruncateRoundsDown(Min(TargetNotional(cfg, p), SpendableNotional(cfg, p, OrderLiquidity(i))) / price,
        cfg.constraints.step);
    }
  }

  lemma {:induction false} AcceptedTruncates(cfg: Config, i: Intent, p: Portfolio, reference: real, openCount: nat,
                                             totalCount: nat, halt: bool)
    ensures var d := EvaluateOrder(cfg, i, p, reference, openCount, totalCount, halt);
      d.Accept? ==>
        && d.intent == i.(quantity := d.intent.quantity)
        && d.intent.quantity == Truncate(i.quantity, cfg.constraints.step)
  {
    hide Truncate, EstimatedPrice, BuyRejection;
  }
}
