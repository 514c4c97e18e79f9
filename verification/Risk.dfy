/** Pre-order and pre-fill risk checks, position sizing and the protective-stop projection. */
module Risk {
  import opened Domain
  import opened Accounting
  import opened Execution
  import opened RealArithmetic

  datatype Decision = Accept(intent: Intent, notional: real) | Reject(code: RejectionCode, notional: real)

  function OrderLiquidity(i: Intent): Liquidity { if i.kind.Limit? then Maker else Taker }

  /** The price both the sizer and the risk manager assume for an order that is not yet filled. */
  function EstimatedPrice(cfg: Config, i: Intent, reference: real): (price: real)
    ensures 0.0 < reference ==> 0.0 < price
  {
    match i.kind
    case Limit(limit) => limit
    case StopMarket(stop) => AdversePrice(cfg, stop, i.side)
    case Market => AdversePrice(cfg, reference, i.side)
  }

  predicate AlignedTrigger(cfg: Config, i: Intent) {
    match i.kind
    case Market => true
    case Limit(p) => TickAligned(p, cfg.constraints.tick)
    case StopMarket(p) => TickAligned(p, cfg.constraints.tick)
  }

  predicate Exceeds(x: real, bound: Option<Positive>) { bound.Some? && x > bound.value }

  function Notional(quantity: real, price: real): real { quantity * price }

  function Exposure(p: Portfolio, quantity: real, price: real): real { (p.base + quantity) * price }

  function BuyRejection(cfg: Config, p: Portfolio, notional: real, l: Liquidity,
                        exposure: real): Option<RejectionCode> {
    if p.cash - notional - FeeOn(notional, cfg.fees.Rate(l)) < cfg.Reserve() then Some(CashTooLow)
    else if Exceeds(exposure, cfg.limits.maxPositionNotional) then Some(PositionLimitExceeded)
    else None
  }

  function EvaluateOrder(cfg: Config, i: Intent, p: Portfolio, reference: real, openCount: nat, totalCount: nat,
                         halt: bool): Decision
  {
    var quantity := Truncate(i.quantity, cfg.constraints.step);
    if halt then Reject(RiskHaltActive, 0.0)
    else if openCount >= cfg.limits.maxOpenOrders then Reject(MaximumOpenOrders, 0.0)
    else if totalCount >= cfg.limits.maxTotalOrders then Reject(MaximumTotalOrders, 0.0)
    else if quantity < cfg.constraints.minimumQuantity || quantity <= 0.0 then Reject(InvalidQuantity, 0.0)
    else if reference <= 0.0 then Reject(InvalidPrice, 0.0)
    else if !AlignedTrigger(cfg, i) then Reject(InvalidPrice, 0.0)
    else
      var normalized := i.(quantity := quantity);
      var price := EstimatedPrice(cfg, normalized, reference);
      var notional := Notional(quantity, price);
      if notional < cfg.constraints.minimumNotional then Reject(NotionalTooSmall, notional)
      else if Exceeds(notional, cfg.constraints.maximumNotional) then Reject(NotionalTooLarge, notional)
      else if Exceeds(notional, cfg.limits.maxOrderNotional) then Reject(NotionalTooLarge, notional)
      else if i.side == Buy then
        match BuyRejection(cfg, p, notional, OrderLiquidity(i), Exposure(p, quantity, Max(reference, price)))
        case Some(code) => Reject(code, notional)
        case None => Accept(normalized, notional)
      else if quantity > p.base then Reject(PositionTooSmall, notional)
      else Accept(normalized, notional)
  }

  function ValidateFill(cfg: Config, f: Fill, p: Portfolio): Option<RejectionCode> {
    if f.notional < cfg.constraints.minimumNotional then Some(NotionalTooSmall)
    else if Exceeds(f.notional, cfg.constraints.maximumNotional) then Some(NotionalTooLarge)
    else if Exceeds(f.notional, cfg.limits.maxOrderNotional) then Some(NotionalTooLarge)
    else if f.side == Buy then
      if p.cash - f.notional - f.fee < cfg.Reserve() then Some(CashTooLow)
      else if Exceeds(Exposure(p, f.quantity, f.price), cfg.limits.maxPositionNotional) then
        Some(PositionLimitExceeded)
      else None
    else if f.quantity > p.base then Some(PositionTooSmall)
    else None
  }

  predicate HaltRequired(cfg: Config, p: Portfolio) {
    && cfg.limits.stopOnMaxDrawdown
    && cfg.limits.maxDrawdownPct.Some?
    && p.drawdownPct >= cfg.limits.maxDrawdownPct.value
  }

  datatype Sizing = Sizing(quantity: real, target: real, price: real, fee: real, cashRequired: real)

  function PolicyReserve(cfg: Config): NonNegative {
    match cfg.sizing
    case ExplicitQuantity => 0.0
    case FixedNotional(_, r) => r
    case EquityPercent(_, r) => r
  }

  function SizingReserve(cfg: Config): real { Max(cfg.Reserve(), PolicyReserve(cfg)) }

  function FeeOn(notional: real, rate: real): real { notional * rate }

  /** What buying costs, fee included. */
  function Outlay(quantity: real, price: real, rate: real): real {
    Notional(quantity, price) + FeeOn(Notional(quantity, price), rate)
  }

  /** The price of one unit, fee included. */
  function GrossPrice(price: real, rate: real): real { price * (1.0 + rate) }

  function SizingOf(cfg: Config, quantity: real, target: real, price: real, liquidity: Liquidity): Sizing {
    Sizing(quantity, target, price, FeeOn(Notional(quantity, price), cfg.fees.Rate(liquidity)),
           Outlay(quantity, price, cfg.fees.Rate(liquidity)))
  }

  function TargetNotional(cfg: Config, p: Portfolio): real
    requires cfg.sizing != ExplicitQuantity
  {
    match cfg.sizing
    case FixedNotional(value, _) => value
    case EquityPercent(value, _) => p.equity * value / 100.0
  }

  function FreeCash(cfg: Config, p: Portfolio): (r: real)
    ensures 0.0 <= r
  {
    Max(0.0, p.cash - SizingReserve(cfg))
  }

  /** Cash a sized BUY may spend before fees. */
  function SpendableNotional(cfg: Config, p: Portfolio, liquidity: Liquidity): real {
    BeforeFees(FreeCash(cfg, p), cfg.fees.Rate(liquidity))
  }

  function BeforeFees(cash: real, rate: real): real
    requires 0.0 <= rate
  {
    cash / (1.0 + rate)
  }

  /** The largest whole number of steps whose notional at `price` stays within the cap. */
  function QuantityWithin(cap: real, price: real, step: Positive): real
    requires 0.0 < price
  {
    Truncate(cap / price, step)
  }

  function Size(cfg: Config, i: Intent, p: Portfolio, reference: real): Outcome<Sizing> {
    if reference <= 0.0 then Err(InvalidReferencePrice)
    else
      var liquidity := OrderLiquidity(i);
      var price := EstimatedPrice(cfg, i, reference);
      if i.side == Sell || cfg.sizing == ExplicitQuantity then
        Ok(SizingOf(cfg, Truncate(i.quantity, cfg.constraints.step), i.quantity * price, price, liquidity))
      else
        var target := TargetNotional(cfg, p);
        var bounded := Min(target, SpendableNotional(cfg, p, liquidity));
        Ok(SizingOf(cfg, QuantityWithin(bounded, price, cfg.constraints.step), target, price, liquidity))
  }

  datatype StopDecision = NoStop | ProtectAt(quantity: Positive, price: Positive)

  /** The unrounded stop: `average * (1 - p)`. */
  function RawStop(cfg: Config, average: real): real
    requires cfg.limits.stop.FixedPercent?
  {
    average * (1.0 - cfg.limits.stop.percent / 100.0)
  }

  function StopPrice(cfg: Config, average: real): real
    requires cfg.limits.stop.FixedPercent?
  {
    Truncate(RawStop(cfg, average), cfg.constraints.tick)
  }

  function EvaluateStop(cfg: Config, p: Portfolio): Outcome<StopDecision> {
    if cfg.limits.stop == StopDisabled || p.base <= 0.0 then Ok(NoStop)
    else if StopPrice(cfg, p.average) <= 0.0 then Err(StopBelowTick)
    else Ok(ProtectAt(p.base, StopPrice(cfg, p.average)))
  }

  lemma {:induction false} RatesBounded(cfg: Config, l: Liquidity)
    ensures 0.0 <= cfg.fees.Rate(l) <= 0.1
    ensures 0.0 <= cfg.SlippageRate() <= 0.1
  {}

  /** One more step would exceed the notional cap. */
  predicate OneStepMoreExceeds(quantity: real, step: real, price: real, cap: real) {
    (quantity + step) * price > cap
  }

  lemma {:induction false} QuantityWithinIsTight(cap: real, price: real, step: Positive)
    requires 0.0 < price && 0.0 <= cap
    ensures var q := QuantityWithin(cap, price, step);
      0.0 <= q && OnGrid(q, step) && Notional(q, price) <= cap && OneStepMoreExceeds(q, step, price, cap)
  {
    hide Truncate, OnGrid, Notional, OneStepMoreExceeds;
    var units := cap / price;
    var q := Truncate(units, step);
    assert q == QuantityWithin(cap, price, step);
    QuotientPositive(cap, price);
    TruncateRoundsDown(units, step);
    CancelFactor(cap, price);
    BracketedNotional(q, units, step, price, cap);
  }

  lemma {:induction false} BracketedNotional(q: real, units: real, step: real, price: real, cap: real)
    requires 0.0 < price && units * price == cap && q <= units < q + step
    ensures Notional(q, price) <= cap && OneStepMoreExceeds(q, step, price, cap)
  {
    ProductMonotone(q, units, price);
    ProductMonotone(units, q + step, price);
  }

  /** The sizing arithmetic on its own: `spendable` is the free cash before fees. */
  lemma {:induction false} TightQuantity(target: real, free: real, rate: real, price: real, step: Positive)
    requires 0.0 <= target && 0.0 <= free && 0.0 <= rate && 0.0 < price
    ensures
      var q := QuantityWithin(Min(target, BeforeFees(free, rate)), price, step);
      && 0.0 <= q && OnGrid(q, step)
      && Notional(q, price) <= target
      && Outlay(q, price, rate) <= free
      && ( || OneStepMoreExceeds(q, step, price, target)
           || OneStepMoreExceeds(q, step, GrossPrice(price, rate), free))
  {
    hide Truncate, QuantityWithin, OneStepMoreExceeds, OnGrid, Notional, Outlay, GrossPrice;
    var spendable := BeforeFees(free, rate);
    QuotientPositive(free, 1.0 + rate);
    CancelFactor(free, 1.0 + rate);
    QuantityWithinIsTight(Min(target, spendable), price, step);
    TightWithFee(QuantityWithin(Min(target, spendable), price, step), step, price, target, spendable, rate, free);
  }

  lemma {:induction false} TightWithFee(q: real, step: real, price: real, target: real, spendable: real, rate: real,
                                        free: real)
    requires 0.0 <= rate && spendable * (1.0 + rate) == free
    requires Notional(q, price) <= Min(target, spendable)
    requires OneStepMoreExceeds(q, step, price, Min(target, spendable))
    ensures Outlay(q, price, rate) <= free
    ensures || OneStepMoreExceeds(q, step, price, target)
            || OneStepMoreExceeds(q, step, GrossPrice(price, rate), free)
  {
    AddFee(Notional(q, price), spendable, rate);
    if spendable < target {
      AddFee(Notional(q + step, price), spendable, rate);
      assert Notional(q + step, GrossPrice(price, rate)) == Notional(q + step, price) * (1.0 + rate);
    }
  }

  lemma {:induction false} AddFee(notional: real, spendable: real, rate: real)
    requires 0.0 <= rate
    ensures notional <= spendable ==> notional + notional * rate <= spendable * (1.0 + rate)
    ensures notional > spendable ==> notional * (1.0 + rate) > spendable * (1.0 + rate)
  {
    ProductMonotone(notional, spendable, 1.0 + rate);
    ProductMonotone(spendable, notional, 1.0 + rate);
  }

  lemma {:induction false} TargetNonNegative(cfg: Config, p: Portfolio)
    requires cfg.sizing != ExplicitQuantity && 0.0 <= p.equity
    ensures 0.0 <= TargetNotional(cfg, p)
  {}

  /** A sized BUY spends at most its target and the free cash, and one more quantity step would
      exceed the target, or the free cash once the fee is added. */
  lemma {:induction false} SizedBuyIsTight(cfg: Config, i: Intent, p: Portfolio, reference: real)
    requires i.side == Buy && cfg.sizing != ExplicitQuantity && 0.0 <= p.equity && 0.0 < reference
    ensures Size(cfg, i, p, reference).Ok?
    ensures
      var s := Size(cfg, i, p, reference).value;
      var step := cfg.constraints.step;
      var liquidity := OrderLiquidity(i);
      && 0.0 <= s.quantity && OnGrid(s.quantity, step)
      && 0.0 < s.price == EstimatedPrice(cfg, i, reference)
      && Notional(s.quantity, s.price) <= s.target == TargetNotional(cfg, p)
      && s.cashRequired == Outlay(s.quantity, s.price, cfg.fees.Rate(liquidity)) <= FreeCash(cfg, p)
      && ( || OneStepMoreExceeds(s.quantity, step, s.price, s.target)
           || OneStepMoreExceeds(s.quantity, step, GrossPrice(s.price, cfg.fees.Rate(liquidity)), FreeCash(cfg, p)))
  {
    hide Truncate, QuantityWithin, OneStepMoreExceeds, OnGrid, FreeCash, TargetNotional, EstimatedPrice, BeforeFees,
      FeeModel.Rate, Notional, FeeOn, Outlay, GrossPrice;
    TargetNonNegative(cfg, p);
    RatesBounded(cfg, OrderLiquidity(i));
    TightQuantity(TargetNotional(cfg, p), FreeCash(cfg, p), cfg.fees.Rate(OrderLiquidity(i)),
                  EstimatedPrice(cfg, i, reference), cfg.constraints.step);
  }

  /** A BUY sized by fixed notional or equity percent never fails the cash check that follows,
      and the risk manager's own truncation leaves its quantity alone. */
  lemma {:induction false} SizedBuyPassesCashCheck(cfg: Config, i: Intent, p: Portfolio, reference: real,
                                                   openCount: nat, totalCount: nat, halt: bool)
    requires i.side == Buy && cfg.sizing != ExplicitQuantity && 0.0 <= p.equity && 0.0 < reference
    requires Size(cfg, i, p, reference).Ok? ==> Size(cfg, i, p, reference).value.quantity > 0.0
    ensures
      var s := Size(cfg, i, p, reference).value;
      var d := EvaluateOrder(cfg, i.(quantity := s.quantity), p, reference, openCount, totalCount, halt);
      && (d.Reject? ==> d.code != CashTooLow)
      && (d.Accept? ==> d.intent == i.(quantity := s.quantity) && d.notional == Notional(s.quantity, s.price))
  {
    hide Truncate, QuantityWithin, OnGrid, EvaluateOrder, EstimatedPrice;
    SizedBuyKeepsReserve(cfg, i, p, reference);
    var s := Size(cfg, i, p, reference).value;
    OnGridBuyDecision(cfg, i.(quantity := s.quantity), p, reference, openCount, totalCount, halt);
  }

  lemma {:induction false} SizedBuyKeepsReserve(cfg: Config, i: Intent, p: Portfolio, reference: real)
    requires i.side == Buy && cfg.sizing != ExplicitQuantity && 0.0 <= p.equity && 0.0 < reference
    requires Size(cfg, i, p, reference).Ok? ==> Size(cfg, i, p, reference).value.quantity > 0.0
    ensures
      var s := Size(cfg, i, p, reference).value;
      var sized := i.(quantity := s.quantity);
      var n := Notional(s.quantity, EstimatedPrice(cfg, sized, reference));
      && OnGrid(s.quantity, cfg.constraints.step)
      && n == Notional(s.quantity, s.price)
      && p.cash - n - FeeOn(n, cfg.fees.Rate(OrderLiquidity(i))) >= cfg.Reserve()
  {
    hide Truncate, QuantityWithin, OneStepMoreExceeds, OnGrid;
    SizedBuyIsTight(cfg, i, p, reference);
    var s := Size(cfg, i, p, reference).value;
    assert EstimatedPrice(cfg, i.(quantity := s.quantity), reference) == s.price;
    RatesBounded(cfg, OrderLiquidity(i));
    CashStaysAboveReserve(p.cash, cfg.Reserve(), SizingReserve(cfg), s.quantity, s.price,
      cfg.fees.Rate(OrderLiquidity(i)));
  }

  /** A BUY already on the quantity grid is not renormalized, and is refused for cash only when
      its own notional and fee would break the reserve. */
  lemma {:induction false} OnGridBuyDecision(cfg: Config, i: Intent, p: Portfolio, reference: real, openCount: nat,
                                             totalCount: nat, halt: bool)
    requires i.side == Buy && OnGrid(i.quantity, cfg.constraints.step)
    ensures
      var n := Notional(i.quantity, EstimatedPrice(cfg, i, reference));
      var d := EvaluateOrder(cfg, i, p, reference, openCount, totalCount, halt);
      && (d.Accept? ==> d.intent == i && d.notional == n)
      && (d == Reject(CashTooLow, n) ==> p.cash - n - FeeOn(n, cfg.fees.Rate(OrderLiquidity(i))) < cfg.Reserve())
      && (d.Reject? && d.code == CashTooLow ==> d.notional == n)
  {
    assert Truncate(i.quantity, cfg.constraints.step) == i.quantity;
    assert i.(quantity := i.quantity) == i;
  }

  lemma {:induction false} CashStaysAboveReserve(cash: real, reserve: real, kept: real, q: real, price: real,
                                                 rate: real)
    requires 0.0 < q && 0.0 < price && 0.0 <= rate && reserve <= kept
    requires Outlay(q, price, rate) <= Max(0.0, cash - kept)
    ensures cash - Notional(q, price) - FeeOn(Notional(q, price), rate) >= reserve
  {
    assert 0.0 < Notional(q, price);
    assert 0.0 <= FeeOn(Notional(q, price), rate);
  }

  /** `price` is the largest whole tick that keeps the loss within the configured percentage. */
  predicate TickFloor(cfg: Config, price: real, average: real)
    requires cfg.limits.stop.FixedPercent?
  {
    && OnGrid(price, cfg.constraints.tick)
    && 100.0 * price <= average * (100.0 - cfg.limits.stop.percent) < 100.0 * (price + cfg.constraints.tick)
  }

  /** The protective stop is the largest whole tick that keeps the loss within the percentage. */
  lemma {:induction false} StopPriceIsTickFloor(cfg: Config, average: real)
    requires cfg.limits.stop.FixedPercent? && 0.0 <= average
    ensures TickFloor(cfg, StopPrice(cfg, average), average)
  {
    hide OnGrid, Truncate;
    TruncateRoundsDown(RawStop(cfg, average), cfg.constraints.tick);
    PercentOff(average, cfg.limits.stop.percent, RawStop(cfg, average));
  }

  lemma {:induction false} PercentOff(average: real, percent: real, raw: real)
    requires raw == average * (1.0 - percent / 100.0)
    ensures 100.0 * raw == average * (100.0 - percent)
  {
    var part := 1.0 - percent / 100.0;
    assert 100.0 * part == 100.0 - percent;
    assert 100.0 * (average * part) == average * (100.0 * part);
  }

  /** The fill an order would become at the price the risk manager assumes. */
  predicate Projects(cfg: Config, i: Intent, reference: real, f: Fill) {
    && f.side == i.side && f.quantity == Truncate(i.quantity, cfg.constraints.step)
    && f.price == EstimatedPrice(cfg, i, reference) && f.notional == Notional(f.quantity, f.price)
    && f.fee == FeeOn(f.notional, cfg.fees.Rate(OrderLiquidity(i)))
  }

  /** The two risk checks agree: an order is accepted exactly when its own counts, size and trigger
      allow it, the fill it projects would pass the fill check, and a BUY keeps the position limit
      even at the reference price. */
  lemma {:induction false} RiskChecksAgree(cfg: Config, i: Intent, p: Portfolio, reference: Positive, openCount: nat,
                                           totalCount: nat, halt: bool, f: Fill)
    requires Projects(cfg, i, reference, f)
    ensures EvaluateOrder(cfg, i, p, reference, openCount, totalCount, halt).Accept? <==>
      && !halt && openCount < cfg.limits.maxOpenOrders && totalCount < cfg.limits.maxTotalOrders
      && cfg.constraints.minimumQuantity <= f.quantity && AlignedTrigger(cfg, i)
      && ValidateFill(cfg, f, p).None?
      && (i.side == Buy ==> !Exceeds(Exposure(p, f.quantity, Max(reference, f.price)), cfg.limits.maxPositionNotional))
  {
    hide Truncate, FeeModel.Rate, FeeOn, Notional, TickAligned;
    var sized := i.(quantity := f.quantity);
    assert EstimatedPrice(cfg, sized, reference) == f.price;
    if reference <= f.price {
    } else if i.side == Buy && 0.0 <= p.base + f.quantity {
      ProductMonotone(f.price, reference, p.base + f.quantity);
    }
  }
}
