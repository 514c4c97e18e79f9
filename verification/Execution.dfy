/** Order lifecycle and OHLC fill prices. */
module Execution {
  import opened Domain
  import opened RealArithmetic

  datatype Quote = Quote(
    basePrice: real, price: real, reason: FillReason, liquidity: Liquidity, slippagePerUnit: real)

  function AdversePrice(cfg: Config, base: real, side: Side): real {
    if side == Buy then base * (1.0 + cfg.SlippageRate()) else base * (1.0 - cfg.SlippageRate())
  }

  function AdverseQuote(cfg: Config, base: real, side: Side, reason: FillReason): Outcome<Quote> {
    var price := AdversePrice(cfg, base, side);
    if price <= 0.0 then Err(InvalidExecutionPrice)
    else Ok(Quote(base, price, reason, Taker, Abs(price - base)))
  }

  function LimitQuote(side: Side, limit: Positive, c: Candle): Option<Quote> {
    if side == Buy then
      if c.low > limit then None
      else if c.open < limit then Some(Quote(c.open, c.open, LimitGap, Maker, 0.0))
      else Some(Quote(limit, limit, LimitTouched, Maker, 0.0))
    else if c.high < limit then None
    else if c.open > limit then Some(Quote(c.open, c.open, LimitGap, Maker, 0.0))
    else Some(Quote(limit, limit, LimitTouched, Maker, 0.0))
  }

  function StopQuote(cfg: Config, side: Side, stop: Positive, c: Candle): Outcome<Option<Quote>> {
    if side == Buy then
      if c.high < stop then Ok(None)
      else
        var q :- AdverseQuote(cfg, if c.open > stop then c.open else stop, side,
                              if c.open > stop then StopGap else StopTriggered);
        Ok(Some(q))
    else if c.low > stop then Ok(None)
    else
      var q :- AdverseQuote(cfg, if c.open < stop then c.open else stop, side,
                            if c.open < stop then StopGap else StopTriggered);
      Ok(Some(q))
  }

  /** A deterministic fill quote, or nothing when the order is not due or not triggered. */
  function QuoteOrder(cfg: Config, o: Order, c: Candle, index: int): Outcome<Option<Quote>> {
    if o.status != Open || index < o.eligibleIndex then Ok(None)
    else match o.intent.kind
      case Market =>
        var q :- AdverseQuote(cfg, c.open, o.intent.side, MarketOpen);
        Ok(Some(q))
      case Limit(limit) => Ok(LimitQuote(o.intent.side, limit, c))
      case StopMarket(stop) => StopQuote(cfg, o.intent.side, stop, c)
  }

  function MakeFill(cfg: Config, o: Order, q: Quote, t: int, index: nat, sequence: nat): Outcome<Fill> {
    var quantity := o.intent.quantity;
    var notional := quantity * q.price;
    if q.basePrice <= 0.0 || q.price <= 0.0 || notional <= 0.0 then Err(InvalidExecutionPrice)
    else
      var fee := notional * cfg.fees.Rate(q.liquidity);
      var slippage := q.slippagePerUnit * quantity;
      if fee < 0.0 || slippage < 0.0 then Err(InvalidExecutionPrice)
      else
        Ok(Fill(sequence, o.id, q.reason, q.liquidity, o.intent.side, quantity,
                q.basePrice, q.price, notional, fee, slippage, t, index))
  }

  function CreateOrder(intent: Intent, sequence: nat, t: int, index: int): Order {
    Order(sequence, sequence, t, index, index + 1, intent, Created, None, None, None)
  }

  predicate Allowed(from: Status, to: Status) {
    match from
    case Created => to == Open || to == Cancelled || to == Rejected
    case Open => to == Filled || to == Cancelled || to == Expired
    case _ => false
  }

  function Transition(o: Order, to: Status, t: int, code: Option<RejectionCode>): Outcome<Order> {
    if !Allowed(o.status, to) then Err(IllegalTransition)
    else if to == Open then Ok(o.(status := Open, openedAt := Some(t)))
    else Ok(o.(status := to, terminalAt := Some(t), rejection := code))
  }

  function Multiple(k: int, step: Positive): real { k as real * step }

  /** Truncates to the step grid; no caller has a negative quantity, which the source refuses. */
  function Truncate(quantity: real, step: Positive): real { Multiple((quantity / step).Floor, step) }

  predicate OnGrid(x: real, step: Positive) { Truncate(x, step) == x }

  predicate TickAligned(price: real, tick: Positive) { OnGrid(price, tick) }

  /** The UTC day of an instant. */
  function DayOf(t: int): int { t / 86_400_000 }

  predicate DayExpired(o: Order, c: Candle) { o.intent.tif == DAY && DayOf(c.openTime) > DayOf(o.createdAt) }

  /** A DAY order trades no later than the day it was created. */
  predicate OnItsDay(o: Order, t: int) { o.intent.tif == DAY ==> DayOf(t) <= DayOf(o.createdAt) }

  /** Being on the grid is being a whole multiple of the step. */
  lemma {:induction false} GridIsMultiples(x: real, step: Positive)
    ensures OnGrid(x, step) <==> exists k: int :: x == Multiple(k, step)
  {
    if OnGrid(x, step) {
      assert x == Multiple((x / step).Floor, step);
    }
    forall k: int | x == Multiple(k, step) ensures OnGrid(x, step) {
      CancelFactor(k as real, step);
      assert x / step == k as real;
    }
  }

  /** The grid is closed under addition and subtraction. */
  lemma {:induction false} GridClosed(x: real, y: real, step: Positive)
    requires OnGrid(x, step) && OnGrid(y, step)
    ensures OnGrid(x + y, step) && OnGrid(x - y, step)
  {
    var i, j := (x / step).Floor, (y / step).Floor;
    assert x + y == Multiple(i + j, step);
    assert x - y == Multiple(i - j, step);
    GridIsMultiples(x + y, step);
    GridIsMultiples(x - y, step);
  }

  /** Truncation rounds down to the grid by less than one step, and is idempotent. */
  lemma {:induction false} TruncateRoundsDown(q: real, step: Positive)
    ensures Truncate(q, step) <= q < Truncate(q, step) + step
    ensures 0.0 <= q ==> 0.0 <= Truncate(q, step)
    ensures OnGrid(Truncate(q, step), step)
  {
    FloorTimesStep(q, step);
    GridIsMultiples(Truncate(q, step), step);
    if 0.0 <= q {
      QuotientPositive(q, step);
      ProductMonotone(0.0, (q / step).Floor as real, step);
    }
  }

  lemma {:induction false} FloorTimesStep(q: real, step: Positive)
    ensures Truncate(q, step) <= q < Truncate(q, step) + step
  {
    var units := q / step;
    CancelFactor(q, step);
    WholeStepsBelow(units, units.Floor as real, q, step);
    assert Truncate(q, step) == Multiple(units.Floor, step);
  }

  lemma {:induction false} WholeStepsBelow(units: real, whole: real, q: real, step: Positive)
    requires units * step == q && whole <= units < whole + 1.0
    ensures whole * step <= q < whole * step + step
  {
    ProductMonotone(whole, units, step);
    var left := units - whole;
    ProductMonotone(left, 1.0, step);
    assert left * step < step;
    assert units * step == whole * step + left * step;
    assert q == whole * step + left * step;
  }

  /** A market price at which the order may trade. */
  predicate Meets(i: Intent, price: real) {
    match i.kind
    case Market => true
    case Limit(limit) => if i.side == Buy then price <= limit else price >= limit
    case StopMarket(stop) => if i.side == Buy then price >= stop else price <= stop
  }

  predicate Trades(c: Candle, price: real) { c.low <= price <= c.high }

  /** A due order is quoted exactly when the candle trades at a price that meets it; it is then
      based on such a price, and slippage only ever moves against it. LIMIT orders pay no
      slippage, so they never trade beyond their limit. */
  lemma {:induction false} QuotesAreFair(cfg: Config, o: Order, c: Candle, index: int)
    requires o.status == Open && o.eligibleIndex <= index && QuoteOrder(cfg, o, c, index).Ok?
    ensures QuoteOrder(cfg, o, c, index).value.Some? <==> exists price :: Trades(c, price) && Meets(o.intent, price)
    ensures QuoteOrder(cfg, o, c, index).value.Some? ==>
      var q := QuoteOrder(cfg, o, c, index).value.value;
      && Trades(c, q.basePrice) && Meets(o.intent, q.basePrice)
      && (if o.intent.kind.Limit? then q.price == q.basePrice && q.liquidity == Maker
          else q.price == AdversePrice(cfg, q.basePrice, o.intent.side) && q.liquidity == Taker)
      && q.slippagePerUnit == Abs(q.price - q.basePrice)
  {
    hide AdversePrice;
    var r := QuoteOrder(cfg, o, c, index).value;
    assert Trades(c, c.open) && Trades(c, c.low) && Trades(c, c.high);
    if r.None? {
      forall price | Trades(c, price) ensures !Meets(o.intent, price) {}
    } else {
      assert Trades(c, r.value.basePrice) && Meets(o.intent, r.value.basePrice);
    }
  }

  lemma {:induction false} SlippageIsAdverse(cfg: Config, base: real, side: Side)
    requires 0.0 < base
    ensures side == Buy ==> base <= AdversePrice(cfg, base, side)
    ensures side == Sell ==> 0.0 < AdversePrice(cfg, base, side) <= base
  {
    hide Config.SlippageRate;
    SlippageBounded(cfg);
    Scaled(base, cfg.SlippageRate());
  }

  lemma {:induction false} SlippageBounded(cfg: Config)
    ensures 0.0 <= cfg.SlippageRate() < 1.0
  {}

  lemma {:induction false} Scaled(base: real, rate: real)
    requires 0.0 < base && 0.0 <= rate < 1.0
    ensures base <= base * (1.0 + rate) && 0.0 < base * (1.0 - rate) <= base
  {
    var part := base * rate;
    ProductMonotone(0.0, rate, base);
    ProductMonotone(rate, 1.0, base);
    assert 0.0 <= part < base;
    assert base * (1.0 + rate) == base + part;
    assert base * (1.0 - rate) == base - part;
  }

  // Where a fill's price comes from and what it costs, in the terms of the configuration

  /** `part` is `bps` basis points of `whole`. */
  predicate IsBps(part: real, whole: real, bps: real) { 10000.0 * part == whole * bps }

  /** `price` is `base` moved against the trader by the configured slippage. */
  predicate Adverse(cfg: Config, base: real, side: Side, price: real) {
    IsBps(if side == Buy then price - base else base - price, base, cfg.slippageBps)
  }

  /** The market price an order trades at in a candle, and why: a LIMIT order never pays more than its
      limit, a STOP order never less than its trigger, and a gap beyond either is traded at the open. */
  predicate TradesAt(i: Intent, c: Candle, base: real, reason: FillReason) {
    match i.kind
    case Market => base == c.open && reason == MarketOpen
    case Limit(limit) =>
      if i.side == Buy then
        base == Min(c.open, limit) && reason == (if c.open < limit then LimitGap else LimitTouched)
      else
        base == Max(c.open, limit) && reason == (if c.open > limit then LimitGap else LimitTouched)
    case StopMarket(stop) =>
      if i.side == Buy then
        base == Max(c.open, stop) && reason == (if c.open > stop then StopGap else StopTriggered)
      else
        base == Min(c.open, stop) && reason == (if c.open < stop then StopGap else StopTriggered)
  }

  /** LIMIT orders pay the maker fee and no slippage, all others the taker fee and the slippage. */
  predicate Charged(cfg: Config, maker: bool, f: Fill) {
    && f.notional == f.quantity as real * f.price
    && if maker then
         f.liquidity == Maker && f.price == f.basePrice && f.slippage == 0.0
         && IsBps(f.fee, f.notional, cfg.fees.makerBps)
       else
         f.liquidity == Taker && Adverse(cfg, f.basePrice, f.side, f.price)
         && f.slippage == (if f.side == Buy then f.price - f.basePrice else f.basePrice - f.price) * f.quantity
         && IsBps(f.fee, f.notional, cfg.fees.takerBps)
  }

  /** The fill of an order at a candle. */
  predicate FillPriced(cfg: Config, i: Intent, f: Fill, c: Candle) {
    && f.side == i.side && f.quantity == i.quantity && f.time == c.openTime
    && TradesAt(i, c, f.basePrice, f.reason) && c.low <= f.basePrice <= c.high
    && Charged(cfg, i.kind.Limit?, f)
  }

  /** The fill of a forced close at the end of a candle. */
  predicate ClosePriced(cfg: Config, f: Fill, c: Candle) {
    f.side == Sell && f.time == c.closeTime && f.basePrice == c.close && Charged(cfg, false, f)
  }

  lemma {:induction false} AdversePriceIsAdverse(cfg: Config, base: real, side: Side)
    ensures Adverse(cfg, base, side, AdversePrice(cfg, base, side))
  {
    var rate := cfg.SlippageRate();
    assert base * (1.0 + rate) - base == base * rate;
    assert base - base * (1.0 - rate) == base * rate;
    assert 10000.0 * (base * rate) == base * (10000.0 * rate);
  }

  lemma {:induction false} FeeIsBps(cfg: Config, notional: real, l: Liquidity, fee: real)
    requires fee == notional * cfg.fees.Rate(l)
    ensures IsBps(fee, notional, if l == Maker then cfg.fees.makerBps else cfg.fees.takerBps)
  {
    var rate := cfg.fees.Rate(l);
    assert 10000.0 * (notional * rate) == notional * (10000.0 * rate);
  }

  /** A quote is based on the price its order trades at. */
  lemma {:induction false} QuotesTradeAt(cfg: Config, o: Order, c: Candle, index: int)
    requires QuoteOrder(cfg, o, c, index).Ok? && QuoteOrder(cfg, o, c, index).value.Some?
    ensures var q := QuoteOrder(cfg, o, c, index).value.value;
      && TradesAt(o.intent, c, q.basePrice, q.reason) && c.low <= q.basePrice <= c.high
      && (if o.intent.kind.Limit? then q.liquidity == Maker && q.price == q.basePrice && q.slippagePerUnit == 0.0
          else q.liquidity == Taker && q.price == AdversePrice(cfg, q.basePrice, o.intent.side)
               && q.slippagePerUnit == Abs(q.price - q.basePrice))
  {
    hide AdversePrice;
  }

  /** The fill made of a quote is priced and charged as its order and candle say. */
  lemma {:induction false} QuotedFillsArePriced(cfg: Config, o: Order, c: Candle, index: nat, sequence: nat)
    requires QuoteOrder(cfg, o, c, index).Ok? && QuoteOrder(cfg, o, c, index).value.Some?
    ensures var r := MakeFill(cfg, o, QuoteOrder(cfg, o, c, index).value.value, c.openTime, index, sequence);
      r.Ok? ==> FillPriced(cfg, o.intent, r.value, c)
  {
    hide QuoteOrder, TradesAt, AdversePrice, FeeModel.Rate, IsBps;
    QuotesTradeAt(cfg, o, c, index);
    var q := QuoteOrder(cfg, o, c, index).value.value;
    var r := MakeFill(cfg, o, q, c.openTime, index, sequence);
    if r.Ok? { QuoteIsCharged(cfg, o, q, c.openTime, index, sequence); }
  }

  lemma {:induction false} QuoteIsCharged(cfg: Config, o: Order, q: Quote, t: int, index: nat, sequence: nat)
    requires MakeFill(cfg, o, q, t, index, sequence).Ok?
    requires if q.liquidity == Maker then q.price == q.basePrice && q.slippagePerUnit == 0.0
             else q.price == AdversePrice(cfg, q.basePrice, o.intent.side)
                  && q.slippagePerUnit == Abs(q.price - q.basePrice)
    ensures Charged(cfg, q.liquidity == Maker, MakeFill(cfg, o, q, t, index, sequence).value)
  {
    hide AdversePrice, FeeModel.Rate, IsBps;
    var f := MakeFill(cfg, o, q, t, index, sequence).value;
    assert f.fee == f.notional * cfg.fees.Rate(q.liquidity);
    FeeIsBps(cfg, f.notional, q.liquidity, f.fee);
    AdversePriceIsAdverse(cfg, q.basePrice, o.intent.side);
    SlippageIsAdverse(cfg, q.basePrice, o.intent.side);
    assert f.notional == f.quantity as real * f.price;
    if q.liquidity == Maker {
      assert f.slippage == 0.0 && IsBps(f.fee, f.notional, cfg.fees.makerBps);
    } else {
      assert f.slippage == q.slippagePerUnit * f.quantity && IsBps(f.fee, f.notional, cfg.fees.takerBps);
      assert q.slippagePerUnit == (if f.side == Buy then f.price - f.basePrice else f.basePrice - f.price);
    }
  }
}
