/** When an eligible order expires, waits, is refused or trades, and how an order's status may change. */
module Verdicts {
  import opened Domain
  import opened Accounting
  import opened Execution
  import opened Risk
  import opened EngineSpec
  import opened Placement

  // The lifecycle

  /** How far an order has come. */
  function Stage(s: Status): nat {
    match s
    case Created => 0
    case Open => 1
    case _ => 2
  }

  /** An order only moves forward; it is opened or rejected when created, and filled or expired when open. */
  lemma {:induction false} TransitionsMoveForward(o: Order, to: Status, t: int, code: Option<RejectionCode>)
    ensures Transition(o, to, t, code).Ok? <==>
      && Stage(o.status) < Stage(to)
      && (to == Rejected ==> o.status == Created) && (to == Filled || to == Expired ==> o.status == Open)
    ensures Transition(o, to, t, code).Ok? ==>
      var r := Transition(o, to, t, code).value;
      && r.status == to && r.intent == o.intent && r.id == o.id && r.sequence == o.sequence
      && r.createdAt == o.createdAt && r.createdIndex == o.createdIndex && r.eligibleIndex == o.eligibleIndex
      && (if to == Open then r.openedAt == Some(t) && r.terminalAt == o.terminalAt && r.rejection == o.rejection
          else r.openedAt == o.openedAt && r.terminalAt == Some(t) && r.rejection == code)
  {}

  // Days

  /** The instant at which a UTC day begins. */
  function Midnight(day: int): int { day * 86_400_000 }

  /** A midnight has passed since the order was created. */
  ghost predicate Overnight(createdAt: int, now: int) { exists day: int :: createdAt < Midnight(day) <= now }

  lemma {:induction false} DaysAreCalendarDays(a: int, b: int)
    ensures DayOf(b) > DayOf(a) <==> Overnight(a, b)
  {
    if DayOf(b) > DayOf(a) {
      assert a < Midnight(DayOf(b)) <= b;
    }
    if Overnight(a, b) {
      var day: int :| a < Midnight(day) <= b;
      Quotients(a, day);
      Quotients(b, day);
    }
  }

  lemma {:induction false} Quotients(t: int, day: int)
    ensures t < Midnight(day) <==> DayOf(t) < day
  {}

  // The verdict

  /** The candle traded at a price at which the order may trade. */
  ghost predicate Tradable(o: Order, c: Candle) { exists price :: Trades(c, price) && Meets(o.intent, price) }

  ghost predicate Overdue(o: Order, c: Candle) { o.intent.tif == DAY && Overnight(o.createdAt, c.openTime) }

  /** The limits a fill is checked against at its own price. */
  predicate FillAllowed(cfg: Config, f: Fill, p: Portfolio) {
    && cfg.constraints.minimumNotional <= f.notional
    && AtMost(f.notional, cfg.constraints.maximumNotional) && AtMost(f.notional, cfg.limits.maxOrderNotional)
    && (f.side == Buy ==>
          && f.notional + f.fee + KeptCash(cfg) <= p.cash
          && AtMost((p.base + f.quantity) * f.price, cfg.limits.maxPositionNotional))
    && (f.side == Sell ==> f.quantity <= p.base)
  }

  lemma {:induction false} FillChecksMean(cfg: Config, f: Fill, p: Portfolio)
    ensures ValidateFill(cfg, f, p).None? <==> FillAllowed(cfg, f, p)
  {}

  lemma {:induction false} QuotedMeans(cfg: Config, o: Order, c: Candle, index: int)
    requires o.status == Open && o.eligibleIndex <= index && QuoteOrder(cfg, o, c, index).Ok?
    ensures QuoteOrder(cfg, o, c, index).value.Some? <==> Tradable(o, c)
  {
    hide QuoteOrder;
    QuotesAreFair(cfg, o, c, index);
  }

  /** What becomes of an order that is due: a DAY order past its day expires at the open; one that cannot
      trade expires at the close if it is IOC and waits otherwise; one that can trade is refused if its
      fill would break a limit, the engine's stop aside, and filled otherwise. */
  lemma {:induction false} VerdictMeans(cfg: Config, b: Book, o: Order, c: Candle, index: nat)
    requires o.status == Open && o.eligibleIndex <= index && Judge(cfg, b, o, c, index).Ok?
    ensures match Judge(cfg, b, o, c, index).value
      case Expire(at) =>
        (Overdue(o, c) && at == c.openTime)
        || (!Overdue(o, c) && !Tradable(o, c) && o.intent.tif == IOC && at == c.closeTime)
      case Leave => !Overdue(o, c) && !Tradable(o, c) && o.intent.tif != IOC
      case Refuse =>
        && !Overdue(o, c) && Tradable(o, c) && !IsStop(o)
        && exists f :: FillPriced(cfg, o.intent, f, c) && !FillAllowed(cfg, f, b.portfolio)
      case Execute(f) =>
        && !Overdue(o, c) && Tradable(o, c) && FillPriced(cfg, o.intent, f, c)
        && f.fillId == |b.fills| + 1 && f.orderId == o.id && f.candleIndex == index
        && (IsStop(o) || FillAllowed(cfg, f, b.portfolio))
  {
    hide QuoteOrder, MakeFill, FillPriced, ValidateFill, FillAllowed, Tradable, Overnight, DayOf;
    DaysAreCalendarDays(o.createdAt, c.openTime);
    var quote := QuoteOrder(cfg, o, c, index);
    if !DayExpired(o, c) {
      QuotedMeans(cfg, o, c, index);
      if quote.value.Some? {
        var f := MakeFill(cfg, o, quote.value.value, c.openTime, index, |b.fills| + 1).value;
        QuotedFillsArePriced(cfg, o, c, index, |b.fills| + 1);
        MadeFillNames(cfg, o, quote.value.value, c.openTime, index, |b.fills| + 1);
        FillChecksMean(cfg, f, b.portfolio);
        assert FillPriced(cfg, o.intent, f, c);
      }
    }
  }

  lemma {:induction false} MadeFillNames(cfg: Config, o: Order, q: Quote, t: int, index: nat, sequence: nat)
    requires MakeFill(cfg, o, q, t, index, sequence).Ok?
    ensures var f := MakeFill(cfg, o, q, t, index, sequence).value;
      f.fillId == sequence && f.orderId == o.id && f.candleIndex == index
  {}
}
