/** Weighted-average-cost Spot accounting: one portfolio value, one fill at a time. */
module Accounting {
  import opened Domain
  import opened RealArithmetic

  datatype Portfolio = Portfolio(
    initial: real, cash: real, base: real, cost: real, average: real,
    realized: real, unrealized: real, fees: real, slippage: real,
    equity: real, peak: real, drawdown: real, drawdownPct: real, lastMark: Option<real>)
  {
    /** The contract every constructed portfolio is checked against. */
    predicate Valid() {
      && 0.0 <= initial && 0.0 <= cash && 0.0 <= base && 0.0 <= cost && 0.0 <= average
      && 0.0 <= fees && 0.0 <= slippage
      && 0.0 <= equity && 0.0 <= peak && 0.0 <= drawdown && 0.0 <= drawdownPct
      && (lastMark.Some? ==> 0.0 < lastMark.value)
      && (base == 0.0 ==> cost == 0.0 && average == 0.0)
      && (base != 0.0 ==> 0.0 < cost && 0.0 < average)
      && equity <= peak
      && drawdown == peak - equity
      && drawdownPct == DrawdownPct(peak, drawdown)
    }

    /** The strategy-facing and published view, without the opening capital and the last mark. */
    function View(): Portfolio { this.(initial := 0.0, lastMark := None) }
  }

  function DrawdownPct(peak: real, drawdown: real): real {
    if peak == 0.0 then 0.0 else drawdown / peak * 100.0
  }

  datatype Mutation = Mutation(
    after: Portfolio, quoteDelta: real, baseDelta: real, costDelta: real, realizedDelta: real)

  function Checked(p: Portfolio): Outcome<Portfolio> {
    if p.Valid() then Ok(p) else Err(InvalidPortfolio)
  }

  function Initialize(capital: Positive): Portfolio {
    Portfolio(capital, capital, 0.0, 0.0, 0.0, 0.0, 0.0, 0.0, 0.0, capital, capital, 0.0, 0.0, None)
  }

  function Marked(p: Portfolio, price: real): Portfolio {
    var value := p.base * price;
    var equity := p.cash + value;
    var peak := Max(p.peak, equity);
    var drawdown := peak - equity;
    p.(unrealized := value - p.cost, equity := equity, peak := peak, drawdown := drawdown,
       drawdownPct := DrawdownPct(peak, drawdown), lastMark := Some(price))
  }

  function MarkToMarket(p: Portfolio, price: real): Outcome<Portfolio> {
    if price <= 0.0 then Err(InvalidMarkPrice) else Checked(Marked(p, price))
  }

  function Bought(p: Portfolio, f: Fill): Portfolio {
    var outlay := f.notional + f.fee;
    var base := p.base + f.quantity;
    var cost := p.cost + outlay;
    p.(cash := p.cash - outlay, base := base, cost := cost,
       average := if base == 0.0 then 0.0 else cost / base,
       fees := p.fees + f.fee, slippage := p.slippage + f.slippage)
  }

  function ReleasedCost(p: Portfolio, quantity: real): real {
    if quantity == p.base || p.base == 0.0 then p.cost else ProRata(p.cost, quantity, p.base)
  }

  function Sold(p: Portfolio, f: Fill): Portfolio {
    var released := ReleasedCost(p, f.quantity);
    var proceeds := f.notional - f.fee;
    var base := p.base - f.quantity;
    var cost := if base == 0.0 then 0.0 else p.cost - released;
    p.(cash := p.cash + proceeds, base := base, cost := cost,
       average := if base == 0.0 then 0.0 else cost / base,
       realized := p.realized + (proceeds - released),
       fees := p.fees + f.fee, slippage := p.slippage + f.slippage)
  }

  function Traded(p: Portfolio, f: Fill): Outcome<Mutation> {
    if f.side == Buy then
      var outlay := f.notional + f.fee;
      if outlay > p.cash then Err(InsufficientCash)
      else
        var after :- Checked(Bought(p, f));
        Ok(Mutation(after, -outlay, f.quantity, outlay, 0.0))
    else if f.quantity > p.base then Err(InsufficientPosition)
    else
      var released := ReleasedCost(p, f.quantity);
      var proceeds := f.notional - f.fee;
      var after :- Checked(Sold(p, f));
      var quantity: real := f.quantity;
      Ok(Mutation(after, proceeds, -quantity, -released, proceeds - released))
  }

  /** Applies one all-or-none fill and marks the position at its execution price. */
  function ApplyFill(p: Portfolio, f: Fill): Outcome<Mutation> {
    var traded :- Traded(p, f);
    var marked :- MarkToMarket(traded.after, f.price);
    Ok(traded.(after := marked))
  }

  /** The portfolio after applying the fills in order. */
  function ApplyAll(p: Portfolio, fills: seq<Fill>): Outcome<Portfolio> {
    if fills == [] then Ok(p)
    else
      var before :- ApplyAll(p, fills[..|fills| - 1]);
      var m :- ApplyFill(before, fills[|fills| - 1]);
      Ok(m.after)
  }

  /** The position a list of fills adds up to. */
  function Held(fills: seq<Fill>): real {
    if fills == [] then 0.0
    else
      var f := fills[|fills| - 1];
      Held(fills[..|fills| - 1]) + (if f.side == Buy then f.quantity else -(f.quantity as real))
  }

  /** The cash a list of fills adds. */
  function CashFlow(fills: seq<Fill>): real {
    if fills == [] then 0.0
    else
      var f := fills[|fills| - 1];
      CashFlow(fills[..|fills| - 1]) + (if f.side == Buy then -(f.notional + f.fee) else f.notional - f.fee)
  }

  function FeesPaid(fills: seq<Fill>): real {
    if fills == [] then 0.0 else FeesPaid(fills[..|fills| - 1]) + fills[|fills| - 1].fee
  }

  function SlippagePaid(fills: seq<Fill>): real {
    if fills == [] then 0.0 else SlippagePaid(fills[..|fills| - 1]) + fills[|fills| - 1].slippage
  }

  /** The average cost of the position a list of fills adds up to: a SELL releases its share. */
  function OpenCost(fills: seq<Fill>): real {
    if fills == [] then 0.0
    else
      var rest, f := fills[..|fills| - 1], fills[|fills| - 1];
      var cost, held := OpenCost(rest), Held(rest);
      if f.side == Buy then cost + f.notional + f.fee
      else if f.quantity == held || held == 0.0 then 0.0
      else cost - ProRata(cost, f.quantity, held)
  }

  /** What every reachable portfolio satisfies beyond its constructor's checks. */
  predicate Sound(p: Portfolio) {
    && p.Valid()
    && (p.base > 0.0 ==> p.average * p.base == p.cost)
    && p.cash + p.cost == p.initial + p.realized
    && p.equity - p.initial == p.realized + p.unrealized
  }

  /** A fill the portfolio can carry: enough cash to buy, enough position to sell, and
      proceeds that cover the fee. */
  predicate Affordable(p: Portfolio, f: Fill) {
    && (f.side == Buy ==> f.notional + f.fee <= p.cash)
    && (f.side == Sell ==> f.quantity <= p.base && f.fee <= p.cash + f.notional)
  }

  lemma {:induction false} DrawdownPctNonNegative(peak: real, drawdown: real)
    requires 0.0 <= peak && 0.0 <= drawdown
    ensures 0.0 <= DrawdownPct(peak, drawdown)
  {
    if peak != 0.0 { QuotientPositive(drawdown, peak); }
  }

  /** A mark changes nothing but the valuation, never lowers the peak and keeps the books sound. */
  lemma {:induction false} MarkKeepsSound(p: Portfolio, price: real)
    requires 0.0 < price && p.Valid()
    ensures MarkToMarket(p, price) == Ok(Marked(p, price))
    ensures var m := Marked(p, price);
      && m.cash == p.cash && m.base == p.base && m.cost == p.cost && m.average == p.average
      && m.realized == p.realized && m.fees == p.fees && m.initial == p.initial
      && m.equity == p.cash + p.base * price && m.peak == Max(p.peak, m.equity)
      && m.unrealized == p.base * price - p.cost
    ensures
      && (p.base > 0.0 ==> p.average * p.base == p.cost)
      && p.cash + p.cost == p.initial + p.realized
      ==> Sound(Marked(p, price))
  {
    assert 0.0 <= p.base * price;
    var m := Marked(p, price);
    DrawdownPctNonNegative(m.peak, m.drawdown);
  }

  /** A fill is accepted exactly when it is affordable; the books it leaves are sound, and the
      mutation's deltas are what changed. */
  lemma {:induction false} ApplyFillAccepts(p: Portfolio, f: Fill)
    requires Sound(p)
    ensures ApplyFill(p, f).Ok? <==> Affordable(p, f)
    ensures ApplyFill(p, f).Ok? ==>
      var m := ApplyFill(p, f).value;
      && Sound(m.after)
      && m.after.initial == p.initial
      && m.after.cash == p.cash + m.quoteDelta
      && m.after.base == p.base + m.baseDelta
      && m.after.cost == p.cost + m.costDelta
      && m.after.realized == p.realized + m.realizedDelta
      && m.after.fees == p.fees + f.fee
      && m.after.lastMark == Some(f.price)
      && m.after.peak >= p.peak
      && m.baseDelta == (if f.side == Buy then f.quantity else -(f.quantity as real))
      && m.quoteDelta == (if f.side == Buy then -(f.notional + f.fee) else f.notional - f.fee)
  {
    if f.side == Buy {
      if Affordable(p, f) { BuyIsSound(p, f); }
    } else if f.quantity <= p.base {
      SellIsSound(p, f);
      if Affordable(p, f) { MarkKeepsSound(Sold(p, f), f.price); }
    }
  }

  lemma {:induction false} BuyIsSound(p: Portfolio, f: Fill)
    requires Sound(p) && f.side == Buy && Affordable(p, f)
    ensures Bought(p, f).Valid() && Sound(Marked(Bought(p, f), f.price))
    ensures MarkToMarket(Bought(p, f), f.price) == Ok(Marked(Bought(p, f), f.price))
  {
    var t := Bought(p, f);
    QuotientPositive(t.cost, t.base);
    CancelFactor(t.cost, t.base);
    MarkKeepsSound(t, f.price);
  }

  lemma {:induction false} SellIsSound(p: Portfolio, f: Fill)
    requires Sound(p) && f.side == Sell && f.quantity <= p.base
    ensures Sold(p, f).Valid() <==> f.fee <= p.cash + f.notional
    ensures Sold(p, f).Valid() ==> Sound(Marked(Sold(p, f), f.price)) && MarkToMarket(Sold(p, f), f.price).Ok?
    ensures Sold(p, f).cost == p.cost - ReleasedCost(p, f.quantity)
  {
    var t := Sold(p, f);
    if f.quantity < p.base {
      PartialSellKeepsAverage(p, f.quantity);
      CancelFactor(t.cost, t.base);
      assert t.average == p.average > 0.0;
      assert t.cost == t.average * t.base > 0.0;
    }
    if t.Valid() { MarkKeepsSound(t, f.price); }
  }

  /** Selling part of a position releases cost in proportion, so the average entry is preserved. */
  lemma {:induction false} PartialSellKeepsAverage(p: Portfolio, quantity: real)
    requires 0.0 < quantity < p.base && p.average * p.base == p.cost
    ensures ReleasedCost(p, quantity) == p.average * quantity
    ensures (p.cost - ReleasedCost(p, quantity)) / (p.base - quantity) == p.average
  {
    var b, a := p.base, p.average;
    assert p.cost * quantity == (a * quantity) * b by {
      assert p.cost * quantity == (a * b) * quantity;
      assert (a * b) * quantity == (a * quantity) * b;
    }
    assert (a * quantity) * b / b == a * quantity;
    var rest := b - quantity;
    assert p.cost - a * quantity == a * rest;
    assert a * rest / rest == a;
  }

  /** A partial sale, fee and all, leaves the average entry where it was. */
  lemma {:induction false} PartialSaleKeepsAverageEntry(p: Portfolio, f: Fill)
    requires Sound(p) && f.side == Sell && f.quantity < p.base && ApplyFill(p, f).Ok?
    ensures ApplyFill(p, f).value.after.average == p.average
  {
    PartialSellKeepsAverage(p, f.quantity);
  }

  lemma {:induction false} CapitalIsSound(capital: Positive)
    ensures var p := Initialize(capital);
      && Sound(p) && p.initial == capital && p.cash == capital && p.base == 0.0 && p.cost == 0.0
      && p.fees == 0.0 && p.slippage == 0.0
  {}

  lemma {:induction false} FillCosts(p: Portfolio, f: Fill)
    requires Sound(p) && ApplyFill(p, f).Ok?
    ensures ApplyFill(p, f).value.after.cost ==
      if f.side == Buy then p.cost + f.notional + f.fee
      else if f.quantity == p.base then 0.0
      else p.cost - ProRata(p.cost, f.quantity, p.base)
  {
    hide ProRata, Portfolio.Valid, DrawdownPct;
  }

  lemma {:induction false} FillCharges(p: Portfolio, f: Fill)
    requires ApplyFill(p, f).Ok?
    ensures var q := ApplyFill(p, f).value.after; q.fees == p.fees + f.fee && q.slippage == p.slippage + f.slippage
  {
    hide ReleasedCost, DrawdownPct, Portfolio.Valid;
  }

  /** A portfolio's cash, position, cost and charges are folds over its fills. */
  lemma {:induction false} ApplyAllFolds(capital: Positive, fills: seq<Fill>)
    requires ApplyAll(Initialize(capital), fills).Ok?
    ensures var p := ApplyAll(Initialize(capital), fills).value;
      && Sound(p) && p.initial == capital
      && p.cash == capital + CashFlow(fills) && p.base == Held(fills) && p.cost == OpenCost(fills)
      && p.fees == FeesPaid(fills) && p.slippage == SlippagePaid(fills)
  {
    hide ApplyFill, Sound, ProRata;
    if fills == [] {
      CapitalIsSound(capital);
    } else {
      var rest, f := fills[..|fills| - 1], fills[|fills| - 1];
      ApplyAllFolds(capital, rest);
      var p := ApplyAll(Initialize(capital), rest).value;
      ApplyFillAccepts(p, f);
      FillCosts(p, f);
      FillCharges(p, f);
      if f.side == Sell { AffordableSale(p, f); }
    }
  }

  lemma {:induction false} AffordableSale(p: Portfolio, f: Fill)
    requires ApplyFill(p, f).Ok? && f.side == Sell
    ensures 0.0 < f.quantity <= p.base
  {}
}
