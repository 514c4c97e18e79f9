/** Closed trades derived from fills alone: a second accounting beside the portfolio's. */
module Trades {
  import opened Domain
  import opened RealArithmetic
  import opened Accounting

  datatype Trade = Trade(
    entryTime: int, exitTime: int, quantity: real, averageEntry: real, averageExit: real,
    gross: real, fees: real, net: real, returnPct: Option<real>, barsHeld: int,
    entryIds: seq<nat>, exitIds: seq<nat>)
  {
    predicate Valid() {
      && entryTime <= exitTime
      && 0.0 < quantity && 0.0 < averageEntry && 0.0 < averageExit
      && 0.0 <= fees && net == gross - fees && 0 <= barsHeld
      && entryIds != [] && exitIds != []
    }
  }

  /** The open average-cost lot and the trades closed so far. */
  datatype Lots = Lots(
    quantity: real, notional: real, fees: real, entryIds: seq<nat>,
    entryTime: Option<int>, entryIndex: nat, trades: seq<Trade>)

  const FLAT := Lots(0.0, 0.0, 0.0, [], None, 0, [])

  function Enter(l: Lots, f: Fill): Lots {
    var lot := if l.quantity == 0.0 then l.(entryTime := Some(f.time), entryIndex := f.candleIndex, entryIds := [])
               else l;
    lot.(quantity := l.quantity + f.quantity, notional := l.notional + f.notional,
            fees := l.fees + f.fee, entryIds := lot.entryIds + [f.fillId])
  }

  function Share(whole: real, quantity: real, of: real): real
    requires of != 0.0
  {
    whole * (quantity / of)
  }

  function TradeOf(l: Lots, f: Fill): Trade
    requires l.quantity > 0.0 && l.entryTime.Some?
  {
    var notional := Share(l.notional, f.quantity, l.quantity);
    var entryFees := Share(l.fees, f.quantity, l.quantity);
    var gross := f.notional - notional;
    var fees := entryFees + f.fee;
    var basis := notional + entryFees;
    Trade(l.entryTime.value, f.time, f.quantity, notional / f.quantity, f.price, gross, fees, gross - fees,
          if basis == 0.0 then None else Some((gross - fees) / basis * 100.0),
          if f.candleIndex >= l.entryIndex then f.candleIndex - l.entryIndex else 0,
          l.entryIds, [f.fillId])
  }

  function Leave(l: Lots, f: Fill): Outcome<Lots> {
    if f.quantity > l.quantity || l.quantity <= 0.0 || l.entryTime.None? then Err(OversoldTrade)
    else
      var trade := TradeOf(l, f);
      if !trade.Valid() then Err(InvalidTrade)
      else
        var rest := l.(quantity := l.quantity - f.quantity,
                       notional := l.notional - Share(l.notional, f.quantity, l.quantity),
                       fees := l.fees - Share(l.fees, f.quantity, l.quantity),
                       trades := l.trades + [trade]);
        Ok(if rest.quantity == 0.0 then rest.(notional := 0.0, fees := 0.0, entryIds := [], entryTime := None)
           else rest)
  }

  function Take(l: Lots, f: Fill): Outcome<Lots> { if f.side == Buy then Ok(Enter(l, f)) else Leave(l, f) }

  function LotsAfter(fills: seq<Fill>): Outcome<Lots> {
    if fills == [] then Ok(FLAT)
    else
      var before :- LotsAfter(fills[..|fills| - 1]);
      Take(before, fills[|fills| - 1])
  }

  function NetPnl(trades: seq<Trade>): real {
    if trades == [] then 0.0 else NetPnl(trades[..|trades| - 1]) + trades[|trades| - 1].net
  }

  function GrossProfit(trades: seq<Trade>): real {
    if trades == [] then 0.0
    else GrossProfit(trades[..|trades| - 1]) + Max(trades[|trades| - 1].net, 0.0)
  }

  function GrossLoss(trades: seq<Trade>): real {
    if trades == [] then 0.0
    else GrossLoss(trades[..|trades| - 1]) + Max(-trades[|trades| - 1].net, 0.0)
  }

  /** When the position that the fills leave open was entered: the time of the last BUY taken flat. */
  function OpenedAt(fills: seq<Fill>): Option<int> {
    if fills == [] then None
    else
      var rest, f := fills[..|fills| - 1], fills[|fills| - 1];
      if f.side == Buy && Held(rest) == 0.0 then Some(f.time) else OpenedAt(rest)
  }

  predicate ExitInOrder(fills: seq<Fill>, j: nat)
    requires j < |fills|
  {
    var since := OpenedAt(fills[..j]);
    fills[j].side == Sell && since.Some? ==> since.value <= fills[j].time
  }

  /** No SELL is dated before the BUY that opened the position it reduces. */
  predicate ExitsInOrder(fills: seq<Fill>) { forall j: nat :: j < |fills| ==> ExitInOrder(fills, j) }

  predicate Covered(fills: seq<Fill>, j: nat)
    requires j < |fills|
  {
    fills[j].side == Sell ==> fills[j].quantity <= Held(fills[..j])
  }

  /** No SELL takes more than the fills listed before it add up to. */
  predicate NeverOversold(fills: seq<Fill>) { forall j: nat :: j < |fills| ==> Covered(fills, j) }

  predicate Derivable(fills: seq<Fill>, j: nat)
    requires j < |fills|
  {
    Covered(fills, j) && ExitInOrder(fills, j)
  }

  /** The first SELL that takes too much or is dated before its position was opened. */
  predicate FirstRefused(fills: seq<Fill>, j: nat)
    requires j < |fills|
  {
    !Derivable(fills, j) && forall i: nat :: i < j ==> Derivable(fills, i)
  }

  /** What the derivation raises at it: the quantity is checked first. */
  function RefusalOf(fills: seq<Fill>, j: nat): Failure
    requires j < |fills|
  {
    if Covered(fills, j) then InvalidTrade else OversoldTrade
  }

  predicate Chronological(fills: seq<Fill>) {
    forall i, j :: 0 <= i < j < |fills| ==> fills[i].time <= fills[j].time
  }

  /** Derives the closed trades with one pass over the fills. */
  method DeriveClosedTrades(fills: seq<Fill>) returns (r: Outcome<seq<Trade>>)
    ensures r.Ok? <==> LotsAfter(fills).Ok?
    ensures r.Ok? ==> r.value == LotsAfter(fills).value.trades
    ensures r.Err? ==> LotsAfter(fills) == Err(r.error)
  {
    var lots := FLAT;
    var n := 0;
    while n < |fills|
      invariant 0 <= n <= |fills|
      invariant LotsAfter(fills[..n]) == Ok(lots)
    {
      var fill := fills[n];
      assert fills[..n + 1][..n] == fills[..n];
      if fill.side == Buy {
        if lots.quantity == 0.0 {
          lots := lots.(entryTime := Some(fill.time), entryIndex := fill.candleIndex, entryIds := []);
        }
        lots := lots.(quantity := lots.quantity + fill.quantity, notional := lots.notional + fill.notional,
                      fees := lots.fees + fill.fee, entryIds := lots.entryIds + [fill.fillId]);
      } else {
        if fill.quantity > lots.quantity || lots.quantity <= 0.0 || lots.entryTime.None? {
          RejectedPrefix(fills, n + 1);
          return Err(OversoldTrade);
        }
        var trade := TradeOf(lots, fill);
        if !trade.Valid() {
          RejectedPrefix(fills, n + 1);
          return Err(InvalidTrade);
        }
        lots := lots.(quantity := lots.quantity - fill.quantity,
                      notional := lots.notional - Share(lots.notional, fill.quantity, lots.quantity),
                      fees := lots.fees - Share(lots.fees, fill.quantity, lots.quantity),
                      trades := lots.trades + [trade]);
        if lots.quantity == 0.0 {
          lots := lots.(notional := 0.0, fees := 0.0, entryIds := [], entryTime := None);
        }
      }
      n := n + 1;
    }
    assert fills[..n] == fills;
    r := Ok(lots.trades);
  }

  lemma {:induction false} RejectedPrefix(fills: seq<Fill>, n: nat)
    requires n <= |fills| && LotsAfter(fills[..n]).Err?
    ensures LotsAfter(fills) == LotsAfter(fills[..n])
    decreases |fills| - n
  {
    if n == |fills| {
      assert fills[..n] == fills;
    } else {
      assert fills[..n + 1][..n] == fills[..n];
      RejectedPrefix(fills, n + 1);
    }
  }

  /** The lot is the position the listed fills add up to. */
  predicate Tracks(l: Lots, held: real, since: Option<int>) {
    && l.quantity == held >= 0.0 && 0.0 <= l.fees
    && (held > 0.0 ==> 0.0 < l.notional && l.entryIds != [] && l.entryTime.Some? && l.entryTime == since)
    && (held == 0.0 ==> l.notional == 0.0 && l.fees == 0.0)
  }

  lemma {:induction false} TakeTracks(l: Lots, held: real, since: Option<int>, f: Fill)
    requires Tracks(l, held, since)
    ensures f.side == Sell && f.quantity > held ==> Take(l, f) == Err(OversoldTrade)
    ensures f.side == Sell && f.quantity <= held ==>
      since.Some? && (if since.value <= f.time then Take(l, f).Ok? else Take(l, f) == Err(InvalidTrade))
    ensures f.side == Buy ==> Take(l, f).Ok?
    ensures Take(l, f).Ok? ==>
      Tracks(Take(l, f).value, held + (if f.side == Buy then f.quantity else -(f.quantity as real)),
             if f.side == Buy && held == 0.0 then Some(f.time) else since)
  {
    if f.side == Sell && f.quantity <= held {
      SharesAdd(l.notional, l.fees, f.quantity, l.quantity);
      ShareBounds(l.notional, f.quantity, l.quantity);
      ShareBounds(l.fees, f.quantity, l.quantity);
      QuotientPositive(Share(l.notional, f.quantity, l.quantity), f.quantity);
      assert TradeOf(l, f).Valid() <==> since.value <= f.time;
    }
  }

  lemma {:induction false} PrefixDerivable(fills: seq<Fill>, n: nat)
    requires n <= |fills|
    ensures forall j: nat :: j < n ==> Derivable(fills[..n], j) == Derivable(fills, j)
    ensures forall j: nat :: j < n ==> Covered(fills[..n], j) == Covered(fills, j)
  {
    forall j: nat | j < n
      ensures Derivable(fills[..n], j) == Derivable(fills, j) && Covered(fills[..n], j) == Covered(fills, j)
    {
      assert fills[..n][..j] == fills[..j];
    }
  }

  lemma {:induction false} DerivableThroughout(fills: seq<Fill>)
    ensures NeverOversold(fills) && ExitsInOrder(fills) <==> forall j: nat :: j < |fills| ==> Derivable(fills, j)
  {
    if forall j: nat :: j < |fills| ==> Derivable(fills, j) {
      forall j: nat | j < |fills| ensures Covered(fills, j) && ExitInOrder(fills, j) { assert Derivable(fills, j); }
    }
  }

  /** What the derivation makes of any fills, whoever listed them: it succeeds exactly when no SELL takes
      more than the list holds before it and none is dated before the BUY that opened its position. If it
      raises, the first SELL that fails either test decides what. */
  lemma {:induction false} DerivationDecided(fills: seq<Fill>)
    ensures LotsAfter(fills).Ok? <==> NeverOversold(fills) && ExitsInOrder(fills)
    ensures LotsAfter(fills).Ok? ==> Tracks(LotsAfter(fills).value, Held(fills), OpenedAt(fills))
    ensures LotsAfter(fills).Err? ==>
      exists j: nat :: j < |fills| && FirstRefused(fills, j) && LotsAfter(fills) == Err(RefusalOf(fills, j))
  {
    hide Take, Tracks, NeverOversold, ExitsInOrder, Covered, ExitInOrder;
    DerivableThroughout(fills);
    if fills == [] {
      FlatTracks();
    } else {
      var n := |fills| - 1;
      var rest := fills[..n];
      DerivationDecided(rest);
      DerivableThroughout(rest);
      PrefixDerivable(fills, n);
      if LotsAfter(rest).Ok? {
        LastDecided(fills, LotsAfter(rest).value);
      } else {
        var j: nat :| j < n && FirstRefused(rest, j) && LotsAfter(rest) == Err(RefusalOf(rest, j));
        assert FirstRefused(fills, j) && RefusalOf(fills, j) == RefusalOf(rest, j);
      }
    }
  }

  /** The last fill, on the lot that the fills before it left. */
  lemma {:induction false} LastDecided(fills: seq<Fill>, l: Lots)
    requires fills != [] && Tracks(l, Held(fills[..|fills| - 1]), OpenedAt(fills[..|fills| - 1]))
    ensures var n, r := |fills| - 1, Take(l, fills[|fills| - 1]);
      if Derivable(fills, n) then r.Ok? && Tracks(r.value, Held(fills), OpenedAt(fills))
      else r == Err(RefusalOf(fills, n))
  {
    hide Take, Tracks;
    var n := |fills| - 1;
    TakeTracks(l, Held(fills[..n]), OpenedAt(fills[..n]), fills[n]);
  }

  /** There is one first refusal at most, so it names the error. */
  lemma {:induction false} FirstRefusalDecides(fills: seq<Fill>, j: nat)
    requires j < |fills| && FirstRefused(fills, j)
    ensures LotsAfter(fills) == Err(RefusalOf(fills, j))
  {
    hide LotsAfter, Covered, ExitInOrder, Tracks, NeverOversold, ExitsInOrder, Derivable;
    DerivationDecided(fills);
    DerivableThroughout(fills);
    var i: nat :| i < |fills| && FirstRefused(fills, i) && LotsAfter(fills) == Err(RefusalOf(fills, i));
    assert i == j;
  }

  lemma {:induction false} FlatTracks()
    ensures Tracks(FLAT, 0.0, None)
  {}

  /** One fill moves the cost of the lot, and the profit it does not explain by cash. */
  lemma {:induction false} TakeFolds(l: Lots, f: Fill)
    requires 0.0 <= l.quantity && Take(l, f).Ok?
    ensures var m := Take(l, f).value;
      && m.notional + m.fees ==
           (if f.side == Buy then l.notional + l.fees + f.notional + f.fee
            else if f.quantity == l.quantity then 0.0
            else l.notional + l.fees - ProRata(l.notional + l.fees, f.quantity, l.quantity))
      && NetPnl(m.trades) - (m.notional + m.fees) == NetPnl(l.trades) - (l.notional + l.fees)
           + (if f.side == Buy then -(f.notional + f.fee) else f.notional - f.fee)
  {
    hide Trade.Valid, Share, ProRata;
    if f.side == Sell {
      SharesAdd(l.notional, l.fees, f.quantity, l.quantity);
      SharesAdd(l.fees, l.notional, f.quantity, l.quantity);
      var trades := Take(l, f).value.trades;
      assert trades[..|l.trades|] == l.trades;
    }
  }

  /** The open lot's cost and the trades' profit are folds over the listed fills. */
  lemma {:induction false} LotFolds(fills: seq<Fill>)
    requires LotsAfter(fills).Ok?
    ensures var l := LotsAfter(fills).value;
      l.notional + l.fees == OpenCost(fills) && NetPnl(l.trades) - OpenCost(fills) == CashFlow(fills)
  {
    hide Take, ProRata, NeverOversold, ExitsInOrder;
    if fills != [] {
      var rest, f := fills[..|fills| - 1], fills[|fills| - 1];
      LotFolds(rest);
      DerivationDecided(rest);
      TakeFolds(LotsAfter(rest).value, f);
      if f.side == Sell { LeavesSomething(LotsAfter(rest).value, f); }
    }
  }

  lemma {:induction false} LeavesSomething(l: Lots, f: Fill)
    requires f.side == Sell && Take(l, f).Ok?
    ensures 0.0 < f.quantity <= l.quantity
  {}

  /** The lot and the portfolio describe the same position at the same cost. */
  predicate Reconciled(l: Lots, p: Portfolio, since: Option<int>) {
    && Tracks(l, p.base, since) && l.notional + l.fees == p.cost && NetPnl(l.trades) == p.realized
  }

  /** The two accountings of any fills the portfolio accepts: the derivation raises exactly when some
      SELL is dated before the BUY that opened its position, and then because that trade would end
      before it began. Otherwise the open lot is the position, entered then, at its cost basis, and the
      trades' net PnL sums to the realized PnL. */
  lemma {:induction false} TwoAccountingsAgree(capital: Positive, fills: seq<Fill>)
    requires ApplyAll(Initialize(capital), fills).Ok?
    ensures LotsAfter(fills).Ok? <==> ExitsInOrder(fills)
    ensures LotsAfter(fills).Err? ==> LotsAfter(fills).error == InvalidTrade
    ensures var p := ApplyAll(Initialize(capital), fills).value;
      && Sound(p) && p.initial == capital && p.base == Held(fills)
      && (LotsAfter(fills).Ok? ==> Reconciled(LotsAfter(fills).value, p, OpenedAt(fills)))
  {
    hide ApplyAll, LotsAfter, Tracks, ExitsInOrder;
    ApplyAllFolds(capital, fills);
    AcceptedNeverOversold(Initialize(capital), fills);
    DerivationDecided(fills);
    if LotsAfter(fills).Ok? { LotFolds(fills); }
  }

  /** The portfolio never sells more than it holds. */
  lemma {:induction false} AcceptedNeverOversold(p: Portfolio, fills: seq<Fill>)
    requires Sound(p) && p.base == 0.0 && ApplyAll(p, fills).Ok?
    ensures NeverOversold(fills)
    ensures Sound(ApplyAll(p, fills).value) && ApplyAll(p, fills).value.base == Held(fills)
  {
    hide ApplyFill, Sound;
    if fills != [] {
      var n := |fills| - 1;
      AcceptedNeverOversold(p, fills[..n]);
      PrefixDerivable(fills, n);
      var q := ApplyAll(p, fills[..n]).value;
      ApplyFillAccepts(q, fills[n]);
      if fills[n].side == Sell { AffordableSale(q, fills[n]); }
      forall j: nat | j < |fills| ensures Covered(fills, j) {
        if j < n { assert Covered(fills[..n], j); }
      }
    }
  }

  lemma {:induction false} SharesAdd(a: real, b: real, quantity: real, of: real)
    requires of != 0.0
    ensures Share(a, quantity, of) + Share(b, quantity, of) == ProRata(a + b, quantity, of)
    ensures Share(a, of, of) == a
  {
    var x := quantity / of;
    assert a * x + b * x == (a + b) * x;
    assert (a + b) * x == (a + b) * quantity / of;
  }

  lemma {:induction false} ShareBounds(a: real, quantity: real, of: real)
    requires 0.0 < quantity <= of && 0.0 <= a
    ensures 0.0 <= Share(a, quantity, of) <= a
    ensures 0.0 < a ==> 0.0 < Share(a, quantity, of)
    ensures 0.0 < a && quantity < of ==> Share(a, quantity, of) < a
  {
    var x := quantity / of;
    QuotientPositive(quantity, of);
    QuotientBelowOne(quantity, of);
    ProductMonotone(x, 1.0, a);
  }

  lemma {:induction false} OpenedByAFill(fills: seq<Fill>)
    ensures OpenedAt(fills).Some? ==> exists i :: 0 <= i < |fills| && fills[i].time == OpenedAt(fills).value
  {
    if fills != [] {
      var rest := fills[..|fills| - 1];
      OpenedByAFill(rest);
      assert forall i :: 0 <= i < |rest| ==> rest[i] == fills[i];
    }
  }

  /** Fills in the order of time never exit before they enter. */
  lemma {:induction false} ChronologicalExitsInOrder(fills: seq<Fill>)
    requires Chronological(fills)
    ensures ExitsInOrder(fills)
  {
    forall j: nat | j < |fills| ensures ExitInOrder(fills, j) { OpenedByAFill(fills[..j]); }
  }

  /** One unit bought at `u` and sold again. */
  function RoundTrip(u: Positive, bought: int, sold: int): seq<Fill> {
    [Fill(1, 1, MarketOpen, Taker, Buy, 1.0, u, u, u, 0.0, 0.0, bought, 0),
     Fill(2, 2, MarketOpen, Taker, Sell, 1.0, u, u, u, 0.0, 0.0, sold, 0)]
  }

  /** The portfolio accepts a round trip whatever its dates; the derivation raises when it ends before
      it began. */
  lemma {:induction false} BackwardRoundTripIsRefused(u: Positive, bought: int, sold: int)
    requires sold < bought
    ensures ApplyAll(Initialize(u), RoundTrip(u, bought, sold)).Ok?
    ensures LotsAfter(RoundTrip(u, bought, sold)) == Err(InvalidTrade)
  {
    hide ApplyFill, Sound, Affordable, LotsAfter;
    var fills := RoundTrip(u, bought, sold);
    RoundTripIsAffordable(u, bought, sold);
    assert fills[..1][..0] == [];
    assert ApplyAll(Initialize(u), fills[..1][..0]) == Ok(Initialize(u));
    TwoAccountingsAgree(u, fills);
    assert !ExitInOrder(fills, 1);
  }

  lemma {:induction false} RoundTripIsAffordable(u: Positive, bought: int, sold: int)
    ensures var fills := RoundTrip(u, bought, sold);
      && ApplyFill(Initialize(u), fills[0]).Ok?
      && ApplyFill(ApplyFill(Initialize(u), fills[0]).value.after, fills[1]).Ok?
  {
    hide ApplyFill, Sound;
    var fills := RoundTrip(u, bought, sold);
    CapitalIsSound(u);
    ApplyFillAccepts(Initialize(u), fills[0]);
    var p := ApplyFill(Initialize(u), fills[0]).value.after;
    ApplyFillAccepts(p, fills[1]);
  }

  /** What the trades moved, gains and losses alike. */
  function Moved(trades: seq<Trade>): real {
    if trades == [] then 0.0 else Moved(trades[..|trades| - 1]) + Abs(trades[|trades| - 1].net)
  }

  /** Gross profit minus gross loss is the trades' net PnL, and together they are all that moved: the one
      counts the winners only and the other the losers. */
  lemma {:induction false} ProfitMinusLoss(trades: seq<Trade>)
    ensures GrossProfit(trades) - GrossLoss(trades) == NetPnl(trades)
    ensures GrossProfit(trades) + GrossLoss(trades) == Moved(trades)
    ensures 0.0 <= GrossProfit(trades) && 0.0 <= GrossLoss(trades)
  {
    if trades != [] { ProfitMinusLoss(trades[..|trades| - 1]); }
  }
}
