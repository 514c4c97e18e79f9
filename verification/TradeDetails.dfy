/** What every closed trade says of the fills it was derived from. */
module TradeDetails {
  import opened Domain
  import opened RealArithmetic
  import opened Accounting
  import opened Trades

  // The open position, as folds over the listed fills

  /** What is left of an amount when part of the position is sold. */
  function Remaining(x: real, quantity: real, held: real): real {
    if quantity == held || held == 0.0 then 0.0 else x - ProRata(x, quantity, held)
  }

  /** The average notional of the open position, before fees. */
  function OpenNotional(fills: seq<Fill>): real {
    if fills == [] then 0.0
    else
      var rest, f := fills[..|fills| - 1], fills[|fills| - 1];
      if f.side == Buy then OpenNotional(rest) + f.notional else Remaining(OpenNotional(rest), f.quantity, Held(rest))
  }

  /** The average entry fees of the open position. */
  function OpenFees(fills: seq<Fill>): real {
    if fills == [] then 0.0
    else
      var rest, f := fills[..|fills| - 1], fills[|fills| - 1];
      if f.side == Buy then OpenFees(rest) + f.fee else Remaining(OpenFees(rest), f.quantity, Held(rest))
  }

  /** The BUY fills of the open position. */
  function EntryIds(fills: seq<Fill>): seq<nat> {
    if fills == [] then []
    else
      var rest, f := fills[..|fills| - 1], fills[|fills| - 1];
      if f.side == Buy then (if Held(rest) == 0.0 then [] else EntryIds(rest)) + [f.fillId] else EntryIds(rest)
  }

  /** The candle in which the open position was entered. */
  function EntryIndex(fills: seq<Fill>): nat {
    if fills == [] then 0
    else
      var rest, f := fills[..|fills| - 1], fills[|fills| - 1];
      if f.side == Buy && Held(rest) == 0.0 then f.candleIndex else EntryIndex(rest)
  }

  /** The trade that SELL `f` closes on the position that `rest` left open. */
  predicate Tells(t: Trade, rest: seq<Fill>, f: Fill) {
    var entryFees := t.fees - f.fee;
    var basis := t.averageEntry * t.quantity + entryFees;
    && OpenedAt(rest) == Some(t.entryTime) && t.exitTime == f.time && t.entryTime <= t.exitTime
    && t.quantity == f.quantity && t.averageExit == f.price
    && t.entryIds == EntryIds(rest) && t.exitIds == [f.fillId]
    && t.averageEntry * Held(rest) == OpenNotional(rest)
    && entryFees * Held(rest) == OpenFees(rest) * f.quantity
    && t.gross == f.notional - t.averageEntry * t.quantity && t.net == t.gross - t.fees
    && (if basis == 0.0 then t.returnPct.None? else t.returnPct.Some? && t.returnPct.value * basis == 100.0 * t.net)
    && t.barsHeld == (if f.candleIndex >= EntryIndex(rest) then f.candleIndex - EntryIndex(rest) else 0)
  }

  /** The open lot is the position those folds describe. */
  predicate LotTells(l: Lots, fills: seq<Fill>) {
    && l.notional == OpenNotional(fills) && l.fees == OpenFees(fills)
    && (l.quantity > 0.0 ==> l.entryIds == EntryIds(fills) && l.entryIndex == EntryIndex(fills))
  }

  lemma {:induction false} ShareRemains(x: real, quantity: real, of: real)
    requires of != 0.0
    ensures x - Share(x, quantity, of) == x - ProRata(x, quantity, of)
    ensures quantity == of ==> x - Share(x, quantity, of) == 0.0
  {
    SharesAdd(x, 0.0, quantity, of);
    ZeroShare(quantity, of);
  }

  lemma {:induction false} ZeroShare(quantity: real, of: real)
    requires of != 0.0
    ensures Share(0.0, quantity, of) == 0.0
  {}

  lemma {:induction false} TakeTells(l: Lots, fills: seq<Fill>)
    requires fills != [] && Tracks(l, Held(fills[..|fills| - 1]), OpenedAt(fills[..|fills| - 1]))
    requires LotTells(l, fills[..|fills| - 1]) && Take(l, fills[|fills| - 1]).Ok?
    ensures LotTells(Take(l, fills[|fills| - 1]).value, fills)
  {
    hide Share, ProRata, Trade.Valid, OpenedAt;
    var f := fills[|fills| - 1];
    if f.side == Sell {
      ShareRemains(l.notional, f.quantity, l.quantity);
      ShareRemains(l.fees, f.quantity, l.quantity);
    }
  }

  lemma {:induction false} LotsTell(fills: seq<Fill>)
    requires LotsAfter(fills).Ok?
    ensures LotTells(LotsAfter(fills).value, fills)
  {
    hide Take, Tracks, NeverOversold, ExitsInOrder, LotTells;
    if fills == [] {
      assert LotTells(FLAT, fills) by { FlatTells(); }
    } else {
      var rest := fills[..|fills| - 1];
      LotsTell(rest);
      DerivationDecided(rest);
      TakeTells(LotsAfter(rest).value, fills);
    }
  }

  lemma {:induction false} FlatTells()
    ensures LotTells(FLAT, [])
  {}

  lemma {:induction false} AveragesDivide(notional: real, quantity: real, of: real, part: real, average: real)
    requires of != 0.0 && quantity != 0.0 && part == Share(notional, quantity, of) && average == part / quantity
    ensures average * of == notional && average * quantity == part && part * of == notional * quantity
  {
    var x := quantity / of;
    CancelFactor(quantity, of);
    CancelFactor(part, quantity);
    assert part * of == notional * (x * of);
    assert average * of * quantity == part * of;
    SameFactor(average * of, notional, quantity);
  }

  lemma {:induction false} SameFactor(a: real, b: real, c: real)
    requires c != 0.0 && a * c == b * c
    ensures a == b
  {
    CancelFactor(a, c);
    CancelFactor(b, c);
  }

  lemma {:induction false} PercentOf(net: real, basis: real, pct: real)
    requires basis != 0.0 && pct == net / basis * 100.0
    ensures pct * basis == 100.0 * net
  {
    CancelFactor(net, basis);
    var q := net / basis;
    assert q * 100.0 * basis == 100.0 * (q * basis);
  }

  /** The last SELL of any derivable list closes exactly one trade, and that trade tells when and how the
      position was entered and left, what it gained, and what share of its fees it bore. */
  lemma {:induction false} LastTradeTells(fills: seq<Fill>)
    requires fills != [] && LotsAfter(fills).Ok?
    ensures LotsAfter(fills[..|fills| - 1]).Ok?
    ensures
      var rest, f := fills[..|fills| - 1], fills[|fills| - 1];
      var before, after := LotsAfter(rest).value.trades, LotsAfter(fills).value.trades;
      if f.side == Buy then after == before
      else |after| == |before| + 1 && before <= after && Tells(after[|before|], rest, f)
  {
    hide Tracks, NeverOversold, ExitsInOrder, LotTells, TradeOf, OpenNotional, OpenFees, EntryIds, EntryIndex,
      OpenedAt, Held, Tells;
    var rest, f := fills[..|fills| - 1], fills[|fills| - 1];
    LotsTell(rest);
    DerivationDecided(rest);
    var l := LotsAfter(rest).value;
    if f.side == Sell { ClosedTradeTells(l, rest, f); }
  }

  lemma {:induction false} ClosedTradeTells(l: Lots, rest: seq<Fill>, f: Fill)
    requires Tracks(l, Held(rest), OpenedAt(rest)) && LotTells(l, rest) && f.side == Sell && Take(l, f).Ok?
    ensures l.quantity > 0.0 && l.entryTime.Some? && Tells(TradeOf(l, f), rest, f)
  {
    hide OpenNotional, OpenFees, EntryIds, EntryIndex, OpenedAt, Held, Share;
    var t := TradeOf(l, f);
    var part, entryFees := Share(l.notional, f.quantity, l.quantity), Share(l.fees, f.quantity, l.quantity);
    AveragesDivide(l.notional, f.quantity, l.quantity, part, t.averageEntry);
    AveragesDivide(l.fees, f.quantity, l.quantity, entryFees, entryFees / f.quantity);
    var basis := part + entryFees;
    assert t.averageEntry * t.quantity + (t.fees - f.fee) == basis;
    if basis != 0.0 { PercentOf(t.net, basis, t.returnPct.value); }
  }

  /** The number of SELL fills. */
  function Sells(fills: seq<Fill>): nat {
    if fills == [] then 0 else Sells(fills[..|fills| - 1]) + (if fills[|fills| - 1].side == Sell then 1 else 0)
  }

  /** Trade `k` of any derivable list tells of its SELL number `k`. */
  lemma {:induction false} EveryTradeTells(fills: seq<Fill>, j: nat)
    requires LotsAfter(fills).Ok? && j < |fills| && fills[j].side == Sell
    ensures |LotsAfter(fills).value.trades| == Sells(fills)
    ensures Sells(fills[..j]) < Sells(fills)
    ensures Tells(LotsAfter(fills).value.trades[Sells(fills[..j])], fills[..j], fills[j])
    decreases |fills|
  {
    hide Tells;
    TradesAreSells(fills);
    var n := |fills| - 1;
    LastTradeTells(fills);
    TradesAreSells(fills[..n]);
    if j < n {
      EveryTradeTells(fills[..n], j);
      assert fills[..n][..j] == fills[..j];
    }
  }

  lemma {:induction false} TradesAreSells(fills: seq<Fill>)
    requires LotsAfter(fills).Ok?
    ensures |LotsAfter(fills).value.trades| == Sells(fills)
  {
    hide Tells;
    if fills != [] {
      LastTradeTells(fills);
      TradesAreSells(fills[..|fills| - 1]);
    }
  }
}
