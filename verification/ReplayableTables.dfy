/** Any fills that replay candle by candle can be published in tables that agree: which promises about
    trades then hold is decided by how the fills are listed and dated. */
module ReplayableTables {
  import opened Domain
  import opened RealArithmetic
  import opened Accounting
  import opened Ledger
  import opened HashChain
  import opened Trades
  import opened Indicators
  import opened CandleFeed
  import opened EngineSpec
  import opened Replay
  import opened ReplayTheorems
  import opened RunTrades
  import opened Verifier
  import opened VerifierTheorems
  import opened AcceptedTables

  /** The portfolio after each candle's fills and its mark, without any curve to compare with. */
  function Closing(capital: Positive, fills: seq<Fill>, closes: seq<Positive>): Outcome<Portfolio> {
    if closes == [] then Ok(Initialize(capital))
    else
      var n := |closes| - 1;
      var before :- Closing(capital, fills, closes[..n]);
      var filled :- ApplyAll(before, FillsAt(fills, n));
      MarkToMarket(filled, closes[n])
  }

  function CurveOf(capital: Positive, fills: seq<Fill>, closes: seq<Positive>, t: int): seq<EquityPoint>
    requires Closing(capital, fills, closes).Ok?
  {
    if closes == [] then []
    else
      var n := |closes| - 1;
      var p := Closing(capital, fills, closes).value;
      CurveOf(capital, fills, closes[..n], t) +
      [EquityPoint(n, t, closes[n], p.cash, p.base, p.equity, p.peak, p.drawdown, p.drawdownPct)]
  }

  lemma {:induction false} CurveReplays(capital: Positive, fills: seq<Fill>, closes: seq<Positive>, t: int)
    requires Closing(capital, fills, closes).Ok?
    ensures var curve := CurveOf(capital, fills, closes, t);
      && |curve| == |closes| && Indexed(curve) && (forall i :: 0 <= i < |curve| ==> curve[i].time == t)
      && ReplayTo(capital, fills, curve) == Closing(capital, fills, closes)
  {
    hide ApplyAll, MarkToMarket, FillsAt;
    if closes != [] {
      var n := |closes| - 1;
      CurveReplays(capital, fills, closes[..n], t);
      var curve := CurveOf(capital, fills, closes, t);
      assert curve[..n] == CurveOf(capital, fills, closes[..n], t);
    }
  }

  /** A FILLED order for every fill, submitted at the start. */
  function OrderOf(f: Fill, start: int): Order {
    Order(f.orderId, f.orderId, start, -1, 0, Intent(f.side, Market, f.quantity, GTC, NoTag), Filled, Some(start),
          Some(f.time), None)
  }

  function OrdersOf(fills: seq<Fill>, start: int): seq<Order> {
    seq(|fills|, j requires 0 <= j < |fills| => OrderOf(fills[j], start))
  }

  /** The opening posting and one that takes the balances to the given portfolio's. */
  function BalanceEvent(capital: Positive, p: Portfolio, t: int): Event {
    Event(t, 0, FinalState, p.cash - capital, p.base, 0.0, 0.0, None, None, 0.0, None)
  }

  function BooksOf(capital: Positive, p: Portfolio, t: int): Books {
    var opening := [Post([], InitialEvent(capital, t))];
    opening + [Post(opening, BalanceEvent(capital, p, t))]
  }

  /** Postings sealed under a hash. */
  function Sealed(hash: HashFunction, b: Books): seq<Entry> {
    if b == [] then []
    else
      var before := Sealed(hash, b[..|b| - 1]);
      before + [Entry(b[|b| - 1], LastHash(before), hash(LastHash(before), b[|b| - 1]))]
  }

  lemma {:induction false} SealedIsChained(hash: HashFunction, b: Books)
    ensures Chained(hash, Sealed(hash, b)) && Bodies(Sealed(hash, b)) == b
  {
    if b != [] {
      var before, all := Sealed(hash, b[..|b| - 1]), Sealed(hash, b);
      SealedIsChained(hash, b[..|b| - 1]);
      assert |before| == |b| - 1;
      forall i: nat | i < |all| ensures LinkedAt(hash, all, i) && all[i].body == b[i] {
        if i < |before| { assert LinkedAt(hash, before, i) && Bodies(before)[i] == b[i]; }
      }
    }
  }

  lemma {:induction false} BooksAreWellPosted(capital: Positive, p: Portfolio, t: int)
    requires 0.0 <= p.cash && 0.0 <= p.base
    ensures var b := BooksOf(capital, p, t);
      WellPosted(b) && QuoteBalance(b) == p.cash && BaseBalance(b) == p.base && |b| == 2
  {
    hide WellPosted, Post, InitialEvent, BalanceEvent;
    InitialRecords(capital, t);
    var opening := [Post([], InitialEvent(capital, t))];
    assert [] + opening == opening;
    BalanceMoves(capital, p, t);
    AppendCarries(opening, BalanceEvent(capital, p, t), capital, 0.0, 0.0, 0.0);
  }

  lemma {:induction false} BalanceMoves(capital: Positive, p: Portfolio, t: int)
    ensures var e := BalanceEvent(capital, p, t);
      e.quoteDelta == p.cash - capital && e.baseDelta == p.base && e.fee == 0.0 && e.realized == 0.0
    ensures Initialize(capital).cash == capital && Initialize(capital).base == 0.0
      && Initialize(capital).fees == 0.0 && Initialize(capital).realized == 0.0
  {}

  /** Fills that are numbered, dated inside the range and belong to one of `n` candles. */
  predicate Listed(fills: seq<Fill>, n: nat, range: DataRange) {
    forall j :: 0 <= j < |fills| ==>
      && fills[j].fillId == fills[j].orderId == j + 1
      && range.Spans(fills[j].time) && fills[j].candleIndex < n
  }

  function TablesFor(hash: HashFunction, capital: Positive, range: DataRange, fills: seq<Fill>, closes: seq<Positive>)
      : Artifacts
    requires Closing(capital, fills, closes).Ok?
  {
    var p := Closing(capital, fills, closes).value;
    Artifacts(OrdersOf(fills, range.start), fills, Sealed(hash, BooksOf(capital, p, range.start)),
              if LotsAfter(fills).Ok? then LotsAfter(fills).value.trades else [],
              CurveOf(capital, fills, closes, range.end), [], None, p.View(), |closes|)
  }

  /** The hash keeps the entries of these tables apart. */
  predicate SealedApart(hash: HashFunction, capital: Positive, range: DataRange, fills: seq<Fill>,
                        closes: seq<Positive>)
  {
    Closing(capital, fills, closes).Ok? ==>
      var entries := TablesFor(hash, capital, range, fills, closes).entries; CollisionFree(hash, entries, entries)
  }

  lemma {:induction false} OrdersMatch(fills: seq<Fill>, n: nat, range: DataRange)
    requires Listed(fills, n, range)
    ensures SequencesOk(OrdersOf(fills, range.start), fills) && OrdersWithin(OrdersOf(fills, range.start), n, range)
  {
    var orders := OrdersOf(fills, range.start);
    forall i: nat | i < |orders| ensures CountFits(orders[i], FillCount(fills, i + 1)) {
      assert fills[i].orderId == i + 1;
      OneFillCountsOne(fills, i + 1);
    }
  }

  lemma {:induction false} FillTimesWithin(fills: seq<Fill>, n: nat, range: DataRange)
    requires Listed(fills, n, range)
    ensures FillsWithin(fills, n, range)
    ensures LotsAfter(fills).Ok? ==> TradesWithin(LotsAfter(fills).value.trades, range)
    ensures TradesWithin([], range)
  {
    hide LotsAfter;
    if LotsAfter(fills).Ok? { TradesKeepFillTimes(fills, range); }
  }

  lemma {:induction false} BooksWithin(capital: Positive, p: Portfolio, n: nat, range: DataRange)
    requires 0 < n && range.start < range.end
    ensures LedgerWithin(BooksOf(capital, p, range.start), n, range)
  {}

  /** Fills that replay at some closes are published by tables that agree, and are accepted exactly when
      no SELL takes more than the list holds before it and none is dated before its position was opened. */
  lemma {:induction false} ReplayableFillsAgree(hash: HashFunction, R: Arithmetic, capital: Positive, range: DataRange,
                                                fills: seq<Fill>, closes: seq<Positive>, candles: seq<Candle>)
    requires range.start < range.end && closes != [] && Listed(fills, |closes|, range)
    requires Closing(capital, fills, closes).Ok? && SealedApart(hash, capital, range, fills, closes)
    ensures var a, d := TablesFor(hash, capital, range, fills, closes), Declared(capital, range, range, None);
      && TablesAgree(hash, R, d, candles, a)
      && (Accepts(hash, R, d, candles, a) <==> NeverOversold(fills) && ExitsInOrder(fills))
  {
    hide Closing, CurveOf, LotsAfter, ReplayTo, Sealed, BooksOf, WellPosted, Chained, CollisionFree, DistinctHashes,
      OrdersWithin, FillsWithin, LedgerWithin, TradesWithin, SequencesOk, Sound, OrdersOf, Listed, ByCandle,
      NeverOversold, ExitsInOrder, Tracks;
    var p := Closing(capital, fills, closes).value;
    var b := BooksOf(capital, p, range.start);
    CurveReplays(capital, fills, closes, range.end);
    ReplayAccounts(capital, fills, CurveOf(capital, fills, closes, range.end));
    DerivationDecided(fills);
    SoundIsSigned(p);
    BooksAreWellPosted(capital, p, range.start);
    SealedIsChained(hash, b);
    BuiltLedgerHasDistinctHashes(hash, Sealed(hash, b));
    OrdersMatch(fills, |closes|, range);
    FillTimesWithin(fills, |closes|, range);
    BooksWithin(capital, p, |closes|, range);
  }

  lemma {:induction false} SoundIsSigned(p: Portfolio)
    requires Sound(p)
    ensures 0.0 <= p.cash && 0.0 <= p.base && p.View().cash == p.cash && p.View().base == p.base
  {}

  // Three fills, listed in three orders

  /** One unit traded without fees at candle `index` and instant `index`. */
  function Deal(id: nat, side: Side, index: nat, price: Positive): Fill {
    Fill(id, id, MarketOpen, Taker, side, 1.0, price, price, price, 0.0, 0.0, index, index)
  }

  /** Bought at candle 0 and sold at candle 1, with the purchase of candle 2 listed between them. */
  function SaleListedLast(u: Positive): seq<Fill> {
    [Deal(1, Buy, 0, u), Deal(2, Buy, 2, 3.0 * u), Deal(3, Sell, 1, 2.0 * u)]
  }

  /** The same with the purchase of candle 2 listed first. */
  function LastListedFirst(u: Positive): seq<Fill> {
    [Deal(1, Buy, 2, 3.0 * u), Deal(2, Buy, 0, u), Deal(3, Sell, 1, 2.0 * u)]
  }

  /** The same with the sale listed first. */
  function SaleListedFirst(u: Positive): seq<Fill> {
    [Deal(1, Sell, 1, 2.0 * u), Deal(2, Buy, 0, u), Deal(3, Buy, 2, 3.0 * u)]
  }

  predicate IsListing(u: Positive, fills: seq<Fill>) {
    fills == SaleListedLast(u) || fills == LastListedFirst(u) || fills == SaleListedFirst(u)
  }

  function ClosesAt(u: Positive): seq<Positive> { [u, 2.0 * u, 3.0 * u] }

  lemma {:induction false} BuyingOne(p: Portfolio, f: Fill)
    requires Sound(p) && f.side == Buy && f.quantity == 1.0 && f.fee == 0.0 && f.notional <= p.cash
    ensures ApplyFill(p, f).Ok?
    ensures var q := ApplyFill(p, f).value.after;
      Sound(q) && q.cash == p.cash - f.notional && q.base == p.base + 1.0 && q.cost == p.cost + f.notional
  {
    ApplyFillAccepts(p, f);
  }

  lemma {:induction false} SellingOne(p: Portfolio, f: Fill)
    requires Sound(p) && f.side == Sell && f.quantity == 1.0 && f.fee == 0.0 && (p.base == 1.0 || p.base == 2.0)
    ensures ApplyFill(p, f).Ok?
    ensures var q := ApplyFill(p, f).value.after;
      && Sound(q) && q.cash == p.cash + f.notional && q.base == p.base - 1.0
      && q.cost == (if p.base == 1.0 then 0.0 else p.cost / 2.0)
  {
    ApplyFillAccepts(p, f);
  }

  lemma {:induction false} MarkingOne(p: Portfolio, price: Positive)
    requires Sound(p)
    ensures MarkToMarket(p, price).Ok?
    ensures var q := MarkToMarket(p, price).value; Sound(q) && q.cash == p.cash && q.base == p.base && q.cost == p.cost
  {
    MarkKeepsSound(p, price);
  }

  lemma {:induction false} OneFillApplied(p: Portfolio, f: Fill)
    requires ApplyFill(p, f).Ok?
    ensures ApplyAll(p, [f]) == Ok(ApplyFill(p, f).value.after)
  {
    assert [f][..0] == [];
  }

  /** One purchase, sale or purchase per candle replays to one unit at the cost of the last. */
  lemma {:induction false} DealsReplay(u: Positive, fills: seq<Fill>, a: Fill, b: Fill, c: Fill)
    requires FillsAt(fills, 0) == [a] && FillsAt(fills, 1) == [b] && FillsAt(fills, 2) == [c]
    requires a == Deal(a.fillId, Buy, 0, u) && b == Deal(b.fillId, Sell, 1, 2.0 * u)
    requires c == Deal(c.fillId, Buy, 2, 3.0 * u)
    ensures Closing(10.0 * u, fills, ClosesAt(u)).Ok?
    ensures var p := Closing(10.0 * u, fills, ClosesAt(u)).value; p.base == 1.0 && p.cost == 3.0 * u
  {
    hide FillsAt, ApplyFill, ApplyAll, MarkToMarket, Sound;
    var closes := ClosesAt(u);
    assert closes[..2][..1] == closes[..1] && closes[..1][..0] == [];
    var p0 := Initialize(10.0 * u);
    CapitalIsSound(10.0 * u);
    BuyingOne(p0, a);
    OneFillApplied(p0, a);
    var p1 := ApplyFill(p0, a).value.after;
    MarkingOne(p1, u);
    var m1 := MarkToMarket(p1, u).value;
    SellingOne(m1, b);
    OneFillApplied(m1, b);
    var p2 := ApplyFill(m1, b).value.after;
    MarkingOne(p2, 2.0 * u);
    var m2 := MarkToMarket(p2, 2.0 * u).value;
    BuyingOne(m2, c);
    OneFillApplied(m2, c);
    var p3 := ApplyFill(m2, c).value.after;
    MarkingOne(p3, 3.0 * u);
    assert Closing(10.0 * u, fills, closes[..1][..0]) == Ok(p0);
    assert Closing(10.0 * u, fills, closes[..1]) == Ok(m1);
    assert Closing(10.0 * u, fills, closes[..2]) == Ok(m2);
  }

  lemma {:induction false} FillsAtSingle(f: Fill, index: int)
    ensures FillsAt([f], index) == if f.candleIndex == index then [f] else []
  {
    assert [f][..0] == [];
  }

  lemma {:induction false} FillsAtThree(a: Fill, b: Fill, c: Fill, index: int)
    ensures FillsAt([a, b, c], index) == FillsAt([a], index) + FillsAt([b], index) + FillsAt([c], index)
  {
    hide FillsAt;
    FillsAtJoin([a] + [b], [c], index);
    FillsAtJoin([a], [b], index);
    assert [a, b, c] == [a] + [b] + [c];
  }

  lemma {:induction false} DealsGrouped(u: Positive, fills: seq<Fill>)
    requires IsListing(u, fills)
    ensures Closing(10.0 * u, fills, ClosesAt(u)).Ok?
    ensures var p := Closing(10.0 * u, fills, ClosesAt(u)).value; p.base == 1.0 && p.cost == 3.0 * u
  {
    hide Closing, FillsAt;
    var a, b, c := fills[0], fills[1], fills[2];
    assert fills == [a, b, c];
    forall index | 0 <= index < 3
      ensures FillsAt(fills, index) ==
        (if a.candleIndex == index then [a] else []) + (if b.candleIndex == index then [b] else [])
        + (if c.candleIndex == index then [c] else [])
    {
      FillsAtThree(a, b, c, index);
      FillsAtSingle(a, index);
      FillsAtSingle(b, index);
      FillsAtSingle(c, index);
    }
    DealsReplay(u, fills, if a.candleIndex == 0 then a else b, if a.candleIndex == 1 then a else c,
                if a.candleIndex == 2 then a else if b.candleIndex == 2 then b else c);
  }

  lemma {:induction false} DealsListed(u: Positive, fills: seq<Fill>)
    requires IsListing(u, fills)
    ensures Listed(fills, 3, DataRange(0, 3))
  {}

  predicate AcceptedUnexplained(hash: HashFunction, R: Arithmetic, capital: Positive, range: DataRange,
                                fills: seq<Fill>, closes: seq<Positive>, candles: seq<Candle>)
  {
    && Closing(capital, fills, closes).Ok?
    && var a := TablesFor(hash, capital, range, fills, closes);
    Accepts(hash, R, Declared(capital, range, range, None), candles, a) && !TradesExplain(a.fills, a.final)
  }

  predicate AgreedUnderivable(hash: HashFunction, R: Arithmetic, capital: Positive, range: DataRange,
                              fills: seq<Fill>, closes: seq<Positive>, candles: seq<Candle>, raised: Failure)
  {
    && Closing(capital, fills, closes).Ok?
    && TablesAgree(hash, R, Declared(capital, range, range, None), candles,
                   TablesFor(hash, capital, range, fills, closes))
    && LotsAfter(fills) == Err(raised)
  }

  /** The prefixes of three fills, folded. */
  lemma {:induction false} ThreeFolds(a: Fill, b: Fill, c: Fill)
    ensures var fills := [a, b, c];
      && fills[..0] == [] && fills[..1] == [a] && fills[..2] == [a, b] && fills[..2][..1] == [a]
      && [a, b][..1] == [a] && [a][..0] == []
  {}

  lemma {:induction false} FoldPair(a: Fill, b: Fill)
    requires a.side == Buy && b.side == Buy
    ensures Held([a]) == a.quantity && Held([a, b]) == a.quantity as real + b.quantity
    ensures OpenedAt([a]) == Some(a.time) && OpenedAt([a, b]) == Some(a.time)
    ensures OpenCost([a, b]) == a.notional + a.fee + b.notional + b.fee
  {
    assert [a][..0] == [] && [a, b][..1] == [a];
    assert OpenCost([a]) == OpenCost([]) + a.notional + a.fee;
  }

  lemma {:induction false} SaleListedLastCosts(u: Positive, fills: seq<Fill>)
    requires fills == SaleListedLast(u)
    ensures NeverOversold(fills) && ExitsInOrder(fills) && OpenCost(fills) == 2.0 * u
  {
    hide Held, OpenedAt;
    ThreeFolds(fills[0], fills[1], fills[2]);
    FoldPair(fills[0], fills[1]);
    assert OpenCost(fills) == OpenCost(fills[..2]) - ProRata(OpenCost(fills[..2]), 1.0, 2.0);
    forall j: nat | j < |fills| ensures Covered(fills, j) && ExitInOrder(fills, j) {}
  }

  /** Tables the verifier accepts although their trades do not explain the portfolio: the sale is
      matched with both purchases, one of which came after it. */
  lemma {:induction false} AcceptedWithoutExplanation(hash: HashFunction, R: Arithmetic, u: Positive,
                                                      candles: seq<Candle>)
    requires SealedApart(hash, 10.0 * u, DataRange(0, 3), SaleListedLast(u), ClosesAt(u))
    ensures AcceptedUnexplained(hash, R, 10.0 * u, DataRange(0, 3), SaleListedLast(u), ClosesAt(u), candles)
  {
    hide Closing, LotsAfter, Accepts, TablesAgree, CollisionFree, Listed, CurveOf, Sealed, BooksOf, OrdersOf, OpenCost,
      NeverOversold, ExitsInOrder, NetPnl, GrossProfit, GrossLoss, CashFlow;
    var fills, range := SaleListedLast(u), DataRange(0, 3);
    DealsListed(u, fills);
    DealsGrouped(u, fills);
    SaleListedLastCosts(u, fills);
    DerivationDecided(fills);
    LotFolds(fills);
    ReplayableFillsAgree(hash, R, 10.0 * u, range, fills, ClosesAt(u), candles);
  }

  lemma {:induction false} LastListedFirstIsRefused(u: Positive, fills: seq<Fill>)
    requires fills == LastListedFirst(u)
    ensures NeverOversold(fills) && FirstRefused(fills, 2) && RefusalOf(fills, 2) == InvalidTrade
  {
    hide Held, OpenedAt;
    ThreeFolds(fills[0], fills[1], fills[2]);
    FoldPair(fills[0], fills[1]);
    forall j: nat | j < |fills| ensures Covered(fills, j) {}
    assert !ExitInOrder(fills, 2);
  }

  /** Tables that agree although deriving their trades raises: the sale is listed after a later purchase. */
  lemma {:induction false} AgreedWithoutTrades(hash: HashFunction, R: Arithmetic, u: Positive, candles: seq<Candle>)
    requires SealedApart(hash, 10.0 * u, DataRange(0, 3), LastListedFirst(u), ClosesAt(u))
    ensures AgreedUnderivable(hash, R, 10.0 * u, DataRange(0, 3), LastListedFirst(u), ClosesAt(u), candles,
                              InvalidTrade)
  {
    hide Closing, LotsAfter, TablesAgree, CollisionFree, Listed, CurveOf, Sealed, BooksOf, OrdersOf, FirstRefused,
      RefusalOf, NeverOversold, ExitsInOrder;
    var fills := LastListedFirst(u);
    DealsListed(u, fills);
    DealsGrouped(u, fills);
    LastListedFirstIsRefused(u, fills);
    FirstRefusalDecides(fills, 2);
    ReplayableFillsAgree(hash, R, 10.0 * u, DataRange(0, 3), fills, ClosesAt(u), candles);
  }

  lemma {:induction false} SaleListedFirstIsRefused(u: Positive, fills: seq<Fill>)
    requires fills == SaleListedFirst(u)
    ensures ExitsInOrder(fills) && FirstRefused(fills, 0) && RefusalOf(fills, 0) == OversoldTrade
  {
    assert fills[..0] == [];
    assert !Covered(fills, 0);
    forall j: nat | j < |fills| ensures ExitInOrder(fills, j) {}
  }

  /** Tables that agree although deriving their trades raises for want of a position: the sale, dated
      after its purchase, is listed before it. */
  lemma {:induction false} AgreedButOversold(hash: HashFunction, R: Arithmetic, u: Positive, candles: seq<Candle>)
    requires SealedApart(hash, 10.0 * u, DataRange(0, 3), SaleListedFirst(u), ClosesAt(u))
    ensures AgreedUnderivable(hash, R, 10.0 * u, DataRange(0, 3), SaleListedFirst(u), ClosesAt(u), candles,
                              OversoldTrade)
  {
    hide Closing, LotsAfter, TablesAgree, CollisionFree, Listed, CurveOf, Sealed, BooksOf, OrdersOf, FirstRefused,
      RefusalOf, NeverOversold, ExitsInOrder;
    var fills := SaleListedFirst(u);
    DealsListed(u, fills);
    DealsGrouped(u, fills);
    SaleListedFirstIsRefused(u, fills);
    FirstRefusalDecides(fills, 0);
    ReplayableFillsAgree(hash, R, 10.0 * u, DataRange(0, 3), fills, ClosesAt(u), candles);
  }
}
