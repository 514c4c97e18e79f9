/** Append-only, hash-chained ledger: its postings, its builder and its independent verification. */
module Ledger {
  import opened Domain
  import opened Accounting

  datatype EventKind = InitialCapital | BuyFill | SellFill | Fee | RealizedPnl | MarkToMarketEvent | FinalState

  datatype Event = Event(
    time: int, candleIndex: int, kind: EventKind, quoteDelta: real, baseDelta: real,
    fee: real, realized: real, orderId: Option<nat>, fillId: Option<nat>,
    notional: real, reference: Option<real>)

  datatype Posting = Posting(sequence: nat, event: Event, quoteBalance: real, baseBalance: real)

  type Books = seq<Posting>

  function QuoteBalance(b: Books): real { if b == [] then 0.0 else b[|b| - 1].quoteBalance }

  function BaseBalance(b: Books): real { if b == [] then 0.0 else b[|b| - 1].baseBalance }

  function Post(b: Books, e: Event): Posting {
    Posting(|b| + 1, e, QuoteBalance(b) + e.quoteDelta, BaseBalance(b) + e.baseDelta)
  }

  function Append(b: Books, e: Event): Outcome<Books> {
    if Post(b, e).quoteBalance < 0.0 || Post(b, e).baseBalance < 0.0 then Err(LedgerNegative)
    else Ok(b + [Post(b, e)])
  }

  function InitialEvent(capital: Positive, t: int): Event {
    Event(t, -1, InitialCapital, capital, 0.0, 0.0, 0.0, None, None, 0.0, None)
  }

  function FillEvent(f: Fill): Event {
    var notional: real := f.notional;
    var quantity: real := f.quantity;
    if f.side == Buy then
      Event(f.time, f.candleIndex, BuyFill, -notional, quantity, 0.0, 0.0,
            Some(f.orderId), Some(f.fillId), notional, Some(f.price))
    else
      Event(f.time, f.candleIndex, SellFill, notional, -quantity, 0.0, 0.0,
            Some(f.orderId), Some(f.fillId), notional, Some(f.price))
  }

  function FeeEvent(f: Fill): Event {
    var fee: real := f.fee;
    Event(f.time, f.candleIndex, Fee, -fee, 0.0, fee, 0.0, Some(f.orderId), Some(f.fillId), 0.0, Some(f.price))
  }

  function RealizedEvent(f: Fill, realized: real): Event {
    Event(f.time, f.candleIndex, RealizedPnl, 0.0, 0.0, 0.0, realized, Some(f.orderId), Some(f.fillId), 0.0,
      Some(f.price))
  }

  function MarkEvent(p: Portfolio, t: int, index: int, final: bool): Event {
    Event(t, index, if final then FinalState else MarkToMarketEvent, 0.0, 0.0, 0.0, 0.0, None, None, 0.0, p.lastMark)
  }

  predicate Agrees(b: Books, p: Portfolio) { QuoteBalance(b) == p.cash && BaseBalance(b) == p.base }

  function RecordFill(b: Books, f: Fill, m: Mutation): Outcome<Books> {
    var b1 :- Append(b, FillEvent(f));
    var b2 :- if f.fee != 0.0 then Append(b1, FeeEvent(f)) else Ok(b1);
    var b3 :- if m.realizedDelta != 0.0 then Append(b2, RealizedEvent(f, m.realizedDelta)) else Ok(b2);
    if Agrees(b3, m.after) then Ok(b3) else Err(LedgerDivergence)
  }

  function RecordMark(b: Books, p: Portfolio, t: int, index: int, final: bool): Outcome<Books> {
    if b == [] || !Agrees(b, p) then Err(LedgerDivergence) else Append(b, MarkEvent(p, t, index, final))
  }

  /** Posting `i` counts up from one and carries on the balances before it, none negative. */
  predicate PostedAt(b: Books, i: nat)
    requires i < |b|
  {
    && b[i].sequence == i + 1
    && b[i].quoteBalance == (if i == 0 then 0.0 else b[i - 1].quoteBalance) + b[i].event.quoteDelta
    && b[i].baseBalance == (if i == 0 then 0.0 else b[i - 1].baseBalance) + b[i].event.baseDelta
    && 0.0 <= b[i].quoteBalance && 0.0 <= b[i].baseBalance
  }

  predicate WellPosted(b: Books) { forall i: nat :: i < |b| ==> PostedAt(b, i) }

  function TotalQuote(b: Books): real {
    if b == [] then 0.0 else TotalQuote(b[..|b| - 1]) + b[|b| - 1].event.quoteDelta
  }

  function TotalBase(b: Books): real { if b == [] then 0.0 else TotalBase(b[..|b| - 1]) + b[|b| - 1].event.baseDelta }

  function TotalFees(b: Books): real { if b == [] then 0.0 else TotalFees(b[..|b| - 1]) + b[|b| - 1].event.fee }

  function TotalRealized(b: Books): real {
    if b == [] then 0.0 else TotalRealized(b[..|b| - 1]) + b[|b| - 1].event.realized
  }

  /** In well-posted books the last balances are the sums of every delta ever posted. */
  lemma {:induction false} BalancesAreSums(b: Books)
    requires WellPosted(b)
    ensures QuoteBalance(b) == TotalQuote(b) && BaseBalance(b) == TotalBase(b)
  {
    if b != [] {
      var rest := b[..|b| - 1];
      WellPostedPrefix(b, |b| - 1);
      BalancesAreSums(rest);
      assert PostedAt(b, |b| - 1);
    }
  }

  lemma {:induction false} WellPostedPrefix(b: Books, n: nat)
    requires n <= |b| && WellPosted(b)
    ensures WellPosted(b[..n])
  {
    forall i: nat | i < n ensures PostedAt(b[..n], i) { assert PostedAt(b, i); }
  }

  lemma {:induction false} AppendKeepsBooks(b: Books, e: Event)
    requires WellPosted(b)
    ensures Append(b, e).Ok? <==> QuoteBalance(b) + e.quoteDelta >= 0.0 && BaseBalance(b) + e.baseDelta >= 0.0
    ensures Append(b, e).Ok? ==>
      var b' := Append(b, e).value;
      && WellPosted(b') && |b'| == |b| + 1 && b <= b'
      && QuoteBalance(b') == QuoteBalance(b) + e.quoteDelta
      && BaseBalance(b') == BaseBalance(b) + e.baseDelta
      && TotalFees(b') == TotalFees(b) + e.fee
      && TotalRealized(b') == TotalRealized(b) + e.realized
  {
    var b' := b + [Post(b, e)];
    assert b'[..|b|] == b;
    if Append(b, e).Ok? {
      forall i: nat | i < |b'| ensures PostedAt(b', i) {
        if i < |b| { assert PostedAt(b, i); }
      }
    }
  }

  /** Well-posted books whose balances and totals are the given ones. */
  predicate Carries(b: Books, cash: real, base: real, fees: real, realized: real) {
    && b != [] && WellPosted(b)
    && QuoteBalance(b) == cash && BaseBalance(b) == base
    && TotalFees(b) == fees && TotalRealized(b) == realized
  }

  /** What the books and the portfolio they record agree on in every reachable state. */
  predicate Records(b: Books, p: Portfolio) { Carries(b, p.cash, p.base, p.fees, p.realized) }

  lemma {:induction false} AppendCarries(b: Books, e: Event, cash: real, base: real, fees: real, realized: real)
    requires Carries(b, cash, base, fees, realized)
    requires 0.0 <= cash + e.quoteDelta && 0.0 <= base + e.baseDelta
    ensures Append(b, e).Ok?
    ensures var b' := Append(b, e).value;
      && Carries(b', cash + e.quoteDelta, base + e.baseDelta, fees + e.fee, realized + e.realized)
      && b <= b' && |b'| == |b| + 1
  {
    AppendKeepsBooks(b, e);
  }

  lemma {:induction false} InitialRecords(capital: Positive, t: int)
    ensures Append([], InitialEvent(capital, t)).Ok?
    ensures Records(Append([], InitialEvent(capital, t)).value, Initialize(capital))
  {
    AppendKeepsBooks([], InitialEvent(capital, t));
  }

  /** Recording a fill the portfolio accepted never fails and keeps books and portfolio agreed. */
  lemma {:induction false} RecordFillAgrees(b: Books, p: Portfolio, f: Fill)
    requires Sound(p) && Records(b, p) && ApplyFill(p, f).Ok?
    ensures RecordFill(b, f, ApplyFill(p, f).value).Ok?
    ensures
      var m := ApplyFill(p, f).value;
      var b' := RecordFill(b, f, m).value;
      Records(b', m.after) && b <= b' && |b| < |b'| <= |b| + 3
  {
    ApplyFillAccepts(p, f);
    var m := ApplyFill(p, f).value;
    RecordMutation(b, p, f, m);
  }

  lemma {:induction false} RecordMutation(b: Books, p: Portfolio, f: Fill, m: Mutation)
    requires Records(b, p) && Affordable(p, f) && 0.0 <= p.cash && 0.0 <= p.base
    requires m.after.cash == p.cash + m.quoteDelta && m.after.base == p.base + m.baseDelta
    requires m.after.realized == p.realized + m.realizedDelta && m.after.fees == p.fees + f.fee
    requires m.baseDelta == (if f.side == Buy then f.quantity else -(f.quantity as real))
    requires m.quoteDelta == (if f.side == Buy then -(f.notional + f.fee) else f.notional - f.fee)
    ensures RecordFill(b, f, m).Ok?
    ensures var b' := RecordFill(b, f, m).value;
      Records(b', m.after) && b <= b' && |b| < |b'| <= |b| + 3
  {
    var fill := FillEvent(f);
    AppendCarries(b, fill, p.cash, p.base, p.fees, p.realized);
    var b1 := Append(b, fill).value;
    var cash, base := p.cash + fill.quoteDelta, p.base + fill.baseDelta;
    var b2 := b1;
    if f.fee != 0.0 {
      AppendCarries(b1, FeeEvent(f), cash, base, p.fees, p.realized);
      b2 := Append(b1, FeeEvent(f)).value;
    }
    assert Carries(b2, m.after.cash, base, m.after.fees, p.realized);
    if m.realizedDelta != 0.0 {
      AppendCarries(b2, RealizedEvent(f, m.realizedDelta), m.after.cash, base, m.after.fees, p.realized);
    }
  }

  lemma {:induction false} RecordMarkAgrees(b: Books, p: Portfolio, marked: Portfolio, t: int, index: int, final: bool)
    requires Records(b, p) && 0.0 <= p.cash && 0.0 <= p.base
    requires marked.cash == p.cash && marked.base == p.base && marked.fees == p.fees && marked.realized == p.realized
    ensures RecordMark(b, marked, t, index, final).Ok?
    ensures var b' := RecordMark(b, marked, t, index, final).value;
      Records(b', marked) && b <= b' && |b'| == |b| + 1
  {
    AppendCarries(b, MarkEvent(marked, t, index, final), p.cash, p.base, p.fees, p.realized);
  }

  /** No posting ever left less cash than the floor. */
  predicate Floored(b: Books, floor: real) { forall i :: 0 <= i < |b| ==> floor <= b[i].quoteBalance }

  lemma {:induction false} AppendFloored(b: Books, e: Event, floor: real)
    requires Floored(b, floor) && floor <= QuoteBalance(b) + e.quoteDelta
    ensures Append(b, e).Ok? ==>
      Floored(Append(b, e).value, floor) && QuoteBalance(Append(b, e).value) == QuoteBalance(b) + e.quoteDelta
  {}

  /** A fill whose cash is above the floor before and after posts nothing below it in between. */
  lemma {:induction false} RecordFillFloored(b: Books, f: Fill, m: Mutation, cash: real, floor: real)
    requires Floored(b, floor) && QuoteBalance(b) == cash >= floor && RecordFill(b, f, m).Ok?
    requires m.after.cash == cash + m.quoteDelta >= floor
    requires m.quoteDelta == (if f.side == Buy then -(f.notional + f.fee) else f.notional - f.fee)
    ensures Floored(RecordFill(b, f, m).value, floor)
  {
    hide Append, Floored, Agrees;
    AppendFloored(b, FillEvent(f), floor);
    var b1 := Append(b, FillEvent(f)).value;
    if f.fee != 0.0 { AppendFloored(b1, FeeEvent(f), floor); }
    var b2 := if f.fee != 0.0 then Append(b1, FeeEvent(f)).value else b1;
    if m.realizedDelta != 0.0 { AppendFloored(b2, RealizedEvent(f, m.realizedDelta), floor); }
  }

  lemma {:induction false} RecordMarkFloored(b: Books, p: Portfolio, t: int, index: int, final: bool, floor: real)
    requires Floored(b, floor) && floor <= p.cash && QuoteBalance(b) == p.cash && RecordMark(b, p, t, index, final).Ok?
    ensures Floored(RecordMark(b, p, t, index, final).value, floor)
  {
    AppendFloored(b, MarkEvent(p, t, index, final), floor);
  }

  // What the postings say

  /** The posting that moves a fill's notional and quantity. */
  predicate PostsFill(e: Event, f: Fill) {
    && e.kind == (if f.side == Buy then BuyFill else SellFill) && e.time == f.time && e.candleIndex == f.candleIndex
    && e.quoteDelta == (if f.side == Buy then -(f.notional as real) else f.notional)
    && e.baseDelta == (if f.side == Buy then f.quantity else -(f.quantity as real))
    && e.fee == 0.0 && e.realized == 0.0
    && e.orderId == Some(f.orderId) && e.fillId == Some(f.fillId) && e.notional == f.notional
    && e.reference == Some(f.price)
  }

  /** The posting that charges a fill's fee. */
  predicate PostsFee(e: Event, f: Fill) {
    && e.kind == Fee && e.time == f.time && e.candleIndex == f.candleIndex
    && e.quoteDelta == -(f.fee as real) && e.baseDelta == 0.0 && e.fee == f.fee && e.realized == 0.0
    && e.orderId == Some(f.orderId) && e.fillId == Some(f.fillId) && e.notional == 0.0 && e.reference == Some(f.price)
  }

  /** The posting that books the profit a fill realized. */
  predicate PostsProfit(e: Event, f: Fill, realized: real) {
    && e.kind == RealizedPnl && e.time == f.time && e.candleIndex == f.candleIndex
    && e.quoteDelta == 0.0 && e.baseDelta == 0.0 && e.fee == 0.0 && e.realized == realized
    && e.orderId == Some(f.orderId) && e.fillId == Some(f.fillId) && e.notional == 0.0 && e.reference == Some(f.price)
  }

  /** The posting of a valuation at a close. */
  predicate PostsMark(e: Event, close: real, t: int, index: int, final: bool) {
    && e.kind == (if final then FinalState else MarkToMarketEvent) && e.time == t && e.candleIndex == index
    && e.quoteDelta == 0.0 && e.baseDelta == 0.0 && e.fee == 0.0 && e.realized == 0.0
    && e.orderId.None? && e.fillId.None? && e.notional == 0.0 && e.reference == Some(close)
  }

  /** A fill is posted first, then its fee if it has one, then its profit if it realized one. */
  lemma {:induction false} FillsArePosted(b: Books, f: Fill, m: Mutation)
    requires RecordFill(b, f, m).Ok?
    ensures var r, n := RecordFill(b, f, m).value, |b|;
      var fees, profits := if f.fee != 0.0 then 1 else 0, if m.realizedDelta != 0.0 then 1 else 0;
      && b <= r && |r| == n + 1 + fees + profits
      && PostsFill(r[n].event, f)
      && (f.fee != 0.0 ==> PostsFee(r[n + 1].event, f))
      && (m.realizedDelta != 0.0 ==> PostsProfit(r[n + 1 + fees].event, f, m.realizedDelta))
  {}

  lemma {:induction false} MarksArePosted(b: Books, p: Portfolio, close: real, t: int, index: int, final: bool)
    requires RecordMark(b, p, t, index, final).Ok? && p.lastMark == Some(close)
    ensures var r := RecordMark(b, p, t, index, final).value;
      b <= r && |r| == |b| + 1 && PostsMark(r[|b|].event, close, t, index, final)
  {}
}
