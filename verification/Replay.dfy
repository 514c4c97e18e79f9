/** The verifier's replay: rebuilding the equity curve from fills and closes alone. */
module Replay {
  import opened Domain
  import opened Accounting
  import opened Strategy
  import opened EngineSpec

  /** The fills of one candle, in order. */
  function FillsAt(fills: seq<Fill>, index: int): seq<Fill> {
    if fills == [] then []
    else
      var last := fills[|fills| - 1];
      FillsAt(fills[..|fills| - 1], index) + (if last.candleIndex == index then [last] else [])
  }

  predicate Matches(p: Portfolio, point: EquityPoint) {
    && p.cash == point.cash && p.base == point.base && p.equity == point.equity
    && p.peak == point.peak && p.drawdown == point.drawdown && p.drawdownPct == point.drawdownPct
  }

  function ReplayPoint(p: Portfolio, fills: seq<Fill>, point: EquityPoint): Outcome<Portfolio> {
    var filled :- ApplyAll(p, FillsAt(fills, point.candleIndex));
    var marked :- MarkToMarket(filled, point.close);
    if Matches(marked, point) then Ok(marked) else Err(ResultCorrupt)
  }

  function ReplayTo(capital: Positive, fills: seq<Fill>, equity: seq<EquityPoint>): Outcome<Portfolio> {
    if equity == [] then Ok(Initialize(capital))
    else
      var before :- ReplayTo(capital, fills, equity[..|equity| - 1]);
      ReplayPoint(before, fills, equity[|equity| - 1])
  }

  /** The curve is reconstructible and ends in the published portfolio. */
  predicate Reconstructs(capital: Positive, fills: seq<Fill>, equity: seq<EquityPoint>, final: Portfolio) {
    var r := ReplayTo(capital, fills, equity);
    r.Ok? && r.value.View() == final
  }

  ghost predicate Groups(byCandle: map<int, seq<Fill>>, fills: seq<Fill>) {
    forall i: int :: (if i in byCandle then byCandle[i] else []) == FillsAt(fills, i)
  }

  method GroupByCandle(fills: seq<Fill>) returns (byCandle: map<int, seq<Fill>>)
    ensures Groups(byCandle, fills)
  {
    byCandle := map[];
    var k := 0;
    while k < |fills|
      invariant 0 <= k <= |fills|
      invariant Groups(byCandle, fills[..k])
    {
      var fill := fills[k];
      assert fills[..k + 1][..k] == fills[..k];
      var sofar := if fill.candleIndex in byCandle then byCandle[fill.candleIndex] else [];
      byCandle := byCandle[fill.candleIndex := sofar + [fill]];
      k := k + 1;
    }
    assert fills[..k] == fills;
  }

  method ApplyDueFills(start: Portfolio, due: seq<Fill>) returns (r: Outcome<Portfolio>)
    ensures r.Ok? ==> ApplyAll(start, due) == r
    ensures r.Err? ==> ApplyAll(start, due).Err?
  {
    var portfolio := start;
    var m := 0;
    while m < |due|
      invariant 0 <= m <= |due|
      invariant ApplyAll(start, due[..m]) == Ok(portfolio)
    {
      assert due[..m + 1][..m] == due[..m];
      var mutation := ApplyFill(portfolio, due[m]);
      if mutation.Err? {
        ApplyAllFails(start, due, m + 1);
        return Err(mutation.error);
      }
      portfolio := mutation.value.after;
      m := m + 1;
    }
    assert due[..m] == due;
    r := Ok(portfolio);
  }

  /** The replay as the verifier performs it. */
  method ReplayEquity(capital: Positive, fills: seq<Fill>, equity: seq<EquityPoint>, final: Portfolio)
      returns (r: Outcome<()>)
    ensures r.Ok? <==> Reconstructs(capital, fills, equity, final)
  {
    hide MarkToMarket, ApplyAll, Matches, FillsAt;
    var byCandle := GroupByCandle(fills);
    var portfolio := Initialize(capital);
    var n := 0;
    while n < |equity|
      invariant 0 <= n <= |equity|
      invariant ReplayTo(capital, fills, equity[..n]) == Ok(portfolio)
    {
      var point := equity[n];
      assert equity[..n + 1][..n] == equity[..n];
      var due := if point.candleIndex in byCandle then byCandle[point.candleIndex] else [];
      var filled := ApplyDueFills(portfolio, due);
      if filled.Err? {
        ReplayFails(capital, fills, equity, n + 1);
        return Err(filled.error);
      }
      var marked := MarkToMarket(filled.value, point.close);
      if marked.Err? {
        ReplayFails(capital, fills, equity, n + 1);
        return Err(marked.error);
      }
      if !Matches(marked.value, point) {
        ReplayFails(capital, fills, equity, n + 1);
        return Err(ResultCorrupt);
      }
      portfolio := marked.value;
      n := n + 1;
    }
    assert equity[..n] == equity;
    if portfolio.View() != final {
      return Err(ResultCorrupt);
    }
    r := Ok(());
  }

  lemma {:induction false} ApplyAllFails(p: Portfolio, fills: seq<Fill>, n: nat)
    requires n <= |fills| && ApplyAll(p, fills[..n]).Err?
    ensures ApplyAll(p, fills).Err?
    decreases |fills|
  {
    if n == |fills| {
      assert fills[..n] == fills;
    } else {
      assert fills[..|fills| - 1][..n] == fills[..n];
      ApplyAllFails(p, fills[..|fills| - 1], n);
    }
  }

  lemma {:induction false} ReplayFails(capital: Positive, fills: seq<Fill>, equity: seq<EquityPoint>, n: nat)
    requires n <= |equity| && ReplayTo(capital, fills, equity[..n]).Err?
    ensures ReplayTo(capital, fills, equity).Err?
    decreases |equity|
  {
    if n == |equity| {
      assert equity[..n] == equity;
    } else {
      assert equity[..|equity| - 1][..n] == equity[..n];
      ReplayFails(capital, fills, equity[..|equity| - 1], n);
    }
  }

  lemma {:induction false} ApplyAllJoins(p: Portfolio, a: seq<Fill>, b: seq<Fill>)
    requires ApplyAll(p, a).Ok?
    ensures ApplyAll(p, a + b) == ApplyAll(ApplyAll(p, a).value, b)
    decreases |b|
  {
    if b == [] {
      assert a + b == a;
    } else {
      assert (a + b)[..|a + b| - 1] == a + b[..|b| - 1];
      ApplyAllJoins(p, a, b[..|b| - 1]);
    }
  }

  // Inside one candle the portfolio is a fold over the candle's fills

  /** `b` is `a` after some fills of candle `index` at its open `t`, and nothing else. */
  predicate Folds(a: Book, b: Book, index: int, t: int) {
    && a.fills <= b.fills
    && (forall j :: |a.fills| <= j < |b.fills| ==> b.fills[j].candleIndex == index && b.fills[j].time == t)
    && ApplyAll(a.portfolio, b.fills[|a.fills|..]) == Ok(b.portfolio)
  }

  lemma {:induction false} FoldsTransitive(a: Book, b: Book, c: Book, index: int, t: int)
    requires Folds(a, b, index, t) && Folds(b, c, index, t)
    ensures Folds(a, c, index, t)
  {
    var first, second := b.fills[|a.fills|..], c.fills[|b.fills|..];
    assert c.fills[|a.fills|..] == first + second;
    ApplyAllJoins(a.portfolio, first, second);
    assert forall j :: 0 <= j < |b.fills| ==> c.fills[j] == b.fills[j];
  }

  lemma {:induction false} TakeFillFolds(cfg: Config, b: Book, position: nat, f: Fill, index: int)
    requires position < |b.orders| && f.candleIndex == index && TakeFill(cfg, b, position, f, index).Ok?
    ensures Folds(b, TakeFill(cfg, b, position, f, index).value, index, f.time)
  {
    var r := TakeFill(cfg, b, position, f, index).value;
    assert r.fills[|b.fills|..] == [f];
    assert [f][..0] == [];
  }

  lemma {:induction false} JudgedFillIndex(cfg: Config, b: Book, o: Order, c: Candle, index: nat)
    ensures var v := Judge(cfg, b, o, c, index);
      v.Ok? && v.value.Execute? ==> v.value.fill.candleIndex == index && v.value.fill.time == c.openTime
  {}

  lemma {:induction false} ProcessOrderFolds(env: Env, s: State, c: Candle, position: nat)
    requires ProcessOrder(env, s, c, position).Ok?
    ensures var s' := ProcessOrder(env, s, c, position).value;
      Folds(s.book, s'.book, s.processed, c.openTime) && s'.processed == s.processed
  {
    hide Judge, TakeFill, CallStrategy, EngineSpec.Submit;
    var o := s.book.orders[position];
    JudgedFillIndex(env.cfg, s.book, o, c, s.processed);
    var v := Judge(env.cfg, s.book, o, c, s.processed).value;
    if v.Execute? { TakeFillFolds(env.cfg, s.book, position, v.fill, s.processed); }
    ResponseKeepsMoney(env);
  }

  /** Calling the strategy and submitting its intents moves no money and no candle counter. */
  lemma {:induction false} ResponseKeepsMoney(env: Env)
    ensures forall s: State, call: Call, i: int, t: int, r: real :: Respond(env, s, call, i, t, r).Ok? ==>
      var s' := Respond(env, s, call, i, t, r).value;
      s'.book.portfolio == s.book.portfolio && s'.book.fills == s.book.fills && s'.processed == s.processed
      && s'.equity == s.equity
  {}

  lemma {:induction false} ProcessOrdersFold(env: Env, s: State, c: Candle, positions: seq<nat>)
    requires ProcessOrders(env, s, c, positions).Ok?
    ensures var s' := ProcessOrders(env, s, c, positions).value;
      Folds(s.book, s'.book, s.processed, c.openTime) && s'.processed == s.processed
  {
    if positions != [] {
      var rest := positions[..|positions| - 1];
      ProcessOrdersFold(env, s, c, rest);
      var before := ProcessOrders(env, s, c, rest).value;
      ProcessOrderFolds(env, before, c, positions[|positions| - 1]);
      FoldsTransitive(s.book, before.book, ProcessOrders(env, s, c, positions).value.book, s.processed, c.openTime);
    }
  }

  lemma {:induction false} TradeCandleFolds(env: Env, s: State, c: Candle)
    requires TradeCandle(env, s, c).Ok?
    ensures var s' := TradeCandle(env, s, c).value;
      Folds(s.book, s'.book, s.processed, c.openTime) && s'.processed == s.processed
  {
    var s1 := SubmitPending(env, s, c).value;
    var positions := EligiblePositions(s1.book.orders, s1.processed);
    ProcessOrdersFold(env, s1, c, positions);
    var s2 := ProcessOrders(env, s1, c, positions).value;
    assert s1.book.portfolio == s.book.portfolio && s1.book.fills == s.book.fills;
  }
}
