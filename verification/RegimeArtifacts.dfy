/** The published regime slice: rebuilding it from the snapshot and revalidating it. */
module RegimeArtifacts {
  import opened Domain
  import opened CandleFeed
  import opened Indicators
  import opened Regime
  import opened EngineSpec

  predicate Evaluated(range: DataRange, c: Candle) { range.start <= c.openTime < range.end }

  /** The points of the candles inside the evaluation range. */
  function EvaluatedPoints(range: DataRange, cs: seq<Candle>, points: seq<RegimePoint>): seq<RegimePoint>
    requires |cs| == |points|
  {
    if cs == [] then []
    else
      var n := |cs| - 1;
      EvaluatedPoints(range, cs[..n], points[..n]) + (if Evaluated(range, cs[n]) then [points[n]] else [])
  }

  /** What a rebuild from the snapshot's candles yields. */
  function Rebuild(R: Arithmetic, policy: RegimePolicy, candles: seq<Candle>, context: DataRange,
                   evaluation: DataRange): Outcome<seq<RegimePoint>> {
    if evaluation.start < context.start || evaluation.end != context.end then Err(InvalidIndicatorInput)
    else
      var stream :- ObserveAll(R, policy, Read(context, candles));
      Ok(EvaluatedPoints(evaluation, Read(context, candles), stream.points))
  }

  lemma {:induction false} ObservingFails(R: Arithmetic, policy: RegimePolicy, cs: seq<Candle>, n: nat)
    requires n <= |cs| && ObserveAll(R, policy, cs[..n]).Err?
    ensures ObserveAll(R, policy, cs) == ObserveAll(R, policy, cs[..n])
    decreases |cs|
  {
    if n == |cs| {
      assert cs[..n] == cs;
    } else {
      var rest := cs[..|cs| - 1];
      assert rest[..n] == cs[..n];
      ObservingFails(R, policy, rest, n);
    }
  }

  method RebuildObservations(R: Arithmetic, policy: RegimePolicy, candles: seq<Candle>, context: DataRange,
                             evaluation: DataRange)
    returns (r: Outcome<seq<RegimePoint>>)
    ensures r == Rebuild(R, policy, candles, context, evaluation)
  {
    hide Observe;
    if evaluation.start < context.start || evaluation.end != context.end {
      return Err(InvalidIndicatorInput);
    }
    var accumulator := new MarketRegimeAccumulator(R, policy);
    var points := [];
    ghost var all: seq<RegimePoint> := [];
    var n := 0;
    while n < |candles|
      invariant 0 <= n <= |candles|
      invariant accumulator.R == R && accumulator.policy == policy && fresh(accumulator)
      invariant forall i :: 0 <= i < n ==> !Stops(context, candles[i])
      invariant ObserveAll(R, policy, Read(context, candles[..n])) == Ok(Stream(accumulator.State(), all))
      invariant points == EvaluatedPoints(evaluation, Read(context, candles[..n]), all)
    {
      var c := candles[n];
      ReadOne(context, candles, n);
      if c.openTime < context.start {
        assert Read(context, candles[..n + 1]) == Read(context, candles[..n]);
        n := n + 1;
        continue;
      }
      if c.openTime >= context.end {
        break;
      }
      ghost var read := Read(context, candles[..n]) + [c];
      assert read[..|read| - 1] == Read(context, candles[..n]);
      var point := accumulator.Update(c);
      if point.Err? {
        ReadSplit(context, candles, n + 1);
        assert Read(context, candles)[..|read|] == read;
        ObservingFails(R, policy, Read(context, candles), |read|);
        return Err(point.error);
      }
      all := all + [point.value];
      assert all[..|all| - 1] + [point.value] == all;
      if evaluation.start <= c.openTime < evaluation.end {
        points := points + [point.value];
      }
      n := n + 1;
    }
    if n == |candles| { assert candles[..n] == candles; }
    r := Ok(points);
  }

  // Revalidation

  /** A classified point's metrics and classification follow from its averages and the close. */
  predicate MetricsHold(R: Arithmetic, policy: RegimePolicy, p: RegimePoint, close: real)
    requires close != 0.0
  {
    p.kind != Warmup ==>
      && p.fast.Some? && p.slow.Some? && p.atr.Some?
      && p.ratio == Some(AtrRatio(R, p.atr.value, close))
      && p.strength == Some(TrendStrength(R, p.fast.value, p.slow.value, p.atr.value))
      && (p.kind, p.direction) == Classify(policy, p.fast.value, p.slow.value, p.ratio.value, p.strength.value)
  }

  /** Point `i` is canonical and belongs to equity point `i`. */
  predicate PointMatches(R: Arithmetic, policy: RegimePolicy, p: RegimePoint, e: EquityPoint) {
    && p.Valid() && p.time == e.time
    && (p.kind != Warmup ==> e.close != 0.0 && MetricsHold(R, policy, p, e.close))
  }

  predicate Chronicle(points: seq<RegimePoint>) { forall i :: 0 < i < |points| ==> points[i - 1].time < points[i].time }

  predicate WarmupFirst(points: seq<RegimePoint>) {
    forall i, j :: 0 <= i < j < |points| && points[j].kind == Warmup ==> points[i].kind == Warmup
  }

  predicate ObservationsOk(R: Arithmetic, policy: RegimePolicy, points: seq<RegimePoint>, equity: seq<EquityPoint>) {
    && |points| == |equity|
    && Chronicle(points) && WarmupFirst(points)
    && forall i :: 0 <= i < |points| ==> PointMatches(R, policy, points[i], equity[i])
  }

  method ValidateObservations(R: Arithmetic, policy: RegimePolicy, points: seq<RegimePoint>, equity: seq<EquityPoint>)
    returns (r: Outcome<()>)
    ensures r.Ok? <==> ObservationsOk(R, policy, points, equity)
  {
    hide AtrRatio, TrendStrength, Chronicle;
    if |points| != |equity| {
      return Err(ResultCorrupt);
    }
    if !Chronicle(points) {
      return Err(ResultCorrupt);
    }
    var classifiedSeen := false;
    var n := 0;
    while n < |points|
      invariant 0 <= n <= |points|
      invariant forall i :: 0 <= i < n ==> PointMatches(R, policy, points[i], equity[i])
      invariant WarmupFirst(points[..n])
      invariant classifiedSeen <==> exists i :: 0 <= i < n && points[i].kind != Warmup
    {
      var point, close := points[n], equity[n].close;
      if !point.Valid() || point.time != equity[n].time {
        return Err(ResultCorrupt);
      }
      if point.kind == Warmup {
        if classifiedSeen {
          assert !WarmupFirst(points);
          return Err(ResultCorrupt);
        }
        n := n + 1;
        continue;
      }
      classifiedSeen := true;
      if close == 0.0 {
        return Err(ResultCorrupt);
      }
      var fast, slow, atr := point.fast.value, point.slow.value, point.atr.value;
      var ratio, strength := point.ratio.value, point.strength.value;
      var kind, direction := Range, NoDirection;
      if ratio >= policy.volatileRatio {
        kind := Volatile;
      } else if strength >= policy.trendThreshold && fast != slow {
        kind, direction := Trend, if fast > slow then Up else Down;
      }
      if ratio != AtrRatio(R, atr, close) || strength != TrendStrength(R, fast, slow, atr) {
        return Err(ResultCorrupt);
      }
      if point.kind != kind || point.direction != direction {
        return Err(ResultCorrupt);
      }
      n := n + 1;
    }
    assert points[..n] == points;
    r := Ok(());
  }

  // What the accumulator guarantees of every stream

  /** All averages are available from this many candles on. */
  function LongestPeriod(policy: RegimePolicy): nat {
    var averages := if policy.fast >= policy.slow then policy.fast else policy.slow;
    if averages >= policy.atr then averages else policy.atr
  }

  /** The accumulator after `n` candles ending in `last`. */
  predicate Accumulated(policy: RegimePolicy, a: RegimeState, n: nat, last: Option<Candle>) {
    && a.count == n && a.previous == last
    && (a.fast.Some? <==> n >= policy.fast) && (a.slow.Some? <==> n >= policy.slow)
    && (a.atr.Some? <==> n >= policy.atr)
  }

  /** The point of the candle at position `n`. */
  predicate PointFits(R: Arithmetic, policy: RegimePolicy, p: RegimePoint, c: Candle, n: nat) {
    && c.close > 0.0 && p.Valid() && p.time == c.closeTime
    && MetricsHold(R, policy, p, c.close)
    && (p.kind == Warmup <==> n + 1 < LongestPeriod(policy))
  }

  lemma {:induction false} ObservedFits(R: Arithmetic, policy: RegimePolicy, a: RegimeState, n: nat,
                                        last: Option<Candle>, c: Candle)
    requires Accumulated(policy, a, n, last) && Observe(R, policy, a, c).Ok?
    ensures Accumulated(policy, Observe(R, policy, a, c).value.state, n + 1, Some(c))
    ensures PointFits(R, policy, Observe(R, policy, a, c).value.point, c, n)
    ensures last.Some? ==> last.value.closeTime < c.closeTime
  {}

  /** Every point of an accepted stream is canonical, dated by its candle, later than the one
      before, and unavailable exactly while some average still is. */
  lemma {:induction false} StreamFits(R: Arithmetic, policy: RegimePolicy, cs: seq<Candle>)
    requires ObserveAll(R, policy, cs).Ok?
    ensures var s := ObserveAll(R, policy, cs).value;
      && Accumulated(policy, s.state, |cs|, if cs == [] then None else Some(cs[|cs| - 1]))
      && (forall j :: 0 <= j < |cs| ==> PointFits(R, policy, s.points[j], cs[j], j))
      && Chronicle(s.points)
  {
    hide Observe, PointFits, Accumulated;
    if cs == [] {
      assert Accumulated(policy, FRESH, 0, None) by { FreshAccumulates(policy); }
    } else {
      var n := |cs| - 1;
      StreamFits(R, policy, cs[..n]);
      var before := ObserveAll(R, policy, cs[..n]).value;
      ObservedFits(R, policy, before.state, n, if n == 0 then None else Some(cs[n - 1]), cs[n]);
      var s := ObserveAll(R, policy, cs).value;
      forall j | 0 < j < |s.points| ensures s.points[j - 1].time < s.points[j].time {
        if j == n {
          FitsDate(R, policy, s.points[n - 1], cs[n - 1], n - 1);
          FitsDate(R, policy, s.points[n], cs[n], n);
        }
      }
    }
  }

  lemma {:induction false} FreshAccumulates(policy: RegimePolicy)
    ensures Accumulated(policy, FRESH, 0, None)
  {}

  lemma {:induction false} FitsDate(R: Arithmetic, policy: RegimePolicy, p: RegimePoint, c: Candle, n: nat)
    requires PointFits(R, policy, p, c, n)
    ensures p.time == c.closeTime
  {}
}
