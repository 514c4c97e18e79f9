/** Market-regime classification: the whole-series detector, the fixed-memory accumulator that
    must agree with it, and the checks a published slice goes through. */
module Regime {
  import opened Domain
  import opened Indicators

  datatype RegimeKind = Warmup | Trend | Range | Volatile
  datatype Direction = NoDirection | Up | Down

  datatype RegimePoint = RegimePoint(
    time: int, kind: RegimeKind, direction: Direction, fast: Option<real>, slow: Option<real>,
    atr: Option<real>, ratio: Option<real>, strength: Option<real>)
  {
    /** The contract every constructed point is checked against. */
    predicate Valid() {
      if kind == Warmup then
        direction == NoDirection && fast.None? && slow.None? && atr.None? && ratio.None? && strength.None?
      else
        && fast.Some? && slow.Some? && atr.Some? && ratio.Some? && strength.Some?
        && 0.0 <= atr.value && 0.0 <= ratio.value && 0.0 <= strength.value
        && (kind == Trend <==> direction != NoDirection)
    }
  }

  function AtrRatio(R: Arithmetic, atr: real, close: real): real { R.round(R.divide(atr, close)) }

  function TrendStrength(R: Arithmetic, fast: real, slow: real, atr: real): real {
    if atr == 0.0 then 0.0 else R.round(R.divide(R.absolute(R.subtract(fast, slow)), atr))
  }

  function Classify(policy: RegimePolicy, fast: real, slow: real, ratio: real, strength: real)
      : (RegimeKind, Direction)
  {
    if ratio >= policy.volatileRatio then (Volatile, NoDirection)
    else if strength >= policy.trendThreshold && fast != slow then (Trend, if fast > slow then Up else Down)
    else (Range, NoDirection)
  }

  /** The classification of one candle from its three averages, where all are available. */
  function PointFor(R: Arithmetic, policy: RegimePolicy, c: Candle, fast: Option<real>, slow: Option<real>,
                    atr: Option<real>): RegimePoint
    requires c.close > 0.0
  {
    if fast.None? || slow.None? || atr.None? then
      RegimePoint(c.closeTime, Warmup, NoDirection, None, None, None, None, None)
    else
      var ratio := AtrRatio(R, atr.value, c.close);
      var strength := TrendStrength(R, fast.value, slow.value, atr.value);
      var (kind, direction) := Classify(policy, fast.value, slow.value, ratio, strength);
      RegimePoint(c.closeTime, kind, direction, fast, slow, atr, Some(ratio), Some(strength))
  }

  /** Candle `i` is closed and follows candle `i - 1` of the same instrument. */
  predicate SeriesAt(cs: seq<Candle>, i: nat)
    requires i < |cs|
  {
    Follows(cs[i], if i == 0 then None else Some(cs[i - 1]))
  }

  predicate Follows(c: Candle, previous: Option<Candle>) {
    && c.closed
    && (previous.Some? ==>
          && previous.value.identity == c.identity
          && previous.value.openTime < c.openTime
          && previous.value.closeTime < c.closeTime)
  }

  /** The candle part of what the detector accepts: one closed, strictly ordered series. */
  predicate ValidSeries(cs: seq<Candle>) { forall i: nat :: i < |cs| ==> SeriesAt(cs, i) }

  predicate PositiveCloses(cs: seq<Candle>) { forall i :: 0 <= i < |cs| ==> cs[i].close > 0.0 }

  // The whole-series detector

  function BatchPoint(R: Arithmetic, policy: RegimePolicy, cs: seq<Candle>, i: nat): RegimePoint
    requires i < |cs| && cs[i].close > 0.0
  {
    PointFor(R, policy, cs[i],
             SmoothAt(Exponential, R, policy.fast, Closes(cs), i),
             SmoothAt(Exponential, R, policy.slow, Closes(cs), i),
             SmoothAt(Wilder, R, policy.atr, TrueRanges(R, cs), i))
  }

  function BatchPoints(R: Arithmetic, policy: RegimePolicy, cs: seq<Candle>): seq<RegimePoint>
    requires PositiveCloses(cs)
  {
    seq(|cs|, i requires 0 <= i < |cs| => BatchPoint(R, policy, cs, i))
  }

  predicate ValidPoints(points: seq<RegimePoint>) { forall i :: 0 <= i < |points| ==> points[i].Valid() }

  function WarmupPoints(policy: RegimePolicy): nat {
    if policy.slow >= policy.atr then policy.slow - 1 else policy.atr - 1
  }

  /** The series contract: chronological, unavailable exactly through the declared warmup. */
  predicate SeriesContract(policy: RegimePolicy, points: seq<RegimePoint>) {
    && (forall i :: 0 < i < |points| ==> points[i - 1].time < points[i].time)
    && (forall i :: 0 <= i < |points| ==> (points[i].kind == Warmup <==> i < WarmupPoints(policy)))
  }

  predicate Detectable(R: Arithmetic, policy: RegimePolicy, cs: seq<Candle>) {
    ValidSeries(cs) && PositiveCloses(cs) && ValidPoints(BatchPoints(R, policy, cs))
  }

  /** Classifies a materialized closed-candle series. */
  method DetectRegimes(R: Arithmetic, policy: RegimePolicy, cs: seq<Candle>) returns (r: Outcome<seq<RegimePoint>>)
    requires ValidSeries(cs) && policy.fast < policy.slow
    ensures r.Ok? <==> Detectable(R, policy, cs)
    ensures r.Ok? ==> r.value == BatchPoints(R, policy, cs) && SeriesContract(policy, r.value)
  {
    if exists i :: 0 <= i < |cs| && cs[i].close <= 0.0 {
      return Err(InvalidIndicatorInput);
    }
    var closes := Closes(cs);
    var fast := ExponentialMovingAverage(R, policy.fast, closes);
    var slow := ExponentialMovingAverage(R, policy.slow, closes);
    var atr := AverageTrueRange(R, policy.atr, cs);
    var points := [];
    var n := 0;
    while n < |cs|
      invariant 0 <= n <= |cs| && |points| == n
      invariant forall i :: 0 <= i < n ==> points[i] == BatchPoint(R, policy, cs, i) && points[i].Valid()
    {
      var point := PointFor(R, policy, cs[n], fast[n], slow[n], atr[n]);
      assert point == BatchPoint(R, policy, cs, n) == BatchPoints(R, policy, cs)[n];
      if !point.Valid() {
        return Err(InvalidIndicatorInput);
      }
      points := points + [point];
      n := n + 1;
    }
    BatchMeetsContract(R, policy, cs);
    r := Ok(points);
  }

  lemma {:induction false} BatchMeetsContract(R: Arithmetic, policy: RegimePolicy, cs: seq<Candle>)
    requires Detectable(R, policy, cs) && policy.fast < policy.slow
    ensures SeriesContract(policy, BatchPoints(R, policy, cs))
  {
    forall i | 0 < i < |cs| ensures cs[i - 1].closeTime < cs[i].closeTime { assert SeriesAt(cs, i); }
  }

  // The fixed-memory accumulator

  datatype RegimeState = RegimeState(
    count: nat, previous: Option<Candle>, fastSeed: real, slowSeed: real, atrSeed: real,
    fast: Option<real>, slow: Option<real>, atr: Option<real>)

  const FRESH := RegimeState(0, None, 0.0, 0.0, 0.0, None, None, None)

  datatype Average = Average(value: Option<real>, seed: real)

  /** One incremental smoothing step: accumulate the seed, then carry the previous value. */
  function NextAverage(s: Smoothing, R: Arithmetic, x: real, count: nat, period: Count, seed: real,
                       previous: Option<real>): Outcome<Average>
  {
    var grown := if count <= period then R.round(R.add(seed, x)) else seed;
    if count < period then Ok(Average(None, grown))
    else if count == period then Ok(Average(Some(MeanOf(R, grown, period)), grown))
    else if previous.None? then Err(MissingState)
    else Ok(Average(Some(Next(s, R, period, previous.value, x)), grown))
  }

  datatype Observation = Observation(state: RegimeState, point: RegimePoint)

  /** The accumulator's next state, before the point is constructed. */
  function Advance(R: Arithmetic, policy: RegimePolicy, s: RegimeState, c: Candle, range: real): Outcome<RegimeState> {
    var count := s.count + 1;
    var fast :- NextAverage(Exponential, R, c.close, count, policy.fast, s.fastSeed, s.fast);
    var slow :- NextAverage(Exponential, R, c.close, count, policy.slow, s.slowSeed, s.slow);
    var atr :- NextAverage(Wilder, R, range, count, policy.atr, s.atrSeed, s.atr);
    Ok(RegimeState(count, Some(c), fast.seed, slow.seed, atr.seed, fast.value, slow.value, atr.value))
  }

  function PreviousClose(previous: Option<Candle>): Option<real> {
    if previous.None? then None else Some(previous.value.close)
  }

  function Observe(R: Arithmetic, policy: RegimePolicy, s: RegimeState, c: Candle): Outcome<Observation> {
    if !Follows(c, s.previous) || c.close <= 0.0 then Err(InvalidIndicatorInput)
    else
      var next :- Advance(R, policy, s, c, TrueRange(R, c, PreviousClose(s.previous)));
      var point := PointFor(R, policy, c, next.fast, next.slow, next.atr);
      if !point.Valid() then Err(InvalidIndicatorInput) else Ok(Observation(next, point))
  }

  /** Incrementally classifies closed candles in fixed memory. */
  class MarketRegimeAccumulator {
    const R: Arithmetic
    const policy: RegimePolicy
    var count: nat
    var previousCandle: Option<Candle>
    var fastSeed: real
    var slowSeed: real
    var atrSeed: real
    var fastEma: Option<real>
    var slowEma: Option<real>
    var atr: Option<real>

    constructor (R: Arithmetic, policy: RegimePolicy)
      ensures this.R == R && this.policy == policy && State() == FRESH
    {
      this.R, this.policy := R, policy;
      count, previousCandle := 0, None;
      fastSeed, slowSeed, atrSeed := 0.0, 0.0, 0.0;
      fastEma, slowEma, atr := None, None, None;
    }

    function State(): RegimeState
      reads this
    {
      RegimeState(count, previousCandle, fastSeed, slowSeed, atrSeed, fastEma, slowEma, atr)
    }

    /** Consumes one candle; a rejected candle leaves the accumulator as it was. */
    method Update(c: Candle) returns (r: Outcome<RegimePoint>)
      modifies this
      ensures r.Ok? ==> Observe(R, policy, old(State()), c) == Ok(Observation(State(), r.value))
      ensures r.Err? ==> Observe(R, policy, old(State()), c) == Err(r.error) && State() == old(State())
    {
      if !Follows(c, previousCandle) || c.close <= 0.0 {
        return Err(InvalidIndicatorInput);
      }
      var range := TrueRange(R, c, PreviousClose(previousCandle));
      var next :- Advance(R, policy, State(), c, range);
      var point := PointFor(R, policy, c, next.fast, next.slow, next.atr);
      if !point.Valid() {
        return Err(InvalidIndicatorInput);
      }
      count := next.count;
      previousCandle := next.previous;
      fastSeed, slowSeed, atrSeed := next.fastSeed, next.slowSeed, next.atrSeed;
      fastEma, slowEma, atr := next.fast, next.slow, next.atr;
      r := Ok(point);
    }
  }

  datatype Stream = Stream(state: RegimeState, points: seq<RegimePoint>)

  /** The accumulator folded over a candle sequence. */
  function ObserveAll(R: Arithmetic, policy: RegimePolicy, cs: seq<Candle>): (r: Outcome<Stream>)
    ensures r.Ok? ==> |r.value.points| == |cs|
  {
    if cs == [] then Ok(Stream(FRESH, []))
    else
      var before :- ObserveAll(R, policy, cs[..|cs| - 1]);
      var o :- Observe(R, policy, before.state, cs[|cs| - 1]);
      Ok(Stream(o.state, before.points + [o.point]))
  }

  /** The accumulator's averages are the whole-series averages at the last position. */
  predicate Tracks(s: Smoothing, R: Arithmetic, period: Count, xs: seq<real>, value: Option<real>, seed: real) {
    && (|xs| <= period ==> seed == RunningSum(R, xs, |xs|))
    && (if xs == [] then value.None? else value == SmoothAt(s, R, period, xs, |xs| - 1))
  }

  lemma {:induction false} NextAverageTracks(s: Smoothing, R: Arithmetic, period: Count, xs: seq<real>, x: real,
                                             value: Option<real>, seed: real)
    requires Settled(R) && Tracks(s, R, period, xs, value, seed)
    ensures NextAverage(s, R, x, |xs| + 1, period, seed, value).Ok?
    ensures var a := NextAverage(s, R, x, |xs| + 1, period, seed, value).value;
      Tracks(s, R, period, xs + [x], a.value, a.seed)
  {
    var ys := xs + [x];
    assert ys[..|xs|] == xs;
    if |xs| < period {
      RunningSumPrefix(R, ys, |xs|, |xs|);
      assert R.round(R.add(seed, x)) == R.add(seed, x);
    } else if |xs| == period {
      SmoothValuePrefix(s, R, period, ys, |xs|, |xs| - 1);
    } else {
      SmoothValuePrefix(s, R, period, ys, |xs|, |xs| - 1);
    }
  }

  predicate AveragesTrack(R: Arithmetic, policy: RegimePolicy, closes: seq<real>, ranges: seq<real>, s: RegimeState) {
    && Tracks(Exponential, R, policy.fast, closes, s.fast, s.fastSeed)
    && Tracks(Exponential, R, policy.slow, closes, s.slow, s.slowSeed)
    && Tracks(Wilder, R, policy.atr, ranges, s.atr, s.atrSeed)
  }

  predicate StateTracks(R: Arithmetic, policy: RegimePolicy, cs: seq<Candle>, s: RegimeState) {
    && s.count == |cs|
    && s.previous == (if cs == [] then None else Some(cs[|cs| - 1]))
    && AveragesTrack(R, policy, Closes(cs), TrueRanges(R, cs), s)
  }

  lemma {:induction false} AdvanceTracks(R: Arithmetic, policy: RegimePolicy, closes: seq<real>, ranges: seq<real>,
                                         s: RegimeState, c: Candle, range: real)
    requires Settled(R) && AveragesTrack(R, policy, closes, ranges, s) && s.count == |closes| == |ranges|
    ensures var next := Advance(R, policy, s, c, range);
      && next.Ok? && next.value.count == s.count + 1 && next.value.previous == Some(c)
      && AveragesTrack(R, policy, closes + [c.close], ranges + [range], next.value)
  {
    NextAverageTracks(Exponential, R, policy.fast, closes, c.close, s.fast, s.fastSeed);
    NextAverageTracks(Exponential, R, policy.slow, closes, c.close, s.slow, s.slowSeed);
    NextAverageTracks(Wilder, R, policy.atr, ranges, range, s.atr, s.atrSeed);
  }

  lemma {:induction false} SeriesGrow(R: Arithmetic, cs: seq<Candle>, c: Candle)
    ensures Closes(cs + [c]) == Closes(cs) + [c.close]
    ensures TrueRanges(R, cs + [c]) ==
      TrueRanges(R, cs) + [TrueRange(R, c, PreviousClose(if cs == [] then None else Some(cs[|cs| - 1])))]
  {
    assert forall i :: 0 <= i < |cs| ==> TrueRangeAt(R, cs + [c], i) == TrueRangeAt(R, cs, i);
  }

  /** One accumulator step from a tracking state yields the batch point, or refuses exactly the
      candles the batch detector refuses. */
  lemma {:induction false} ObserveTracks(R: Arithmetic, policy: RegimePolicy, cs: seq<Candle>, s: RegimeState,
                                         c: Candle)
    requires Settled(R) && StateTracks(R, policy, cs, s)
    ensures var all := cs + [c];
      && (Observe(R, policy, s, c).Ok? <==>
            SeriesAt(all, |cs|) && c.close > 0.0 && BatchPoint(R, policy, all, |cs|).Valid())
      && (Observe(R, policy, s, c).Ok? ==>
            && Observe(R, policy, s, c).value.point == BatchPoint(R, policy, all, |cs|)
            && StateTracks(R, policy, all, Observe(R, policy, s, c).value.state))
      && (Observe(R, policy, s, c).Err? ==> Observe(R, policy, s, c).error == InvalidIndicatorInput)
  {
    var range := TrueRange(R, c, PreviousClose(s.previous));
    AdvanceTracks(R, policy, Closes(cs), TrueRanges(R, cs), s, c, range);
    SeriesGrow(R, cs, c);
    assert SeriesAt(cs + [c], |cs|) <==> Follows(c, s.previous);
    if c.close > 0.0 {
      var next := Advance(R, policy, s, c, range).value;
      assert PointFor(R, policy, c, next.fast, next.slow, next.atr) == BatchPoint(R, policy, cs + [c], |cs|);
    }
  }

  lemma {:induction false} BatchPointPrefix(R: Arithmetic, policy: RegimePolicy, cs: seq<Candle>, k: nat, i: nat)
    requires i < k <= |cs| && cs[i].close > 0.0
    ensures BatchPoint(R, policy, cs[..k], i) == BatchPoint(R, policy, cs, i)
  {
    assert Closes(cs[..k]) == Closes(cs)[..k];
    SmoothIsPrefixStable(Exponential, R, policy.fast, Closes(cs), k);
    SmoothIsPrefixStable(Exponential, R, policy.slow, Closes(cs), k);
    AtrIsPrefixStable(R, policy.atr, cs, k);
    assert Smooth(Exponential, R, policy.fast, Closes(cs[..k]))[i]
      == Smooth(Exponential, R, policy.fast, Closes(cs))[i];
    assert Smooth(Exponential, R, policy.slow, Closes(cs[..k]))[i]
      == Smooth(Exponential, R, policy.slow, Closes(cs))[i];
    assert Smooth(Wilder, R, policy.atr, TrueRanges(R, cs[..k]))[i]
      == Smooth(Wilder, R, policy.atr, TrueRanges(R, cs))[i];
  }

  /** The batch detector on a series is the batch detector on its prefix plus one more point. */
  lemma {:induction false} DetectableSnoc(R: Arithmetic, policy: RegimePolicy, cs: seq<Candle>, c: Candle)
    ensures var all := cs + [c];
      && (Detectable(R, policy, all) <==>
           Detectable(R, policy, cs) && SeriesAt(all, |cs|) && c.close > 0.0
             && BatchPoint(R, policy, all, |cs|).Valid())
      && (Detectable(R, policy, all) ==>
           BatchPoints(R, policy, all) == BatchPoints(R, policy, cs) + [BatchPoint(R, policy, all, |cs|)])
  {
    SeriesSnoc(cs, c);
    ClosesSnoc(cs, c);
    if PositiveCloses(cs + [c]) {
      BatchSnoc(R, policy, cs, c);
      ValidPointsSnoc(BatchPoints(R, policy, cs), BatchPoint(R, policy, cs + [c], |cs|));
    }
  }

  lemma {:induction false} ClosesSnoc(cs: seq<Candle>, c: Candle)
    ensures PositiveCloses(cs + [c]) <==> PositiveCloses(cs) && c.close > 0.0
  {
    assert forall i :: 0 <= i < |cs| ==> (cs + [c])[i] == cs[i];
    assert (cs + [c])[|cs|] == c;
  }

  lemma {:induction false} ValidPointsSnoc(points: seq<RegimePoint>, p: RegimePoint)
    ensures ValidPoints(points + [p]) <==> ValidPoints(points) && p.Valid()
  {
    assert forall i :: 0 <= i < |points| ==> (points + [p])[i] == points[i];
    assert (points + [p])[|points|] == p;
  }

  lemma {:induction false} SeriesSnoc(cs: seq<Candle>, c: Candle)
    ensures ValidSeries(cs + [c]) <==> ValidSeries(cs) && SeriesAt(cs + [c], |cs|)
  {
    forall i: nat | i < |cs| ensures SeriesAt(cs + [c], i) == SeriesAt(cs, i) {}
  }

  lemma {:induction false} BatchSnoc(R: Arithmetic, policy: RegimePolicy, cs: seq<Candle>, c: Candle)
    requires PositiveCloses(cs) && PositiveCloses(cs + [c])
    ensures var all := cs + [c];
      BatchPoints(R, policy, all) == BatchPoints(R, policy, cs) + [BatchPoint(R, policy, all, |cs|)]
  {
    var all := cs + [c];
    assert all[..|cs|] == cs;
    forall i: nat | i < |cs| ensures BatchPoint(R, policy, all, i) == BatchPoint(R, policy, cs, i) {
      BatchPointPrefix(R, policy, all, |cs|, i);
    }
  }

  /** Streaming equals batch: on every candle sequence, under any context whose sums are settled, the folded
      accumulator accepts exactly what the detector accepts and yields the same points. */
  lemma {:induction false} IncrementalEqualsBatch(R: Arithmetic, policy: RegimePolicy, cs: seq<Candle>)
    requires Settled(R)
    ensures ObserveAll(R, policy, cs).Ok? <==> Detectable(R, policy, cs)
    ensures ObserveAll(R, policy, cs).Ok? ==>
      && StateTracks(R, policy, cs, ObserveAll(R, policy, cs).value.state)
      && ObserveAll(R, policy, cs).value.points == BatchPoints(R, policy, cs)
    ensures ObserveAll(R, policy, cs).Err? ==> ObserveAll(R, policy, cs).error == InvalidIndicatorInput
  {
    if cs != [] {
      var rest, c := cs[..|cs| - 1], cs[|cs| - 1];
      assert cs == rest + [c];
      IncrementalEqualsBatch(R, policy, rest);
      DetectableSnoc(R, policy, rest, c);
      if ObserveAll(R, policy, rest).Ok? {
        ObserveTracks(R, policy, rest, ObserveAll(R, policy, rest).value.state, c);
      }
    }
  }

  /** Detection as of an index: what the detector says of an observed prefix is the prefix of what it
      says of the whole series, in any arithmetic. */
  lemma {:induction false} DetectionIsPrefixStable(R: Arithmetic, policy: RegimePolicy, cs: seq<Candle>, k: nat)
    requires k <= |cs| && Detectable(R, policy, cs)
    ensures Detectable(R, policy, cs[..k])
    ensures BatchPoints(R, policy, cs[..k]) == BatchPoints(R, policy, cs)[..k]
  {
    var part := cs[..k];
    forall i: nat | i < k ensures BatchPoint(R, policy, part, i) == BatchPoint(R, policy, cs, i) {
      BatchPointPrefix(R, policy, cs, k, i);
    }
    assert BatchPoints(R, policy, part) == BatchPoints(R, policy, cs)[..k];
    forall i: nat | i < k ensures SeriesAt(part, i) { assert SeriesAt(cs, i); }
    forall i | 0 <= i < k ensures BatchPoints(R, policy, part)[i].Valid() {
      assert BatchPoints(R, policy, part)[i] == BatchPoints(R, policy, cs)[i];
    }
  }

  /** Every prefix of an accepted stream was accepted, with the same points. */
  lemma {:induction false} StreamPrefix(R: Arithmetic, policy: RegimePolicy, cs: seq<Candle>, k: nat)
    requires k <= |cs| && ObserveAll(R, policy, cs).Ok?
    ensures ObserveAll(R, policy, cs[..k]).Ok?
    ensures var all, part := ObserveAll(R, policy, cs).value, ObserveAll(R, policy, cs[..k]).value;
      |all.points| == |cs| && part.points == all.points[..k]
    decreases |cs|
  {
    if k < |cs| {
      StreamPrefix(R, policy, cs[..|cs| - 1], k);
      assert cs[..|cs| - 1][..k] == cs[..k];
    } else {
      assert cs[..k] == cs;
      if cs != [] { StreamPrefix(R, policy, cs[..|cs| - 1], 0); }
    }
  }
}
