/** Exponential, Wilder and composite indicators over whole series.

    Event times are positions. Arithmetic is that of an arbitrary decimal context.
  */
module Indicators {
  import opened Domain

  /** The operations of a fixed decimal context; `round` re-applies the context to one value. */
  datatype Arithmetic = Arithmetic(
    add: (real, real) -> real, subtract: (real, real) -> real, multiply: (real, real) -> real,
    divide: (real, real) -> real, absolute: real -> real, negate: real -> real, round: real -> real)

  /** Re-rounding a sum changes nothing. */
  ghost predicate Settled(R: Arithmetic) { forall x, y :: R.round(R.add(x, y)) == R.add(x, y) }

  ghost predicate Idempotent(r: real -> real) { forall x: real :: r(r(x)) == r(x) }

  /** Exact operations followed by one rounding function. */
  function RoundedBy(r: real -> real): Arithmetic {
    Arithmetic((x, y) => r(x + y), (x, y) => r(x - y), (x, y) => r(x * y),
               (x, y) => r(if y == 0.0 then 0.0 else x / y), x => r(Abs(x)), x => r(-x), r)
  }

  /** Every idempotent rounding gives such a context. */
  lemma {:induction false} IdempotentRoundingSettles(r: real -> real)
    requires Idempotent(r)
    ensures Settled(RoundedBy(r))
  {
    forall x: real, y: real ensures RoundedBy(r).round(RoundedBy(r).add(x, y)) == RoundedBy(r).add(x, y) {
      assert RoundedBy(r).add(x, y) == r(x + y);
    }
  }

  type Values = seq<Option<real>>

  /** Exactly the first `warmup` values are unavailable. */
  predicate WarmupIs(values: Values, warmup: nat) {
    forall i :: 0 <= i < |values| ==> (values[i].None? <==> i < warmup)
  }

  function RunningSum(R: Arithmetic, xs: seq<real>, n: nat): real
    requires n <= |xs|
  {
    if n == 0 then 0.0 else R.add(RunningSum(R, xs, n - 1), xs[n - 1])
  }

  function SeedMean(R: Arithmetic, period: Count, xs: seq<real>): real
    requires period <= |xs|
  {
    MeanOf(R, RunningSum(R, xs, period), period)
  }

  function MeanOf(R: Arithmetic, total: real, period: Count): real { R.round(R.divide(total, period as real)) }

  function EmaAlpha(R: Arithmetic, period: Count): real { R.round(R.divide(2.0, (period + 1) as real)) }

  function EmaNext(R: Arithmetic, period: Count, previous: real, x: real): real {
    EmaStep(R, EmaAlpha(R, period), previous, x)
  }

  function EmaStep(R: Arithmetic, alpha: real, previous: real, x: real): real {
    R.round(R.add(previous, R.multiply(alpha, R.subtract(x, previous))))
  }

  function WilderNext(R: Arithmetic, period: Count, previous: real, x: real): real {
    R.round(R.divide(R.add(R.multiply(previous, (period - 1) as real), x), period as real))
  }

  /** The two smoothing rules: both start from the mean of the first `period` values. */
  datatype Smoothing = Exponential | Wilder

  function Next(s: Smoothing, R: Arithmetic, period: Count, previous: real, x: real): real {
    if s == Exponential then EmaNext(R, period, previous, x) else WilderNext(R, period, previous, x)
  }

  /** The smoothed value at a position past the warmup. */
  function SmoothValue(s: Smoothing, R: Arithmetic, period: Count, xs: seq<real>, i: nat): real
    requires period - 1 <= i < |xs|
  {
    if i == period - 1 then SeedMean(R, period, xs)
    else Next(s, R, period, SmoothValue(s, R, period, xs, i - 1), xs[i])
  }

  function SmoothAt(s: Smoothing, R: Arithmetic, period: Count, xs: seq<real>, i: nat): Option<real>
    requires i < |xs|
  {
    if i < period - 1 then None else Some(SmoothValue(s, R, period, xs, i))
  }

  function Smooth(s: Smoothing, R: Arithmetic, period: Count, xs: seq<real>): Values {
    seq(|xs|, i requires 0 <= i < |xs| => SmoothAt(s, R, period, xs, i))
  }

  function TrueRangeAt(R: Arithmetic, cs: seq<Candle>, i: nat): real
    requires i < |cs|
  {
    TrueRange(R, cs[i], if i == 0 then None else Some(cs[i - 1].close))
  }

  function TrueRange(R: Arithmetic, c: Candle, previousClose: Option<real>): real {
    var intrabar := R.subtract(c.high, c.low);
    match previousClose
    case None => R.round(intrabar)
    case Some(p) =>
      R.round(Max(intrabar, Max(R.absolute(R.subtract(c.high, p)), R.absolute(R.subtract(c.low, p)))))
  }

  function TrueRanges(R: Arithmetic, cs: seq<Candle>): seq<real> {
    seq(|cs|, i requires 0 <= i < |cs| => TrueRangeAt(R, cs, i))
  }

  function Closes(cs: seq<Candle>): seq<real> { seq(|cs|, i requires 0 <= i < |cs| => cs[i].close) }

  /** The first `k` values of a smoothed series depend on the first `k` inputs only. */
  lemma {:induction false} SmoothValuePrefix(s: Smoothing, R: Arithmetic, period: Count, xs: seq<real>, k: nat, i: nat)
    requires period - 1 <= i < k <= |xs|
    ensures SmoothValue(s, R, period, xs[..k], i) == SmoothValue(s, R, period, xs, i)
  {
    if i == period - 1 {
      RunningSumPrefix(R, xs, k, period);
    } else {
      SmoothValuePrefix(s, R, period, xs, k, i - 1);
    }
  }

  lemma {:induction false} RunningSumPrefix(R: Arithmetic, xs: seq<real>, k: nat, n: nat)
    requires n <= k <= |xs|
    ensures RunningSum(R, xs[..k], n) == RunningSum(R, xs, n)
  {
    if n > 0 { RunningSumPrefix(R, xs, k, n - 1); }
  }

  /** Prefix stability of EMA and of the Wilder average. */
  lemma {:induction false} SmoothIsPrefixStable(s: Smoothing, R: Arithmetic, period: Count, xs: seq<real>, k: nat)
    requires k <= |xs|
    ensures Smooth(s, R, period, xs[..k]) == Smooth(s, R, period, xs)[..k]
    ensures WarmupIs(Smooth(s, R, period, xs), period - 1)
  {
    forall i | 0 <= i < k ensures SmoothAt(s, R, period, xs[..k], i) == SmoothAt(s, R, period, xs, i) {
      if period - 1 <= i { SmoothValuePrefix(s, R, period, xs, k, i); }
    }
  }

  /** Prefix stability of ATR: the true ranges look back one candle and never ahead. */
  lemma {:induction false} AtrIsPrefixStable(R: Arithmetic, period: Count, cs: seq<Candle>, k: nat)
    requires k <= |cs|
    ensures Smooth(Wilder, R, period, TrueRanges(R, cs[..k])) == Smooth(Wilder, R, period, TrueRanges(R, cs))[..k]
  {
    assert TrueRanges(R, cs[..k]) == TrueRanges(R, cs)[..k];
    SmoothIsPrefixStable(Wilder, R, period, TrueRanges(R, cs), k);
  }

  /** EMA as computed: a seed, then one pass carrying the previous value. */
  method ExponentialMovingAverage(R: Arithmetic, period: Count, xs: seq<real>) returns (values: Values)
    ensures values == Smooth(Exponential, R, period, xs)
  {
    values := seq(if period - 1 < |xs| then period - 1 else |xs|, _ => None);
    if |xs| >= period {
      var previous := SeedMean(R, period, xs);
      var n: nat := period;
      values := values + [Some(previous)];
      var alpha := EmaAlpha(R, period);
      while n < |xs|
        invariant period <= n <= |xs| && |values| == n
        invariant previous == SmoothValue(Exponential, R, period, xs, n - 1)
        invariant forall i :: 0 <= i < n ==> values[i] == SmoothAt(Exponential, R, period, xs, i)
      {
        previous := EmaStep(R, alpha, previous, xs[n]);
        values := values + [Some(previous)];
        n := n + 1;
      }
    }
  }

  method ComputeTrueRanges(R: Arithmetic, cs: seq<Candle>) returns (values: seq<real>)
    ensures values == TrueRanges(R, cs)
  {
    values := [];
    var previousClose: Option<real> := None;
    var n := 0;
    while n < |cs|
      invariant 0 <= n <= |cs| && |values| == n
      invariant previousClose == if n == 0 then None else Some(cs[n - 1].close)
      invariant forall i :: 0 <= i < n ==> values[i] == TrueRangeAt(R, cs, i)
    {
      values := values + [TrueRange(R, cs[n], previousClose)];
      previousClose := Some(cs[n].close);
      n := n + 1;
    }
  }

  method AverageTrueRange(R: Arithmetic, period: Count, cs: seq<Candle>) returns (values: Values)
    ensures values == Smooth(Wilder, R, period, TrueRanges(R, cs))
  {
    var ranges := ComputeTrueRanges(R, cs);
    values := WilderPass(R, period, ranges);
  }

  /** The Wilder average as computed: a seed, then one pass carrying the previous value. */
  method WilderPass(R: Arithmetic, period: Count, xs: seq<real>) returns (values: Values)
    ensures values == Smooth(Wilder, R, period, xs)
  {
    values := seq(if period - 1 < |xs| then period - 1 else |xs|, _ => None);
    if |xs| >= period {
      var previous := SeedMean(R, period, xs);
      var n: nat := period;
      values := values + [Some(previous)];
      while n < |xs|
        invariant period <= n <= |xs| && |values| == n
        invariant previous == SmoothValue(Wilder, R, period, xs, n - 1)
        invariant forall i :: 0 <= i < n ==> values[i] == SmoothAt(Wilder, R, period, xs, i)
      {
        previous := WilderNext(R, period, previous, xs[n]);
        values := values + [Some(previous)];
        n := n + 1;
      }
    }
  }

  // Relative strength index

  function ChangeAt(R: Arithmetic, xs: seq<real>, j: nat): real
    requires j + 1 < |xs|
  {
    R.subtract(xs[j + 1], xs[j])
  }

  function Gains(R: Arithmetic, xs: seq<real>): (r: seq<real>)
    ensures |xs| > 0 ==> |r| == |xs| - 1
  {
    if |xs| == 0 then [] else seq(|xs| - 1, j requires 0 <= j < |xs| - 1 => Max(ChangeAt(R, xs, j), 0.0))
  }

  function Losses(R: Arithmetic, xs: seq<real>): (r: seq<real>)
    ensures |xs| > 0 ==> |r| == |xs| - 1
  {
    if |xs| == 0 then [] else seq(|xs| - 1, j requires 0 <= j < |xs| - 1 => Max(R.negate(ChangeAt(R, xs, j)), 0.0))
  }

  function RsiValue(R: Arithmetic, gain: real, loss: real): real {
    if gain == 0.0 && loss == 0.0 then 50.0
    else if loss == 0.0 then 100.0
    else if gain == 0.0 then 0.0
    else
      var strength := R.round(R.divide(gain, loss));
      R.round(R.subtract(100.0, R.divide(100.0, R.add(1.0, strength))))
  }

  function RsiAt(R: Arithmetic, period: Count, xs: seq<real>, i: nat): Option<real>
    requires i < |xs|
  {
    if i < period then None
    else Some(RsiValue(R, SmoothValue(Wilder, R, period, Gains(R, xs), i - 1),
                          SmoothValue(Wilder, R, period, Losses(R, xs), i - 1)))
  }

  function Rsi(R: Arithmetic, period: Count, xs: seq<real>): Values {
    seq(|xs|, i requires 0 <= i < |xs| => RsiAt(R, period, xs, i))
  }

  lemma {:induction false} ChangesPrefix(R: Arithmetic, xs: seq<real>, k: nat)
    requires 0 < k <= |xs|
    ensures Gains(R, xs[..k]) == Gains(R, xs)[..k - 1]
    ensures Losses(R, xs[..k]) == Losses(R, xs)[..k - 1]
  {
    assert forall j :: 0 <= j < k - 1 ==> ChangeAt(R, xs[..k], j) == ChangeAt(R, xs, j);
  }

  lemma {:induction false} WilderOnPrefix(R: Arithmetic, period: Count, part: seq<real>, whole: seq<real>, i: nat)
    requires period - 1 <= i < |part| <= |whole| && part == whole[..|part|]
    ensures SmoothValue(Wilder, R, period, part, i) == SmoothValue(Wilder, R, period, whole, i)
  {
    SmoothValuePrefix(Wilder, R, period, whole, |part|, i);
  }

  lemma {:induction false} AverageGainPrefix(R: Arithmetic, period: Count, xs: seq<real>, k: nat, i: nat)
    requires period <= i < k <= |xs|
    ensures SmoothValue(Wilder, R, period, Gains(R, xs[..k]), i - 1)
      == SmoothValue(Wilder, R, period, Gains(R, xs), i - 1)
  {
    ChangesPrefix(R, xs, k);
    WilderOnPrefix(R, period, Gains(R, xs[..k]), Gains(R, xs), i - 1);
  }

  lemma {:induction false} AverageLossPrefix(R: Arithmetic, period: Count, xs: seq<real>, k: nat, i: nat)
    requires period <= i < k <= |xs|
    ensures SmoothValue(Wilder, R, period, Losses(R, xs[..k]), i - 1)
      == SmoothValue(Wilder, R, period, Losses(R, xs), i - 1)
  {
    ChangesPrefix(R, xs, k);
    WilderOnPrefix(R, period, Losses(R, xs[..k]), Losses(R, xs), i - 1);
  }

  lemma {:induction false} RsiIsPrefixStable(R: Arithmetic, period: Count, xs: seq<real>, k: nat)
    requires k <= |xs|
    ensures Rsi(R, period, xs[..k]) == Rsi(R, period, xs)[..k]
    ensures WarmupIs(Rsi(R, period, xs), period)
  {
    forall i | 0 <= i < k ensures RsiAt(R, period, xs[..k], i) == RsiAt(R, period, xs, i) {
      if period <= i {
        AverageGainPrefix(R, period, xs, k, i);
        AverageLossPrefix(R, period, xs, k, i);
      }
    }
  }

  method RelativeStrengthIndex(R: Arithmetic, period: Count, xs: seq<real>) returns (values: Values)
    ensures values == Rsi(R, period, xs)
  {
    hide Gains, Losses, RsiValue, WilderNext, SeedMean;
    values := seq(if period < |xs| then period else |xs|, _ => None);
    if |xs| > period {
      var gains, losses := Gains(R, xs), Losses(R, xs);
      var averageGain, averageLoss := SeedMean(R, period, gains), SeedMean(R, period, losses);
      var n: nat := period;
      values := values + [Some(RsiValue(R, averageGain, averageLoss))];
      while n < |gains|
        invariant period <= n <= |gains| && |values| == n + 1
        invariant averageGain == SmoothValue(Wilder, R, period, gains, n - 1)
        invariant averageLoss == SmoothValue(Wilder, R, period, losses, n - 1)
        invariant forall i :: 0 <= i <= n ==> values[i] == RsiAt(R, period, xs, i)
      {
        averageGain := WilderNext(R, period, averageGain, gains[n]);
        averageLoss := WilderNext(R, period, averageLoss, losses[n]);
        values := values + [Some(RsiValue(R, averageGain, averageLoss))];
        n := n + 1;
      }
    }
  }

  // Moving average convergence divergence

  datatype MacdPeriods = MacdPeriods(fast: Count, slow: Count, signal: Count)

  datatype MacdBundle = MacdBundle(macd: Values, signal: Values, histogram: Values)

  function Difference(R: Arithmetic, a: Values, b: Values): Outcome<Values>
  {
    if |a| != |b| || exists i :: 0 <= i < |a| && b[i].Some? && a[i].None? then Err(MissingState)
    else Ok(seq(|a|, i requires 0 <= i < |a| =>
      if b[i].None? || a[i].None? then None else Some(R.round(R.subtract(a[i].value, b[i].value)))))
  }

  /** The available values, in order. */
  function Compact(values: Values): seq<real> {
    if values == [] then []
    else
      var last := values[|values| - 1];
      Compact(values[..|values| - 1]) + (if last.Some? then [last.value] else [])
  }

  /** MACD line, signal over the compacted line, and histogram, re-expanded to the source. */
  function Macd(R: Arithmetic, p: MacdPeriods, xs: seq<real>): Outcome<MacdBundle> {
    var fast := Smooth(Exponential, R, p.fast, xs);
    var slow := Smooth(Exponential, R, p.slow, xs);
    var macd :- Difference(R, fast, slow);
    var compactSignal := Smooth(Exponential, R, p.signal, Compact(macd));
    var unavailable := if p.slow - 1 < |xs| then p.slow - 1 else |xs|;
    var signal := seq(unavailable, _ => None) + compactSignal;
    var histogram :- Difference(R, macd, signal);
    Ok(MacdBundle(macd, signal, histogram))
  }

  lemma {:induction false} CompactAfterWarmup(values: Values, warmup: nat)
    requires WarmupIs(values, warmup)
    ensures |Compact(values)| == if |values| <= warmup then 0 else |values| - warmup
    ensures forall j :: 0 <= j < |Compact(values)| ==>
      values[warmup + j].Some? && Compact(values)[j] == values[warmup + j].value
  {
    if values != [] {
      var n := |values| - 1;
      var rest := values[..n];
      assert WarmupIs(rest, warmup) by { assert forall i :: 0 <= i < n ==> rest[i] == values[i]; }
      CompactAfterWarmup(rest, warmup);
      if n >= warmup {
        var before := Compact(rest);
        assert values[n].Some? && Compact(values) == before + [values[n].value];
        forall j | 0 <= j < |before| + 1
          ensures values[warmup + j].Some? && Compact(values)[j] == values[warmup + j].value
        {
          if j < |before| { assert rest[warmup + j] == values[warmup + j]; }
        }
      }
    }
  }

  /** MACD never misaligns: for every length and every choice of periods with fast below slow the
      three lines have the source's length and exactly the declared warmups. */
  lemma {:induction false} MacdAligns(R: Arithmetic, p: MacdPeriods, xs: seq<real>)
    requires p.fast < p.slow
    ensures Macd(R, p, xs).Ok?
    ensures var b := Macd(R, p, xs).value;
      && |b.macd| == |b.signal| == |b.histogram| == |xs|
      && WarmupIs(b.macd, p.slow - 1)
      && WarmupIs(b.signal, p.slow + p.signal - 2)
      && WarmupIs(b.histogram, p.slow + p.signal - 2)
  {
    hide SmoothValue, Compact;
    var fast := Smooth(Exponential, R, p.fast, xs);
    var slow := Smooth(Exponential, R, p.slow, xs);
    var macd := Difference(R, fast, slow).value;
    CompactAfterWarmup(macd, p.slow - 1);
  }

  lemma {:induction false} CompactPrefix(values: Values, warmup: nat, k: nat)
    requires WarmupIs(values, warmup) && k <= |values|
    ensures var kept := if k <= warmup then 0 else k - warmup;
      kept <= |Compact(values)| && Compact(values[..k]) == Compact(values)[..kept]
  {
    CompactAfterWarmup(values, warmup);
    CompactAfterWarmup(values[..k], warmup);
  }

  lemma {:induction false} DifferencePrefix(R: Arithmetic, a: Values, b: Values, k: nat)
    requires Difference(R, a, b).Ok? && k <= |a|
    ensures Difference(R, a[..k], b[..k]).Ok?
    ensures Difference(R, a[..k], b[..k]).value == Difference(R, a, b).value[..k]
  {}

  /** Prefix stability of all three MACD lines, through the compaction. */
  lemma {:induction false} MacdIsPrefixStable(R: Arithmetic, p: MacdPeriods, xs: seq<real>, k: nat)
    requires p.fast < p.slow && k <= |xs|
    ensures Macd(R, p, xs).Ok? && Macd(R, p, xs[..k]).Ok?
    ensures var whole, part := Macd(R, p, xs).value, Macd(R, p, xs[..k]).value;
      && |whole.macd| == |whole.signal| == |whole.histogram| == |xs|
      && part.macd == whole.macd[..k] && part.signal == whole.signal[..k] && part.histogram == whole.histogram[..k]
  {
    MacdAligns(R, p, xs);
    MacdAligns(R, p, xs[..k]);
    MacdLinePrefix(R, p, xs, k);
    var whole, part := Macd(R, p, xs).value, Macd(R, p, xs[..k]).value;
    SignalPrefix(R, p, whole.macd, part.macd, whole.signal, part.signal, k);
    DifferencePrefix(R, whole.macd, whole.signal, k);
  }

  lemma {:induction false} MacdLinePrefix(R: Arithmetic, p: MacdPeriods, xs: seq<real>, k: nat)
    requires p.fast < p.slow && k <= |xs|
    requires Macd(R, p, xs).Ok? && Macd(R, p, xs[..k]).Ok?
    ensures var whole, part := Macd(R, p, xs).value, Macd(R, p, xs[..k]).value;
      part.macd == whole.macd[..k]
  {
    SmoothIsPrefixStable(Exponential, R, p.fast, xs, k);
    SmoothIsPrefixStable(Exponential, R, p.slow, xs, k);
    DifferencePrefix(R, Smooth(Exponential, R, p.fast, xs), Smooth(Exponential, R, p.slow, xs), k);
  }

  function SignalOf(R: Arithmetic, p: MacdPeriods, macd: Values): Values {
    seq(if p.slow - 1 < |macd| then p.slow - 1 else |macd|, _ => None) + Smooth(Exponential, R, p.signal, Compact(macd))
  }

  lemma {:induction false} SignalPrefix(R: Arithmetic, p: MacdPeriods, macd: Values, macdPart: Values, signal: Values,
                                        signalPart: Values, k: nat)
    requires WarmupIs(macd, p.slow - 1) && k <= |macd| && macdPart == macd[..k]
    requires signal == SignalOf(R, p, macd) && signalPart == SignalOf(R, p, macdPart)
    requires |signal| == |macd|
    ensures signalPart == signal[..k]
  {
    CompactPrefix(macd, p.slow - 1, k);
    var kept := if k <= p.slow - 1 then 0 else k - (p.slow - 1);
    SmoothIsPrefixStable(Exponential, R, p.signal, Compact(macd), kept);
  }
}
