/** What the indicators mean when nothing is rounded. */
module ExactIndicators {
  import opened Domain
  import opened RealArithmetic
  import opened Indicators
  import opened Regime
  import opened EngineSpec
  import opened RegimeArtifacts

  /** Arithmetic that never rounds. */
  ghost predicate Exact(R: Arithmetic) {
    && (forall x, y :: R.add(x, y) == x + y)
    && (forall x, y :: R.subtract(x, y) == x - y)
    && (forall x, y :: R.multiply(x, y) == x * y)
    && (forall x, y :: y != 0.0 ==> R.divide(x, y) == x / y)
    && (forall x :: R.absolute(x) == if x < 0.0 then -x else x)
    && (forall x :: R.negate(x) == -x)
    && (forall x :: R.round(x) == x)
  }

  /** There is such an arithmetic. */
  lemma {:induction false} RoundingNothingIsExact()
    ensures Exact(RoundedBy(x => x))
  {}

  function Sum(xs: seq<real>): real { if xs == [] then 0.0 else Sum(xs[..|xs| - 1]) + xs[|xs| - 1] }

  predicate Between(xs: seq<real>, low: real, high: real) { forall i :: 0 <= i < |xs| ==> low <= xs[i] <= high }

  // Averages

  lemma {:induction false} RunningSumIsSum(R: Arithmetic, xs: seq<real>, n: nat)
    requires Exact(R) && n <= |xs|
    ensures RunningSum(R, xs, n) == Sum(xs[..n])
  {
    if n > 0 {
      RunningSumIsSum(R, xs, n - 1);
      assert xs[..n][..n - 1] == xs[..n - 1];
    }
  }

  lemma {:induction false} SumBetween(xs: seq<real>, low: real, high: real)
    requires Between(xs, low, high)
    ensures low * |xs| as real <= Sum(xs) <= high * |xs| as real
  {
    if xs != [] {
      var rest := xs[..|xs| - 1];
      SumBetween(rest, low, high);
      assert |xs| as real == |rest| as real + 1.0;
    }
  }

  /** `next` after `previous`: the exponential average closes `2 / (period + 1)` of the distance to the new
      value, the Wilder average is the mean of the new value and `period - 1` times the previous average. */
  predicate Follows(s: Smoothing, period: Count, previous: real, x: real, next: real) {
    var n := period as real;
    match s
    case Exponential => (n + 1.0) * (next - previous) == 2.0 * (x - previous)
    case Wilder => n * next == (n - 1.0) * previous + x
  }

  lemma {:induction false} NextFollows(s: Smoothing, R: Arithmetic, period: Count, previous: real, x: real)
    requires Exact(R)
    ensures Follows(s, period, previous, x, Next(s, R, period, previous, x))
  {
    var n := period as real;
    if s == Exponential {
      assert (period + 1) as real == n + 1.0;
      assert R.divide(2.0, n + 1.0) == 2.0 / (n + 1.0);
      Closing(n + 1.0, 2.0 / (n + 1.0), x - previous);
    } else {
      assert (period - 1) as real == n - 1.0;
      var total := R.add(R.multiply(previous, n - 1.0), x);
      assert total == previous * (n - 1.0) + x;
      CancelFactor(total, n);
      assert Next(s, R, period, previous, x) == total / n;
    }
  }

  lemma {:induction false} Closing(n: real, share: real, distance: real)
    requires n != 0.0 && share == 2.0 / n
    ensures n * (share * distance) == 2.0 * distance
  {
    CancelFactor(2.0, n);
    var whole := share * n;
    assert whole == 2.0;
    assert n * (share * distance) == whole * distance;
  }

  /** An average starts as the mean of its first `period` values and then follows its rule. */
  predicate Smoothed(s: Smoothing, period: Count, xs: seq<real>, values: Values) {
    && |values| == |xs|
    && (forall i :: 0 <= i < |xs| ==> (values[i].Some? <==> period - 1 <= i))
    && (period <= |xs| ==> values[period - 1].value * period as real == Sum(xs[..period]))
    && (forall i :: period <= i < |xs| ==> Follows(s, period, values[i - 1].value, xs[i], values[i].value))
  }

  lemma {:induction false} AveragesMean(s: Smoothing, R: Arithmetic, period: Count, xs: seq<real>)
    requires Exact(R)
    ensures Smoothed(s, period, xs, Smooth(s, R, period, xs))
  {
    hide Next, Exact, Follows;
    if period <= |xs| { SeedIsMean(R, period, xs); }
    forall i | period <= i < |xs|
      ensures Follows(s, period, SmoothValue(s, R, period, xs, i - 1), xs[i], SmoothValue(s, R, period, xs, i))
    {
      NextFollows(s, R, period, SmoothValue(s, R, period, xs, i - 1), xs[i]);
    }
  }

  lemma {:induction false} SeedIsMean(R: Arithmetic, period: Count, xs: seq<real>)
    requires Exact(R) && period <= |xs|
    ensures SeedMean(R, period, xs) * period as real == Sum(xs[..period])
  {
    RunningSumIsSum(R, xs, period);
    CancelFactor(RunningSum(R, xs, period), period as real);
  }

  lemma {:induction false} FollowsBetween(s: Smoothing, period: Count, previous: real, x: real, next: real, low: real,
                                          high: real)
    requires Follows(s, period, previous, x, next) && low <= previous <= high && low <= x <= high
    ensures low <= next <= high
  {
    var n := period as real;
    if s == Exponential {
      var k := n + 1.0;
      assert next * k == previous * (k - 2.0) + x * 2.0;
      WeighedBetween(k, k - 2.0, 2.0, previous, x, next, low, high);
    } else {
      WeighedBetween(n, n - 1.0, 1.0, previous, x, next, low, high);
    }
  }

  lemma {:induction false} WeighedBetween(k: real, a: real, b: real, previous: real, x: real, next: real, low: real,
                                          high: real)
    requires 0.0 < k && 0.0 <= a && 0.0 <= b && a + b == k && next * k == previous * a + x * b
    requires low <= previous <= high && low <= x <= high
    ensures low <= next <= high
  {
    var left, right := previous * a, x * b;
    ProductBetween(low, previous, high, a, left);
    ProductBetween(low, x, high, b, right);
    Splits(low, a, b, k);
    Splits(high, a, b, k);
    MeanBetween(next, k, left + right, low, high);
  }

  lemma {:induction false} ProductBetween(low: real, x: real, high: real, weight: real, product: real)
    requires 0.0 <= weight && low <= x <= high && product == x * weight
    ensures low * weight <= product <= high * weight
  {
    ProductMonotone(low, x, weight);
    ProductMonotone(x, high, weight);
  }

  lemma {:induction false} Splits(x: real, a: real, b: real, k: real)
    requires a + b == k
    ensures x * a + x * b == x * k
  {}

  lemma {:induction false} MeanBetween(mean: real, n: real, sum: real, low: real, high: real)
    requires 0.0 < n && mean * n == sum && low * n <= sum <= high * n
    ensures low <= mean <= high
  {
    PartOfWhole(mean, n, sum, low);
    PartOfWhole(mean, n, sum, high);
  }

  /** An average never leaves the band of its values. */
  lemma {:induction false} AveragesStayBetween(s: Smoothing, R: Arithmetic, period: Count, xs: seq<real>, i: nat,
                                               low: real, high: real)
    requires Exact(R) && period - 1 <= i < |xs| && Between(xs, low, high)
    ensures low <= SmoothValue(s, R, period, xs, i) <= high
  {
    hide Exact, Next, Follows;
    if i == period - 1 {
      SeedIsMean(R, period, xs);
      var n := period as real;
      var seed := SeedMean(R, period, xs);
      SumBetween(xs[..period], low, high);
      MeanBetween(seed, n, Sum(xs[..period]), low, high);
    } else {
      AveragesStayBetween(s, R, period, xs, i - 1, low, high);
      NextFollows(s, R, period, SmoothValue(s, R, period, xs, i - 1), xs[i]);
      FollowsBetween(s, period, SmoothValue(s, R, period, xs, i - 1), xs[i], SmoothValue(s, R, period, xs, i), low,
        high);
    }
  }

  /** The Wilder average of positive values is positive. */
  lemma {:induction false} PositiveAverages(R: Arithmetic, period: Count, xs: seq<real>, i: nat)
    requires Exact(R) && period - 1 <= i < |xs| && forall j :: 0 <= j < |xs| ==> 0.0 < xs[j]
    ensures 0.0 < SmoothValue(Wilder, R, period, xs, i)
  {
    hide Exact, Next;
    var n := period as real;
    if i == period - 1 {
      SeedIsMean(R, period, xs);
      SumPositive(xs[..period]);
      var seed := SeedMean(R, period, xs);
      if seed <= 0.0 { ProductMonotone(seed, 0.0, n); }
    } else {
      PositiveAverages(R, period, xs, i - 1);
      var previous := SmoothValue(Wilder, R, period, xs, i - 1);
      var next := SmoothValue(Wilder, R, period, xs, i);
      NextFollows(Wilder, R, period, previous, xs[i]);
      ProductMonotone(0.0, previous, n - 1.0);
      if next <= 0.0 { ProductMonotone(next, 0.0, n); }
    }
  }

  lemma {:induction false} SumPositive(xs: seq<real>)
    requires xs != [] && forall j :: 0 <= j < |xs| ==> 0.0 < xs[j]
    ensures 0.0 < Sum(xs)
  {
    if |xs| > 1 { SumPositive(xs[..|xs| - 1]); } else { assert Sum(xs[..0]) == 0.0; }
  }

  // True range

  /** The largest of the candle's own range and the distances of its ends to the previous close. */
  predicate IsTrueRange(c: Candle, previousClose: Option<real>, range: real) {
    && c.high - c.low <= range
    && match previousClose
       case None => range == c.high - c.low
       case Some(p) =>
         && c.high - p <= range && p - c.high <= range && c.low - p <= range && p - c.low <= range
         && (range == c.high - c.low || range == c.high - p || range == p - c.high || range == c.low - p
             || range == p - c.low)
  }

  lemma {:induction false} TrueRangesMean(R: Arithmetic, cs: seq<Candle>, i: nat)
    requires Exact(R) && i < |cs|
    ensures IsTrueRange(cs[i], if i == 0 then None else Some(cs[i - 1].close), TrueRanges(R, cs)[i])
    ensures 0.0 <= TrueRanges(R, cs)[i]
  {}

  // Relative strength

  /** A gain and a loss are the two sides of one change. */
  lemma {:induction false} GainsAndLosses(R: Arithmetic, xs: seq<real>, j: nat)
    requires Exact(R) && j + 1 < |xs|
    ensures var gain, loss := Gains(R, xs)[j], Losses(R, xs)[j];
      gain - loss == xs[j + 1] - xs[j] && 0.0 <= gain && 0.0 <= loss && (gain == 0.0 || loss == 0.0)
  {}

  /** The share of the gains in the whole movement, in percent; half of it when nothing moved. */
  predicate IsStrength(gain: real, loss: real, value: real) {
    if gain == 0.0 && loss == 0.0 then value == 50.0 else value * (gain + loss) == 100.0 * gain
  }

  lemma {:induction false} StrengthMeans(R: Arithmetic, gain: real, loss: real)
    requires Exact(R) && 0.0 <= gain && 0.0 <= loss
    ensures IsStrength(gain, loss, RsiValue(R, gain, loss))
  {
    if 0.0 < gain && 0.0 < loss {
      assert R.divide(gain, loss) == gain / loss;
      QuotientPositive(gain, loss);
      var strength := gain / loss;
      var k := 1.0 + strength;
      assert R.divide(100.0, k) == 100.0 / k;
      CancelFactor(gain, loss);
      CancelFactor(100.0, k);
      ShareOfWhole(gain, loss, strength, 100.0 / k);
    }
  }

  lemma {:induction false} ShareOfWhole(gain: real, loss: real, strength: real, rest: real)
    requires strength * loss == gain && rest * (1.0 + strength) == 100.0
    ensures (100.0 - rest) * (gain + loss) == 100.0 * gain
  {
    assert gain + loss == (1.0 + strength) * loss;
    assert rest * (gain + loss) == rest * (1.0 + strength) * loss == 100.0 * loss;
  }

  lemma {:induction false} StrengthBounds(gain: real, loss: real, value: real)
    requires 0.0 <= gain && 0.0 <= loss && IsStrength(gain, loss, value)
    ensures 0.0 <= value <= 100.0
    ensures value > 50.0 <==> gain > loss
    ensures loss == 0.0 && 0.0 < gain ==> value == 100.0
    ensures gain == 0.0 && 0.0 < loss ==> value == 0.0
  {
    if 0.0 < gain + loss {
      PartOfWhole(value, gain + loss, 100.0 * gain, 0.0);
      PartOfWhole(value, gain + loss, 100.0 * gain, 50.0);
      PartOfWhole(value, gain + loss, 100.0 * gain, 100.0);
    }
  }

  /** Comparing a quotient with a number is comparing the products. */
  lemma {:induction false} PartOfWhole(value: real, whole: real, part: real, bound: real)
    requires 0.0 < whole && value * whole == part
    ensures (value > bound <==> part > bound * whole) && (value < bound <==> part < bound * whole)
  {
    ProductMonotone(bound, value, whole);
    ProductMonotone(value, bound, whole);
  }

  /** The two averages an RSI value compares. */
  lemma {:induction false} MovementsAreSigned(R: Arithmetic, period: Count, xs: seq<real>, i: nat)
    requires Exact(R) && period <= i < |xs|
    ensures 0.0 <= SmoothValue(Wilder, R, period, Gains(R, xs), i - 1)
    ensures 0.0 <= SmoothValue(Wilder, R, period, Losses(R, xs), i - 1)
  {
    hide Exact, Next, SeedMean;
    forall j: nat | j + 1 < |xs| ensures 0.0 <= Gains(R, xs)[j] && 0.0 <= Losses(R, xs)[j] { GainsAndLosses(R, xs, j); }
    NonNegativeAverages(R, period, Gains(R, xs), i - 1);
    NonNegativeAverages(R, period, Losses(R, xs), i - 1);
  }

  lemma {:induction false} NonNegativeAverages(R: Arithmetic, period: Count, xs: seq<real>, i: nat)
    requires Exact(R) && period - 1 <= i < |xs| && forall j :: 0 <= j < |xs| ==> 0.0 <= xs[j]
    ensures 0.0 <= SmoothValue(Wilder, R, period, xs, i)
  {
    hide Exact, SmoothValue;
    var high := Largest(xs);
    AveragesStayBetween(Wilder, R, period, xs, i, 0.0, high);
  }

  function Largest(xs: seq<real>): (m: real)
    ensures forall j :: 0 <= j < |xs| ==> xs[j] <= m
  {
    if xs == [] then 0.0
    else
      var rest := xs[..|xs| - 1];
      var m := Largest(rest);
      assert forall j :: 0 <= j < |rest| ==> xs[j] == rest[j];
      if m >= xs[|xs| - 1] then m else xs[|xs| - 1]
  }

  /** Every RSI value past the warmup is the share of the average gain in the average movement; it lies in
      0..100 and is above 50 exactly when gains outweigh losses. */
  lemma {:induction false} RsiMeans(R: Arithmetic, period: Count, xs: seq<real>, i: nat)
    requires Exact(R) && period <= i < |xs|
    ensures Rsi(R, period, xs)[i].Some?
    ensures
      var value := Rsi(R, period, xs)[i].value;
      var gain := Smooth(Wilder, R, period, Gains(R, xs))[i - 1].value;
      var loss := Smooth(Wilder, R, period, Losses(R, xs))[i - 1].value;
      IsStrength(gain, loss, value) && 0.0 <= value <= 100.0 && (value > 50.0 <==> gain > loss)
  {
    hide Exact, Next, SeedMean, RsiValue, IsStrength, SmoothValue;
    var gain := SmoothValue(Wilder, R, period, Gains(R, xs), i - 1);
    var loss := SmoothValue(Wilder, R, period, Losses(R, xs), i - 1);
    MovementsAreSigned(R, period, xs, i);
    StrengthMeans(R, gain, loss);
    StrengthBounds(gain, loss, RsiValue(R, gain, loss));
  }

  predicate OnlyRises(xs: seq<real>) { forall i, j :: 0 <= i < j < |xs| ==> xs[i] < xs[j] }

  predicate OnlyFalls(xs: seq<real>) { forall i, j :: 0 <= i < j < |xs| ==> xs[i] > xs[j] }

  predicate NeverMoves(xs: seq<real>) { forall i, j :: 0 <= i < j < |xs| ==> xs[i] == xs[j] }

  predicate AllPositive(xs: seq<real>) { forall j :: 0 <= j < |xs| ==> 0.0 < xs[j] }

  predicate AllZero(xs: seq<real>) { forall j :: 0 <= j < |xs| ==> xs[j] == 0.0 }

  lemma {:induction false} OneWayMovements(R: Arithmetic, xs: seq<real>)
    requires Exact(R) && xs != []
    ensures OnlyRises(xs) ==> AllPositive(Gains(R, xs)) && AllZero(Losses(R, xs))
    ensures OnlyFalls(xs) ==> AllZero(Gains(R, xs)) && AllPositive(Losses(R, xs))
    ensures NeverMoves(xs) ==> AllZero(Gains(R, xs)) && AllZero(Losses(R, xs))
  {
    hide Exact, Gains, Losses;
    var gains, losses := Gains(R, xs), Losses(R, xs);
    forall j: nat | j + 1 < |xs|
      ensures OnlyRises(xs) ==> 0.0 < gains[j] && losses[j] == 0.0
      ensures OnlyFalls(xs) ==> gains[j] == 0.0 && 0.0 < losses[j]
      ensures NeverMoves(xs) ==> gains[j] == losses[j] == 0.0
    {
      GainsAndLosses(R, xs, j);
    }
    assert |gains| == |losses| == |xs| - 1;
  }

  lemma {:induction false} ZeroAverage(R: Arithmetic, period: Count, xs: seq<real>, i: nat)
    requires Exact(R) && period - 1 <= i < |xs| && AllZero(xs)
    ensures SmoothValue(Wilder, R, period, xs, i) == 0.0
  {
    hide Exact, SmoothValue;
    AveragesStayBetween(Wilder, R, period, xs, i, 0.0, 0.0);
  }

  /** A series that only rises has strength 100, one that only falls 0, one that never moves 50. */
  lemma {:induction false} OneWaySeries(R: Arithmetic, period: Count, xs: seq<real>, i: nat)
    requires Exact(R) && period <= i < |xs|
    ensures OnlyRises(xs) ==> Rsi(R, period, xs)[i] == Some(100.0)
    ensures OnlyFalls(xs) ==> Rsi(R, period, xs)[i] == Some(0.0)
    ensures NeverMoves(xs) ==> Rsi(R, period, xs)[i] == Some(50.0)
  {
    hide Exact, RsiValue, SmoothValue, IsStrength, OnlyRises, OnlyFalls, NeverMoves, Gains, Losses;
    var gains, losses := Gains(R, xs), Losses(R, xs);
    var gain, loss := SmoothValue(Wilder, R, period, gains, i - 1), SmoothValue(Wilder, R, period, losses, i - 1);
    MovementsAreSigned(R, period, xs, i);
    StrengthMeans(R, gain, loss);
    StrengthBounds(gain, loss, RsiValue(R, gain, loss));
    OneWayMovements(R, xs);
    if OnlyRises(xs) {
      PositiveAverages(R, period, gains, i - 1);
      ZeroAverage(R, period, losses, i - 1);
    }
    if OnlyFalls(xs) {
      PositiveAverages(R, period, losses, i - 1);
      ZeroAverage(R, period, gains, i - 1);
    }
    if NeverMoves(xs) {
      ZeroAverage(R, period, gains, i - 1);
      ZeroAverage(R, period, losses, i - 1);
      StillStrength(gain, loss, RsiValue(R, gain, loss));
    }
  }

  lemma {:induction false} StillStrength(gain: real, loss: real, value: real)
    requires gain == 0.0 && loss == 0.0 && IsStrength(gain, loss, value)
    ensures value == 50.0
  {}

  // MACD

  /** The line is the fast average less the slow one, the signal is an average of the line from its first
      value on, and the histogram is the line less the signal. */
  lemma {:induction false} MacdMeans(R: Arithmetic, p: MacdPeriods, xs: seq<real>, i: nat)
    requires Exact(R) && p.fast < p.slow && p.slow - 1 <= i < |xs|
    ensures Macd(R, p, xs).Ok?
    ensures
      var b := Macd(R, p, xs).value;
      var fast, slow := Smooth(Exponential, R, p.fast, xs), Smooth(Exponential, R, p.slow, xs);
      && |b.macd| == |b.signal| == |b.histogram| == |xs|
      && b.macd[i] == Some(fast[i].value - slow[i].value)
      && b.signal[i] == Smooth(Exponential, R, p.signal, Line(b.macd, p.slow - 1))[i - (p.slow - 1)]
      && (b.signal[i].Some? ==> b.histogram[i] == Some(b.macd[i].value - b.signal[i].value))
  {
    hide SmoothAt, Compact, Exact, Line, WarmupIs, Difference;
    MacdAligns(R, p, xs);
    var fast, slow := Smooth(Exponential, R, p.fast, xs), Smooth(Exponential, R, p.slow, xs);
    var b := Macd(R, p, xs).value;
    DifferenceMeans(R, fast, slow, i);
    CompactIsLine(b.macd, p.slow - 1);
    AvailableFrom(R, p.fast, xs, i);
    AvailableFrom(R, p.slow, xs, i);
    DifferenceMeans(R, b.macd, b.signal, i);
  }

  lemma {:induction false} AvailableFrom(R: Arithmetic, period: Count, xs: seq<real>, i: nat)
    requires period - 1 <= i < |xs|
    ensures Smooth(Exponential, R, period, xs)[i].Some?
  {}

  lemma {:induction false} DifferenceMeans(R: Arithmetic, a: Values, b: Values, i: nat)
    requires Exact(R) && Difference(R, a, b).Ok? && i < |a|
    ensures |a| == |b| == |Difference(R, a, b).value|
    ensures a[i].Some? && b[i].Some? ==> Difference(R, a, b).value[i] == Some(a[i].value - b[i].value)
  {}

  lemma {:induction false} CompactIsLine(values: Values, warmup: nat)
    requires WarmupIs(values, warmup)
    ensures Compact(values) == Line(values, warmup)
  {
    CompactAfterWarmup(values, warmup);
  }

  /** The values from a position on. */
  function Line(values: Values, from: nat): seq<real> {
    if |values| <= from then []
    else seq(|values| - from, j requires 0 <= j < |values| - from =>
           if values[from + j].Some? then values[from + j].value else 0.0)
  }

  // Regimes

  /** VOLATILE when the range is a large part of the price; otherwise a TREND, in the direction of the fast
      average, when the averages are far apart for the range; otherwise a RANGE. */
  predicate Classified(policy: RegimePolicy, p: RegimePoint, close: real) {
    && p.fast.Some? && p.slow.Some? && p.atr.Some? && p.ratio.Some? && p.strength.Some? && p.kind != Warmup
    && var fast, slow, atr := p.fast.value, p.slow.value, p.atr.value;
    var far := 0.0 < atr && policy.trendThreshold * atr <= (if fast >= slow then fast - slow else slow - fast);
    && p.ratio.value * close == atr
    && (0.0 < atr ==> p.strength.value * atr == (if fast >= slow then fast - slow else slow - fast))
    && (atr == 0.0 ==> p.strength.value == 0.0)
    && (p.kind == Volatile <==> policy.volatileRatio * close <= atr)
    && (p.kind == Trend <==> atr < policy.volatileRatio * close && fast != slow && far)
    && (p.direction == Up <==> p.kind == Trend && fast > slow)
    && (p.direction == Down <==> p.kind == Trend && fast < slow)
  }

  lemma {:induction false} MetricsMean(R: Arithmetic, policy: RegimePolicy, p: RegimePoint, close: real)
    requires Exact(R) && 0.0 < close && p.Valid() && p.kind != Warmup && MetricsHold(R, policy, p, close)
    ensures Classified(policy, p, close)
  {
    var fast, slow, atr := p.fast.value, p.slow.value, p.atr.value;
    var gap := if fast >= slow then fast - slow else slow - fast;
    assert R.divide(atr, close) == atr / close;
    CancelFactor(atr, close);
    Thresholds(policy.volatileRatio, p.ratio.value, close, atr);
    if 0.0 < atr {
      assert R.divide(gap, atr) == gap / atr;
      CancelFactor(gap, atr);
      Thresholds(policy.trendThreshold, p.strength.value, atr, gap);
    }
  }

  lemma {:induction false} Thresholds(threshold: real, part: real, of: real, whole: real)
    requires 0.0 < of && part * of == whole
    ensures threshold <= part <==> threshold * of <= whole
  {
    ProductMonotone(threshold, part, of);
    ProductMonotone(part, threshold, of);
  }

  /** Every classified point of an accepted slice is what its averages and its close say. */
  lemma {:induction false} AcceptedRegimesMean(R: Arithmetic, policy: RegimePolicy, points: seq<RegimePoint>,
                                               equity: seq<EquityPoint>, i: nat)
    requires Exact(R) && ObservationsOk(R, policy, points, equity) && i < |points| && 0.0 < equity[i].close
    ensures points[i].time == equity[i].time
    ensures points[i].kind != Warmup ==> Classified(policy, points[i], equity[i].close)
  {
    hide MetricsHold, Exact, Classified;
    assert PointMatches(R, policy, points[i], equity[i]);
    if points[i].kind != Warmup { MetricsMean(R, policy, points[i], equity[i].close); }
  }

  /** Every classified point the detector computes is what its averages and its close say, and the averages
      are those of the series. */
  lemma {:induction false} DetectedRegimesMean(R: Arithmetic, policy: RegimePolicy, cs: seq<Candle>, i: nat)
    requires Exact(R) && Detectable(R, policy, cs) && i < |cs|
    ensures var p := BatchPoints(R, policy, cs)[i];
      && p.time == cs[i].closeTime
      && (p.kind != Warmup ==>
            && Classified(policy, p, cs[i].close)
            && p.fast == Smooth(Exponential, R, policy.fast, Closes(cs))[i]
            && p.slow == Smooth(Exponential, R, policy.slow, Closes(cs))[i]
            && p.atr == Smooth(Wilder, R, policy.atr, TrueRanges(R, cs))[i])
  {
    hide Exact, Classified, AtrRatio, TrendStrength, SmoothAt;
    var p := BatchPoints(R, policy, cs)[i];
    assert p.Valid();
    if p.kind != Warmup { MetricsMean(R, policy, p, cs[i].close); }
  }
}
