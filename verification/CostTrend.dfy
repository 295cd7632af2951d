// Trend and forecast of a series of monthly costs (pkg/vpsie/cost/analyzer.go:185-309,
// 452-500), over the reals. Point i of the series lies at x = i.
module CostTrend {
  import opened Options

  datatype Direction = Stable | Increasing | Decreasing | Volatile

  datatype Trend = Trend(average: real, min: real, max: real, direction: Direction, changePercent: real)

  datatype CostForecast = CostForecast(predicted: real, confidence: real, upper: real, lower: real)

  // ----- Sums -----

  function SumX(n: nat): real {
    if n == 0 then 0.0 else SumX(n - 1) + (n - 1) as real
  }

  function SumX2(n: nat): real {
    if n == 0 then 0.0 else SumX2(n - 1) + (n - 1) as real * (n - 1) as real
  }

  function SumY(ys: seq<real>): real {
    if ys == [] then 0.0 else SumY(ys[..|ys| - 1]) + ys[|ys| - 1]
  }

  function SumXY(ys: seq<real>): real {
    if ys == [] then 0.0 else SumXY(ys[..|ys| - 1]) + (|ys| - 1) as real * ys[|ys| - 1]
  }

  function SumSquaredDiff(ys: seq<real>, mean: real): real {
    if ys == [] then 0.0
    else SumSquaredDiff(ys[..|ys| - 1], mean) + (ys[|ys| - 1] - mean) * (ys[|ys| - 1] - mean)
  }

  function Denominator(n: nat): real {
    n as real * SumX2(n) - SumX(n) * SumX(n)
  }

  lemma {:induction false} SumXClosed(n: nat)
    ensures 2.0 * SumX(n) == n as real * (n as real - 1.0)
  {
    if n > 0 {
      SumXClosed(n - 1);
    }
  }

  lemma {:induction false} SumX2Closed(n: nat)
    ensures 6.0 * SumX2(n) == n as real * (n as real - 1.0) * (2.0 * n as real - 1.0)
  {
    if n > 0 {
      SumX2Closed(n - 1);
      var m := n as real;
      assert (n - 1) as real == m - 1.0;
      assert (m - 1.0) * (m - 2.0) * (2.0 * m - 3.0) + 6.0 * ((m - 1.0) * (m - 1.0))
          == m * (m - 1.0) * (2.0 * m - 1.0);
    }
  }

  // The divisor of the slope has a closed form and is positive from two points on, so the
  // unguarded division of the forecast is safe and the guard of the trend is dead.
  lemma DenominatorClosed(n: nat)
    ensures 12.0 * Denominator(n) == (n as real * n as real) * (n as real * n as real - 1.0)
    ensures n >= 2 ==> Denominator(n) > 0.0
  {
    SumXClosed(n);
    SumX2Closed(n);
    Expand(n as real, SumX(n), SumX2(n));
    if n >= 2 {
      var m := n as real;
      assert m * m >= 4.0;
      Positive(m * m, m * m - 1.0);
    }
  }

  lemma Positive(a: real, b: real)
    requires a > 0.0 && b > 0.0
    ensures a * b > 0.0
  {
  }

  lemma Expand(m: real, x: real, x2: real)
    requires 2.0 * x == m * (m - 1.0) && 6.0 * x2 == m * (m - 1.0) * (2.0 * m - 1.0)
    ensures 12.0 * (m * x2 - x * x) == (m * m) * (m * m - 1.0)
  {
    var p := m * (m - 1.0);
    assert 12.0 * (m * x2) == 2.0 * m * (p * (2.0 * m - 1.0));
    assert 4.0 * (x * x) == p * p;
    assert 2.0 * m * (p * (2.0 * m - 1.0)) - 3.0 * (p * p) == p * (2.0 * m * (2.0 * m - 1.0) - 3.0 * p);
    assert 2.0 * m * (2.0 * m - 1.0) - 3.0 * p == m * m + m;
    assert p * (m * m + m) == (m * m) * (m * m - 1.0);
  }

  // ----- The fitted line -----

  function SlopeOf(n: real, sumX: real, sumY: real, sumXY: real, sumX2: real): real
    requires n * sumX2 - sumX * sumX != 0.0
  {
    (n * sumXY - sumX * sumY) / (n * sumX2 - sumX * sumX)
  }

  function Slope(ys: seq<real>): real
    requires |ys| >= 2
  {
    Spread(|ys|);
    SlopeOf(|ys| as real, SumX(|ys|), SumY(ys), SumXY(ys), SumX2(|ys|))
  }

  function InterceptOf(n: real, sumX: real, sumY: real, slope: real): real
    requires n > 0.0
  {
    (sumY - slope * sumX) / n
  }

  function Intercept(ys: seq<real>): real
    requires |ys| >= 2
  {
    InterceptOf(|ys| as real, SumX(|ys|), SumY(ys), Slope(ys))
  }

  function SquaredError(y: real, x: real, slope: real, intercept: real): real {
    (y - (slope * x + intercept)) * (y - (slope * x + intercept))
  }

  function SquaredHeight(x: real, slope: real, intercept: real): real {
    (slope * x + intercept) * (slope * x + intercept)
  }

  // Sum of squared errors of the line slope * x + intercept.
  function Error(ys: seq<real>, slope: real, intercept: real): real {
    if ys == [] then 0.0
    else Error(ys[..|ys| - 1], slope, intercept) + SquaredError(ys[|ys| - 1], (|ys| - 1) as real, slope, intercept)
  }

  // Sum of the squares of a line, taken for the difference of two lines.
  function Distance(n: nat, slope: real, intercept: real): real {
    if n == 0 then 0.0
    else Distance(n - 1, slope, intercept) + SquaredHeight((n - 1) as real, slope, intercept)
  }

  function Residual(ys: seq<real>, slope: real, intercept: real): real {
    SumY(ys) - |ys| as real * intercept - slope * SumX(|ys|)
  }

  function Moment(ys: seq<real>, slope: real, intercept: real): real {
    SumXY(ys) - intercept * SumX(|ys|) - slope * SumX2(|ys|)
  }

  lemma {:induction false} DistanceNonNegative(n: nat, slope: real, intercept: real)
    ensures Distance(n, slope, intercept) >= 0.0
  {
    if n > 0 {
      DistanceNonNegative(n - 1, slope, intercept);
      Square(slope * (n - 1) as real + intercept);
    }
  }

  lemma Square(d: real)
    ensures d * d >= 0.0
  {
  }

  function Gain(y: real, x: real, s: real, c: real, ds: real, dc: real): real {
    dc * (y - c - s * x) + ds * (x * y - c * x - s * (x * x))
  }

  lemma SquareOfSum(y: real, x: real, s: real, c: real, s1: real, c1: real)
    ensures SquaredError(y, x, s1, c1)
            == SquaredError(y, x, s, c) + SquaredHeight(x, s - s1, c - c1) + 2.0 * Gain(y, x, s, c, s - s1, c - c1)
  {
    var e, e1 := y - (s * x + c), y - (s1 * x + c1);
    var d := (s - s1) * x + (c - c1);
    assert e1 == e + d;
    assert e1 * e1 == e * e + d * d + 2.0 * (d * e);
    assert d * e == (c - c1) * e + (s - s1) * (x * e);
    assert x * e == x * y - c * x - s * (x * x);
  }

  lemma SumSplit(y: real, x: real, s: real, c: real, r: real, m: real, a: real, b: real)
    ensures a * (r + (y - c - s * x)) + b * (m + (x * y - c * x - s * (x * x)))
            == (a * r + b * m) + (a * (y - c - s * x) + b * (x * y - c * x - s * (x * x)))
  {
  }

  lemma ResidualGrows(ys: seq<real>, slope: real, intercept: real)
    requires ys != []
    ensures var before, y, x := ys[..|ys| - 1], ys[|ys| - 1], (|ys| - 1) as real;
            && Residual(ys, slope, intercept) == Residual(before, slope, intercept) + (y - intercept - slope * x)
            && Moment(ys, slope, intercept)
                 == Moment(before, slope, intercept) + (x * y - intercept * x - slope * (x * x))
  {
  }

  function Cross(ys: seq<real>, s: real, c: real, ds: real, dc: real): real {
    dc * Residual(ys, s, c) + ds * Moment(ys, s, c)
  }

  lemma CrossGrows(ys: seq<real>, s: real, c: real, ds: real, dc: real)
    requires ys != []
    ensures var before, y, x := ys[..|ys| - 1], ys[|ys| - 1], (|ys| - 1) as real;
            Cross(ys, s, c, ds, dc) == Cross(before, s, c, ds, dc) + Gain(y, x, s, c, ds, dc)
  {
    hide Residual, Moment;
    ResidualGrows(ys, s, c);
    var before, y, x := ys[..|ys| - 1], ys[|ys| - 1], (|ys| - 1) as real;
    SumSplit(y, x, s, c, Residual(before, s, c), Moment(before, s, c), dc, ds);
  }

  // How the error of a second line differs from that of the first.
  lemma {:induction false} ErrorShift(ys: seq<real>, s: real, c: real, s1: real, c1: real)
    ensures Error(ys, s1, c1)
            == Error(ys, s, c) + Distance(|ys|, s - s1, c - c1) + 2.0 * Cross(ys, s, c, s - s1, c - c1)
  {
    if ys == [] {
      assert Residual(ys, s, c) == 0.0 && Moment(ys, s, c) == 0.0;
    } else {
      hide Cross, Gain, SquaredError, SquaredHeight;
      ErrorShift(ys[..|ys| - 1], s, c, s1, c1);
      SquareOfSum(ys[|ys| - 1], (|ys| - 1) as real, s, c, s1, c1);
      CrossGrows(ys, s, c, s - s1, c - c1);
    }
  }

  lemma NormalEquations(ys: seq<real>)
    requires |ys| >= 2
    ensures Residual(ys, Slope(ys), Intercept(ys)) == 0.0
    ensures Moment(ys, Slope(ys), Intercept(ys)) == 0.0
  {
    hide SumX, SumX2, SumY, SumXY;
    Spread(|ys|);
    Solve(|ys| as real, SumX(|ys|), SumX2(|ys|), SumY(ys), SumXY(ys), Slope(ys), Intercept(ys));
  }

  lemma Spread(n: nat)
    requires n >= 2
    ensures n as real * SumX2(n) - SumX(n) * SumX(n) > 0.0
  {
    DenominatorClosed(n);
  }

  lemma Solve(n: real, x: real, x2: real, y: real, xy: real, slope: real, intercept: real)
    requires n > 0.0 && n * x2 - x * x > 0.0
    requires slope == (n * xy - x * y) / (n * x2 - x * x) && intercept == (y - slope * x) / n
    ensures y - n * intercept - slope * x == 0.0
    ensures xy - intercept * x - slope * x2 == 0.0
  {
    assert n * intercept == y - slope * x;
    assert slope * (n * x2 - x * x) == n * xy - x * y;
    var moment := xy - intercept * x - slope * x2;
    assert n * moment == n * xy - (n * intercept) * x - slope * (n * x2);
    assert (n * intercept) * x == y * x - slope * (x * x);
    assert slope * (n * x2) - slope * (x * x) == slope * (n * x2 - x * x);
    assert n * moment == 0.0;
    ZeroFactor(n, moment);
  }

  lemma ZeroFactor(n: real, m: real)
    requires n > 0.0 && n * m == 0.0
    ensures m == 0.0
  {
  }

  // The line the forecast extends is the least-squares line: no other has a smaller error.
  lemma FitIsLeastSquares(ys: seq<real>, slope: real, intercept: real)
    requires |ys| >= 2
    ensures Error(ys, Slope(ys), Intercept(ys)) <= Error(ys, slope, intercept)
  {
    NormalEquations(ys);
    ErrorShift(ys, Slope(ys), Intercept(ys), slope, intercept);
    DistanceNonNegative(|ys|, Slope(ys) - slope, Intercept(ys) - intercept);
  }

  predicate Affine(ys: seq<real>, a: real, b: real) {
    forall i :: 0 <= i < |ys| ==> ys[i] == a + b * i as real
  }

  lemma {:induction false} AffineSums(ys: seq<real>, a: real, b: real)
    requires Affine(ys, a, b)
    ensures Residual(ys, b, a) == 0.0 && Moment(ys, b, a) == 0.0
  {
    if ys != [] {
      AffineSums(ys[..|ys| - 1], a, b);
      ResidualGrows(ys, b, a);
      var y, x := ys[|ys| - 1], (|ys| - 1) as real;
      assert x * y - a * x - b * (x * x) == x * (y - a - b * x);
    }
  }

  // On an exactly affine series the fit recovers its two coefficients.
  lemma AffineFit(ys: seq<real>, a: real, b: real)
    requires |ys| >= 2 && Affine(ys, a, b)
    ensures Slope(ys) == b && Intercept(ys) == a
  {
    hide SumX, SumX2, SumY, SumXY;
    AffineSums(ys, a, b);
    Spread(|ys|);
    Recover(|ys| as real, SumX(|ys|), SumX2(|ys|), SumY(ys), SumXY(ys), a, b);
  }

  lemma Recover(n: real, x: real, x2: real, y: real, xy: real, a: real, b: real)
    requires n > 0.0 && n * x2 - x * x > 0.0
    requires y - n * a - b * x == 0.0 && xy - a * x - b * x2 == 0.0
    ensures (n * xy - x * y) / (n * x2 - x * x) == b
    ensures (y - b * x) / n == a
  {
    assert xy == a * x + b * x2 && y == n * a + b * x;
    assert n * xy == (n * a) * x + b * (n * x2);
    assert x * y == (n * a) * x + b * (x * x);
    assert b * (n * x2) - b * (x * x) == b * (n * x2 - x * x);
    Quotient(b, n * x2 - x * x);
    Quotient(a, n);
  }

  lemma Quotient(b: real, d: real)
    requires d != 0.0
    ensures (b * d) / d == b
  {
  }

  // ----- Trend and forecast -----

  function Average(total: real, n: real): real
    requires n > 0.0
  {
    total / n
  }

  function Mean(ys: seq<real>): real
    requires ys != []
  {
    Average(SumY(ys), |ys| as real)
  }

  function Variance(ys: seq<real>): real
    requires ys != []
  {
    Average(SumSquaredDiff(ys, Mean(ys)), |ys| as real)
  }

  function DirectionOf(ys: seq<real>): Direction {
    if |ys| < 2 then Stable
    else if Variance(ys) > Mean(ys) * 0.1 then Volatile
    else if Slope(ys) > Mean(ys) * 0.01 then Increasing
    else if Slope(ys) < -(Mean(ys) * 0.01) then Decreasing
    else Stable
  }

  method SumPoints(ys: seq<real>) returns (sumX: real, sumY: real, sumXY: real, sumX2: real)
    ensures sumX == SumX(|ys|) && sumY == SumY(ys) && sumXY == SumXY(ys) && sumX2 == SumX2(|ys|)
  {
    sumX, sumY, sumXY, sumX2 := 0.0, 0.0, 0.0, 0.0;
    for i := 0 to |ys|
      invariant sumX == SumX(i) && sumY == SumY(ys[..i]) && sumXY == SumXY(ys[..i]) && sumX2 == SumX2(i)
    {
      assert ys[..i + 1][..i] == ys[..i];
      var x := i as real;
      sumX := sumX + x;
      sumY := sumY + ys[i];
      sumXY := sumXY + x * ys[i];
      sumX2 := sumX2 + x * x;
    }
    assert ys[..|ys|] == ys;
  }

  method SquareDiffs(ys: seq<real>, mean: real) returns (sum: real)
    ensures sum == SumSquaredDiff(ys, mean)
  {
    sum := 0.0;
    for i := 0 to |ys|
      invariant sum == SumSquaredDiff(ys[..i], mean)
    {
      assert ys[..i + 1][..i] == ys[..i];
      var diff := ys[i] - mean;
      sum := sum + diff * diff;
    }
    assert ys[..|ys|] == ys;
  }

  // The guard against a zero divisor is dead: see DenominatorClosed.
  method DetermineTrend(ys: seq<real>) returns (direction: Direction)
    ensures direction == DirectionOf(ys)
  {
    if |ys| < 2 {
      return Stable;
    }
    hide SumX, SumX2, SumY, SumXY, SlopeOf, Average, SumSquaredDiff;
    var sumX, sumY, sumXY, sumX2 := SumPoints(ys);
    var n := |ys| as real;
    Spread(|ys|);
    var slope := SlopeOf(n, sumX, sumY, sumXY, sumX2);
    var mean := Average(sumY, n);
    var sumSquaredDiff := SquareDiffs(ys, mean);
    var deviation := Average(sumSquaredDiff, n);
    if deviation > mean * 0.1 {
      return Volatile;
    }
    var threshold := mean * 0.01;
    if slope > threshold {
      return Increasing;
    } else if slope < -threshold {
      return Decreasing;
    }
    return Stable;
  }

  // No snapshots, no trend.
  method GetCostTrend(ys: seq<real>) returns (trend: Option<Trend>)
    ensures trend == None <==> ys == []
    ensures trend.Some? ==>
              var t := trend.value;
              && t.average == Mean(ys) && t.direction == DirectionOf(ys)
              && t.min in ys && t.max in ys && (forall y | y in ys :: t.min <= y <= t.max)
              && t.changePercent == if ys[0] > 0.0 then (ys[|ys| - 1] - ys[0]) / ys[0] * 100.0 else 0.0
  {
    if ys == [] {
      return None;
    }
    var total, min, max := 0.0, ys[0], ys[0];
    for i := 0 to |ys|
      invariant total == SumY(ys[..i]) && min in ys && max in ys
      invariant min <= ys[0] <= max && forall j | 0 <= j < i :: min <= ys[j] <= max
    {
      assert ys[..i + 1][..i] == ys[..i];
      total := total + ys[i];
      if ys[i] < min {
        min := ys[i];
      }
      if ys[i] > max {
        max := ys[i];
      }
    }
    assert ys[..|ys|] == ys;
    var direction := DetermineTrend(ys);
    var first, last, change := ys[0], ys[|ys| - 1], 0.0;
    if first > 0.0 {
      change := (last - first) / first * 100.0;
    }
    trend := Some(Trend(Average(total, |ys| as real), min, max, direction, change));
  }

  function LineAt(slope: real, intercept: real, x: real): real {
    slope * x + intercept
  }

  // The series covers twice the horizon.
  function FutureX(n: real, horizon: real): real
    requires n > 0.0 && horizon != 0.0
  {
    HalfTheSeries(horizon, n);
    n + horizon / ((2.0 * horizon) / n)
  }

  function Forecast(ys: seq<real>, horizon: real): Option<real>
    requires horizon != 0.0
  {
    if |ys| < 2 then None
    else
      var predicted := LineAt(Slope(ys), Intercept(ys), FutureX(|ys| as real, horizon));
      Some(if predicted < 0.0 then Mean(ys) else predicted)
  }

  // The bounds lie 20 percent around the prediction, 40 percent for a volatile series, and
  // enclose a prediction that is not negative.
  method ForecastCost(ys: seq<real>, horizon: real) returns (forecast: Option<CostForecast>)
    requires horizon != 0.0
    ensures forecast == None <==> |ys| < 2
    ensures forecast.Some? ==>
              var f, direction := forecast.value, DirectionOf(ys);
              var spread := if direction == Volatile then 0.4 else 0.2;
              && Some(f.predicted) == Forecast(ys, horizon)
              && f.confidence == (if direction == Volatile then 0.5 else if direction == Stable then 0.9 else 0.8)
              && (f.predicted >= 0.0 ==> 0.0 <= f.lower <= f.predicted <= f.upper)
              && f.upper - f.predicted == spread * f.predicted
              && (f.predicted - f.lower == spread * f.predicted || (f.predicted < 0.0 && f.lower == 0.0))
  {
    var trend := GetCostTrend(ys);
    if trend == None || |ys| < 2 {
      return None;
    }
    hide SumX, SumX2, SumY, SumXY, SlopeOf, InterceptOf, LineAt, FutureX;
    var sumX, sumY, sumXY, sumX2 := SumPoints(ys);
    Spread(|ys|);
    var n := |ys| as real;
    var slope := SlopeOf(n, sumX, sumY, sumXY, sumX2);
    var intercept := InterceptOf(n, sumX, sumY, slope);
    var future := LineAt(slope, intercept, FutureX(n, horizon));
    if future < 0.0 {
      future := trend.value.average;
    }
    var confidence := 0.8;
    if trend.value.direction == Volatile {
      confidence := 0.5;
    } else if trend.value.direction == Stable {
      confidence := 0.9;
    }
    var variance := 0.2;
    if confidence < 0.7 {
      variance := 0.4;
    }
    var upper, lower := future * (1.0 + variance), future * (1.0 - variance);
    if lower < 0.0 {
      lower := 0.0;
    }
    forecast := Some(CostForecast(future, confidence, upper, lower));
  }

  lemma HalfTheSeries(horizon: real, n: real)
    requires horizon != 0.0 && n > 0.0
    ensures (2.0 * horizon) / n != 0.0 && horizon / ((2.0 * horizon) / n) == n / 2.0
  {
    var step := (2.0 * horizon) / n;
    assert step * n == 2.0 * horizon;
    assert (n / 2.0) * step == horizon;
    Quotient(n / 2.0, step);
  }

  // The sums behind average and variance: the sum of one cost, and of two series together.
  lemma {:induction false} CostsAdd(a: seq<real>, b: seq<real>, mean: real)
    ensures SumY(a + b) == SumY(a) + SumY(b)
    ensures SumSquaredDiff(a + b, mean) == SumSquaredDiff(a, mean) + SumSquaredDiff(b, mean)
    ensures |b| == 1 ==> SumY(b) == b[0] && SumSquaredDiff(b, mean) == (b[0] - mean) * (b[0] - mean)
  {
    if b == [] {
      assert a + b == a;
    } else {
      assert (a + b)[..|a + b| - 1] == a + b[..|b| - 1];
      CostsAdd(a, b[..|b| - 1], mean);
    }
  }

  lemma MeanTimesCount(ys: seq<real>)
    requires ys != []
    ensures Mean(ys) * |ys| as real == SumY(ys)
    ensures Variance(ys) * |ys| as real == SumSquaredDiff(ys, Mean(ys))
  {
    hide SumY, SumSquaredDiff;
    TimesBack(SumY(ys), |ys| as real);
    TimesBack(SumSquaredDiff(ys, Mean(ys)), |ys| as real);
  }

  lemma TimesBack(total: real, n: real)
    requires n > 0.0
    ensures Average(total, n) * n == total
  {
  }

  // On an affine series a + b * x the forecast is its value at x = 1.5 * n, or the average
  // when that is negative.
  lemma ForecastAffine(ys: seq<real>, a: real, b: real, horizon: real)
    requires |ys| >= 2 && horizon != 0.0 && Affine(ys, a, b)
    ensures var n := |ys| as real;
            Forecast(ys, horizon)
            == Some(if LineAt(b, a, 1.5 * n) >= 0.0 then LineAt(b, a, 1.5 * n) else LineAt(b, a, (n - 1.0) / 2.0))
  {
    hide Slope, Intercept, Mean, FutureX, LineAt;
    AffineFit(ys, a, b);
    AffineMean(ys, a, b);
    var n := |ys| as real;
    OneAndAHalf(n, horizon);
    assert LineAt(b, a, FutureX(n, horizon)) == LineAt(b, a, 1.5 * n);
  }

  lemma OneAndAHalf(n: real, horizon: real)
    requires n > 0.0 && horizon != 0.0
    ensures FutureX(n, horizon) == 1.5 * n
  {
    HalfTheSeries(horizon, n);
  }

  lemma AffineMean(ys: seq<real>, a: real, b: real)
    requires ys != [] && Affine(ys, a, b)
    ensures Mean(ys) == LineAt(b, a, (|ys| as real - 1.0) / 2.0)
  {
    hide SumX, SumY, Average;
    AffineSums(ys, a, b);
    SumXClosed(|ys|);
    var n := |ys| as real;
    assert SumY(ys) == n * a + b * SumX(|ys|);
    assert SumX(|ys|) == n * ((n - 1.0) / 2.0);
    assert SumY(ys) == (a + b * ((n - 1.0) / 2.0)) * n;
    AverageOf(SumY(ys), a + b * ((n - 1.0) / 2.0), n);
  }

  lemma AverageOf(total: real, average: real, n: real)
    requires n > 0.0 && total == average * n
    ensures Average(total, n) == average
  {
    Quotient(average, n);
  }

  // ----- What the trend says of an affine series -----

  lemma {:induction false} DiffsAreErrors(ys: seq<real>, mean: real)
    ensures SumSquaredDiff(ys, mean) == Error(ys, 0.0, mean)
  {
    if ys != [] {
      DiffsAreErrors(ys[..|ys| - 1], mean);
      FlatLine(ys[|ys| - 1], (|ys| - 1) as real, mean);
    }
  }

  lemma FlatLine(y: real, x: real, mean: real)
    ensures (y - mean) * (y - mean) == SquaredError(y, x, 0.0, mean)
  {
    assert 0.0 * x == 0.0;
  }

  lemma {:induction false} NoError(ys: seq<real>, a: real, b: real)
    requires Affine(ys, a, b)
    ensures Error(ys, b, a) == 0.0
  {
    if ys != [] {
      NoError(ys[..|ys| - 1], a, b);
      var y, x := ys[|ys| - 1], (|ys| - 1) as real;
      assert y - (b * x + a) == 0.0;
    }
  }

  lemma HeightExpands(x: real, s: real, c: real)
    ensures SquaredHeight(x, s, c) == (s * s) * (x * x) + 2.0 * (s * c) * x + c * c
  {
    var p := s * x;
    assert (p + c) * (p + c) == p * p + 2.0 * (p * c) + c * c;
    assert p * p == (s * s) * (x * x) && p * c == (s * c) * x;
  }

  function SquaresOfLine(n: real, sumX: real, sumX2: real, s: real, c: real): real {
    (s * s) * sumX2 + 2.0 * (s * c) * sumX + n * (c * c)
  }

  lemma OneSquareMore(n: real, sumX: real, sumX2: real, x: real, s: real, c: real)
    ensures SquaresOfLine(n + 1.0, sumX + x, sumX2 + x * x, s, c)
            == SquaresOfLine(n, sumX, sumX2, s, c) + SquaredHeight(x, s, c)
  {
    HeightExpands(x, s, c);
    var ss, sc := s * s, 2.0 * (s * c);
    assert ss * (sumX2 + x * x) == ss * sumX2 + ss * (x * x);
    assert sc * (sumX + x) == sc * sumX + sc * x;
    assert (n + 1.0) * (c * c) == n * (c * c) + c * c;
  }

  lemma {:induction false} DistanceClosed(n: nat, s: real, c: real)
    ensures Distance(n, s, c) == SquaresOfLine(n as real, SumX(n), SumX2(n), s, c)
  {
    hide SquaresOfLine, SquaredHeight;
    if n == 0 {
      NoSquares(s, c);
    } else {
      var x := (n - 1) as real;
      DistanceClosed(n - 1, s, c);
      OneSquareMore(x, SumX(n - 1), SumX2(n - 1), x, s, c);
      assert x + 1.0 == n as real && SumX2(n) == SumX2(n - 1) + x * x;
    }
  }

  lemma NoSquares(s: real, c: real)
    ensures SquaresOfLine(0.0, 0.0, 0.0, s, c) == 0.0
  {
  }

  lemma CentredLine(n: real, x: real, x2: real, b: real)
    requires 2.0 * x == n * (n - 1.0) && 6.0 * x2 == n * (n - 1.0) * (2.0 * n - 1.0)
    ensures 12.0 * SquaresOfLine(n, x, x2, b, -(b * ((n - 1.0) / 2.0))) == ((b * b) * (n * n - 1.0)) * n
  {
    var h := (n - 1.0) / 2.0;
    var c := -(b * h);
    assert x == n * h && 6.0 * x2 == 2.0 * (n * h) * (2.0 * n - 1.0);
    assert b * c == -((b * b) * h) && c * c == (b * b) * (h * h);
    var bb := b * b;
    assert SquaresOfLine(n, x, x2, b, c) == bb * x2 + 2.0 * (b * c) * x + n * (c * c);
    assert (b * c) * x == -(bb * (h * (n * h))) && n * (c * c) == bb * (n * (h * h));
    assert h * (n * h) == n * (h * h);
    assert SquaresOfLine(n, x, x2, b, c) == bb * x2 - bb * (n * (h * h));
    assert 12.0 * (x2 - n * (h * h)) == (n * n - 1.0) * n by {
      assert 12.0 * x2 == 4.0 * (n * h) * (2.0 * n - 1.0);
      assert 2.0 * h == n - 1.0;
      assert 12.0 * (n * (h * h)) == 3.0 * (n * ((n - 1.0) * (n - 1.0)));
      assert 4.0 * (n * h) * (2.0 * n - 1.0) == 2.0 * (n * ((n - 1.0) * (2.0 * n - 1.0)));
    }
    assert bb * x2 - bb * (n * (h * h)) == bb * (x2 - n * (h * h));
    assert 12.0 * (bb * (x2 - n * (h * h))) == bb * ((n * n - 1.0) * n);
  }

  lemma AffineVariance(ys: seq<real>, a: real, b: real)
    requires ys != [] && Affine(ys, a, b)
    ensures 12.0 * Variance(ys) == (b * b) * (|ys| as real * |ys| as real - 1.0)
  {
    hide SumX, SumX2, SumY, SumXY, Mean, Error, Distance, SquaresOfLine, SumSquaredDiff, Average;
    var n, m := |ys| as real, Mean(ys);
    AffineMean(ys, a, b);
    DiffsAreErrors(ys, m);
    NoError(ys, a, b);
    AffineSums(ys, a, b);
    ErrorShift(ys, b, a, 0.0, m);
    DistanceClosed(|ys|, b, a - m);
    SumXClosed(|ys|);
    SumX2Closed(|ys|);
    CentredLine(n, SumX(|ys|), SumX2(|ys|), b);
    assert a - m == -(b * ((n - 1.0) / 2.0));
    var v := (b * b) * (n * n - 1.0);
    assert SumSquaredDiff(ys, m) == (v / 12.0) * n;
    AverageOf(SumSquaredDiff(ys, m), v / 12.0, n);
  }

  // A steadily changing cost is reported as such only while its slope is gentle: a steep
  // or a long one counts as volatile.
  lemma AffineDirection(ys: seq<real>, a: real, b: real)
    requires |ys| >= 2 && Affine(ys, a, b)
    ensures var n, mean := |ys| as real, LineAt(b, a, (|ys| as real - 1.0) / 2.0);
            DirectionOf(ys)
            == if (b * b) * (n * n - 1.0) > 1.2 * mean then Volatile
               else if b > 0.01 * mean then Increasing
               else if b < -(0.01 * mean) then Decreasing
               else Stable
  {
    hide Slope, Mean, Variance, LineAt;
    AffineVariance(ys, a, b);
    AffineMean(ys, a, b);
    AffineFit(ys, a, b);
  }

  // ----- Volatility by variance and by standard deviation -----

  // The documented test: the standard deviation exceeds ten percent of the mean. Both
  // sides are non-negative, so their squares are compared.
  predicate DeviationExceeds(ys: seq<real>)
    requires ys != []
  {
    Variance(ys) > (0.1 * Mean(ys)) * (0.1 * Mean(ys))
  }

  // The code applies the ten percent to the variance instead. The two tests disagree on
  // exactly the series whose variance lies between a tenth of the mean and its square.
  lemma VarianceTakenForDeviation(ys: seq<real>)
    requires |ys| >= 2 && Mean(ys) > 0.0
    ensures var m, v := Mean(ys), Variance(ys);
            (DirectionOf(ys) == Volatile) != DeviationExceeds(ys) <==>
              if m > 10.0 then 0.1 * m < v <= 0.01 * (m * m) else 0.01 * (m * m) < v <= 0.1 * m
  {
    hide Mean, Variance, Slope;
    TestsApart(Mean(ys), Variance(ys));
  }

  lemma TestsApart(m: real, v: real)
    requires m > 0.0
    ensures (v > m * 0.1) != (v > (0.1 * m) * (0.1 * m)) <==>
              if m > 10.0 then 0.1 * m < v <= 0.01 * (m * m) else 0.01 * (m * m) < v <= 0.1 * m
  {
    TenPercentSquared(m);
  }

  lemma TenPercentSquared(m: real)
    requires m > 0.0
    ensures (0.1 * m) * (0.1 * m) == 0.01 * (m * m)
    ensures m > 10.0 ==> 0.1 * m < 0.01 * (m * m)
    ensures m <= 10.0 ==> 0.01 * (m * m) <= 0.1 * m
  {
    if m > 10.0 {
      Positive(m, m - 10.0);
      assert m * (m - 10.0) == m * m - 10.0 * m;
    } else {
      Product(m, 10.0 - m);
      assert m * (10.0 - m) == 10.0 * m - m * m;
    }
  }

  // Costs within 1.1 percent of their mean that are reported as volatile.
  lemma CalmCostsVolatile()
    ensures DirectionOf([989.0, 1011.0]) == Volatile && !DeviationExceeds([989.0, 1011.0])
  {
    TwoCostsSpread(1000.0, 11.0);
    assert TwoCosts(1000.0, 11.0) == [989.0, 1011.0];
  }

  function TwoCosts(m: real, d: real): seq<real> {
    [m - d, m + d]
  }

  lemma TwoCostsSpread(m: real, d: real)
    ensures Mean(TwoCosts(m, d)) == m && Variance(TwoCosts(m, d)) == d * d
  {
    var ys := TwoCosts(m, d);
    assert ys[..1] == [m - d] && ys[..1][..0] == [];
    assert SumY(ys[..1]) == m - d && SumY(ys) == 2.0 * m;
    assert (m - d - m) * (m - d - m) == d * d && (m + d - m) * (m + d - m) == d * d;
    assert SumSquaredDiff(ys[..1], m) == d * d && SumSquaredDiff(ys, m) == 2.0 * (d * d);
  }

  // How far apart two costs with mean m must be for the tests to disagree.
  function Telling(m: real): real {
    var t := 0.1 * m;
    if m > 10.0 then t else t + t * (1.0 - t) / 4.0
  }

  lemma TellingWorks(m: real)
    requires m > 0.0 && m != 10.0
    ensures var v := Telling(m) * Telling(m);
            if m > 10.0 then 0.1 * m < v <= 0.01 * (m * m) else 0.01 * (m * m) < v <= 0.1 * m
  {
    hide Telling;
    TenPercentSquared(m);
    TellingFactor(m);
    if m > 10.0 {
      SameSquare(Telling(m), 0.1 * m);
    } else {
      Between(0.1 * m, Telling(m));
    }
  }

  lemma TellingFactor(m: real)
    ensures Telling(m) == if m > 10.0 then 0.1 * m else 0.1 * m + 0.1 * m * (1.0 - 0.1 * m) / 4.0
  {
  }

  lemma SameSquare(a: real, b: real)
    requires a == b
    ensures a * a == b * b
  {
  }

  lemma Between(t: real, d: real)
    requires 0.0 < t < 1.0 && d == t + t * (1.0 - t) / 4.0
    ensures t * t < d * d <= t
  {
    var e := d - t;
    Positive(t, 1.0 - t);
    assert t * (1.0 - t) == t - t * t;
    SquareOfTwo(t, e, d);
    Positive(t, e);
    Positive(e, e);
    Product(1.0 - t, e);
    Product(1.0 - e, e);
    assert (1.0 - t) * e == e - t * e && (1.0 - e) * e == e - e * e;
  }

  lemma SquareOfTwo(t: real, e: real, d: real)
    requires d == t + e
    ensures d * d == t * t + 2.0 * (t * e) + e * e
  {
  }

  lemma Product(a: real, b: real)
    requires a >= 0.0 && b >= 0.0
    ensures a * b >= 0.0
  {
  }

  // A mean of exactly ten is the only one at which the two tests agree on every series.
  lemma TestsAgreeOnlyAtTen(m: real)
    requires m > 0.0
    ensures (forall ys | |ys| >= 2 && Mean(ys) == m :: (DirectionOf(ys) == Volatile) == DeviationExceeds(ys))
            <==> m == 10.0
  {
    hide DirectionOf, DeviationExceeds, Mean, Variance, Telling;
    if m == 10.0 {
      forall ys | |ys| >= 2 && Mean(ys) == m ensures (DirectionOf(ys) == Volatile) == DeviationExceeds(ys) {
        VarianceTakenForDeviation(ys);
      }
    } else {
      var ys := TwoCosts(m, Telling(m));
      TwoCostsSpread(m, Telling(m));
      TellingWorks(m);
      VarianceTakenForDeviation(ys);
    }
  }
}
