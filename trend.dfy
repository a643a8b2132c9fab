/**
 * The trend classifier of the detailed analysis: a least-squares line through
 * the points `(index, value)` gives the coefficient of determination R², which
 * becomes the confidence; the direction is decided by the relative change
 * from the first value to the last.
 */
module Trend {
  import opened Numbers

  datatype Direction = Increasing | Decreasing | Stable

  datatype TrendAnalysis = TrendAnalysis(direction: Direction, changeRate: real, confidence: int, dataPoints: nat)

  /** Fewer points than this give no trend at all. */
  const TrendMinDataPoints: nat := 10

  /** A relative change above this magnitude is a trend. */
  const SignificantChange: real := 0.15

  function Abs(x: real): real { if x < 0.0 then -x else x }

  /** `Σ index * value`. */
  function SumXY(data: seq<real>): real
    decreases |data|
  {
    if data == [] then 0.0 else SumXY(data[..|data| - 1]) + (|data| - 1) as real * data[|data| - 1]
  }

  /** `Σ (value - (slope * index + intercept))²`. */
  function SquaredResiduals(data: seq<real>, slope: real, intercept: real): (s: real)
    ensures s >= 0.0
    decreases |data|
  {
    if data == [] then 0.0
    else
      var e := data[|data| - 1] - (slope * (|data| - 1) as real + intercept);
      SquaredResiduals(data[..|data| - 1], slope, intercept) + Square(e)
  }

  /** `Σ index` over `n` points. */
  function SumX(n: nat): real { (n * (n - 1)) as real / 2.0 }

  /** `Σ index²` over `n` points. */
  function SumX2(n: nat): real { (n * (n - 1) * (2 * n - 1)) as real / 6.0 }

  /** The denominator of the least-squares slope: `n²(n² - 1) / 12`, positive from two points on. */
  lemma SlopeDenominator(n: nat)
    requires n >= 2
    ensures n as real * SumX2(n) - SumX(n) * SumX(n) == (n * n * (n * n - 1)) as real / 12.0
    ensures n as real * SumX2(n) - SumX(n) * SumX(n) > 0.0
  {
    var a := n * (n - 1);
    assert SumX(n) * SumX(n) == (a * a) as real / 4.0;
    assert n as real * SumX2(n) == (n * a * (2 * n - 1)) as real / 6.0;
    assert n * a * (2 * n - 1) * 2 - a * a * 3 == n * n * (n * n - 1) by {
      assert a * a == n * n * (n - 1) * (n - 1);
      assert n * a * (2 * n - 1) == n * n * (n - 1) * (2 * n - 1);
    }
    assert n * n * (n * n - 1) > 0 by {
      assert n * n >= 4;
      assert n * n - 1 >= 3;
    }
  }

  /** `firstValue !== 0 ? (lastValue - firstValue) / firstValue : 0`. */
  function ChangeRate(first: real, last: real): real
  {
    if first != 0.0 then (last - first) / first else 0.0
  }

  function DirectionOf(changeRate: real): Direction
  {
    if Abs(changeRate) > SignificantChange then
      (if changeRate > 0.0 then Increasing else Decreasing)
    else Stable
  }

  /** `totalSumSquares > 0 ? 1 - residualSumSquares / totalSumSquares : 0`. */
  function RSquared(data: seq<real>): real
    requires |data| >= 2
  {
    var n := |data|;
    SlopeDenominator(n);
    var sumY := Sum(data);
    var slope := (n as real * SumXY(data) - SumX(n) * sumY) / (n as real * SumX2(n) - SumX(n) * SumX(n));
    var intercept := (sumY - slope * SumX(n)) / n as real;
    var tss := SquaredDeviations(data, sumY / n as real);
    var rss := SquaredResiduals(data, slope, intercept);
    if tss > 0.0 then 1.0 - rss / tss else 0.0
  }

  /** `analyzeTrend(data)`. */
  function AnalyzeTrend(data: seq<real>): (t: TrendAnalysis)
    ensures t.dataPoints == |data|
    ensures 0 <= t.confidence <= 100
  {
    if |data| < TrendMinDataPoints then TrendAnalysis(Stable, 0.0, 0, |data|)
    else
      var changeRate := ChangeRate(data[0], data[|data| - 1]);
      var confidence := Clamp(0.0, 100.0, RSquared(data) * 100.0);
      TrendAnalysis(DirectionOf(changeRate), Round3(changeRate), Round(confidence), |data|)
  }

  /** Below the minimum number of points the answer is "stable", with no change and no confidence. */
  lemma TooFewPoints(data: seq<real>)
    requires |data| < TrendMinDataPoints
    ensures AnalyzeTrend(data) == TrendAnalysis(Stable, 0.0, 0, |data|)
  {
  }

  /**
   * From ten points on, the trend is rising exactly when the last value
   * exceeds the first by more than 15% of it, falling exactly when it falls
   * short by more than that, and stable otherwise; a first value of 0 always
   * gives a stable trend with change rate 0.
   */
  lemma TrendDirection(data: seq<real>)
    requires |data| >= TrendMinDataPoints
    ensures var cr := ChangeRate(data[0], data[|data| - 1]);
      && (AnalyzeTrend(data).direction == Increasing <==> cr > SignificantChange)
      && (AnalyzeTrend(data).direction == Decreasing <==> cr < -SignificantChange)
      && (AnalyzeTrend(data).direction == Stable <==> -SignificantChange <= cr <= SignificantChange)
    ensures data[0] == 0.0 ==> AnalyzeTrend(data).direction == Stable && AnalyzeTrend(data).changeRate == 0.0
  {
    if data[0] == 0.0 {
      RoundWhole(0);
      assert Round(0.0 * 1000.0) == 0;
    }
  }

  /** Only the end points decide the direction: the values in between only move the confidence. */
  lemma DirectionFromEndpoints(a: seq<real>, b: seq<real>)
    requires |a| >= TrendMinDataPoints && |b| >= TrendMinDataPoints
    requires a[0] == b[0] && a[|a| - 1] == b[|b| - 1]
    ensures AnalyzeTrend(a).direction == AnalyzeTrend(b).direction
    ensures AnalyzeTrend(a).changeRate == AnalyzeTrend(b).changeRate
  {
  }
}
