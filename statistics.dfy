/**
 * Descriptive statistics of a list of numbers (mean, median over a sorted
 * copy, extremes, spread) and the outliers that lie more than two standard
 * deviations from the mean.
 */
module Statistics {
  import opened Seqs
  import opened Ordering
  import opened Numbers

  /** `stdDev` is carried as its square, the population variance. */
  datatype Stats = Stats(mean: real, median: real, min: real, max: real, variance: real, count: nat)

  /** The comparator `(a, b) => a - b`, as "may precede". */
  function AtMost(): (real, real) -> bool { (a, b) => a <= b }

  lemma AtMostPreorder()
    ensures TotalPreorder(AtMost())
  {
  }

  function Mean(data: seq<real>): real
    requires |data| > 0
  {
    Sum(data) / |data| as real
  }

  /** The middle element, or the mean of the two middle elements, of a sorted list. */
  function Median(sorted: seq<real>): real
    requires |sorted| > 0
  {
    if |sorted| % 2 == 0 then (sorted[|sorted| / 2 - 1] + sorted[|sorted| / 2]) / 2.0
    else sorted[|sorted| / 2]
  }

  /** `Σ (value - mean)² / n`. */
  function Variance(data: seq<real>): (v: real)
    requires |data| > 0
    ensures v >= 0.0
  {
    SquaredDeviations(data, Mean(data)) / |data| as real
  }

  /** `[...data].sort((a, b) => a - b)`. */
  function Sorted(data: seq<real>): (s: seq<real>)
    ensures SortedBy(s, AtMost()) && multiset(s) == multiset(data)
  {
    AtMostPreorder();
    SortBy(data, AtMost())
  }

  /** `calculateStatistics(data)`. */
  function CalculateStatistics(data: seq<real>): (s: Stats)
    ensures data == [] ==> s == Stats(0.0, 0.0, 0.0, 0.0, 0.0, 0)
    ensures s.count == |data| && s.variance >= 0.0
    ensures data != [] ==> s.min in data && s.max in data
    ensures forall i :: 0 <= i < |data| ==> s.min <= data[i] <= s.max
  {
    if data == [] then Stats(0.0, 0.0, 0.0, 0.0, 0.0, 0)
    else
      Stats(Round2(Mean(data)), Round2(Median(Sorted(data))), MinOf(data), MaxOf(data), Variance(data), |data|)
  }

  /** Every element of the sorted copy lies between the smallest and the largest value. */
  lemma SortedBetweenExtremes(data: seq<real>, k: nat)
    requires data != [] && k < |data|
    ensures |Sorted(data)| == |data|
    ensures MinOf(data) <= Sorted(data)[k] <= MaxOf(data)
  {
    var sorted := Sorted(data);
    assert |sorted| == |multiset(sorted)| == |multiset(data)| == |data|;
    assert sorted[k] in multiset(data);
    var j :| 0 <= j < |data| && data[j] == sorted[k];
  }

  /** The median lies between the smallest and the largest value. */
  lemma MedianBetweenExtremes(data: seq<real>)
    requires data != []
    ensures MinOf(data) <= Median(Sorted(data)) <= MaxOf(data)
  {
    var n := |data|;
    SortedBetweenExtremes(data, n / 2);
    if n % 2 == 0 {
      SortedBetweenExtremes(data, n / 2 - 1);
    }
  }

  /** The mean lies between the smallest and the largest value. */
  lemma MeanBetweenExtremes(data: seq<real>)
    requires data != []
    ensures MinOf(data) <= Mean(data) <= MaxOf(data)
  {
    var lo, hi, n := MinOf(data), MaxOf(data), |data| as real;
    SumBetween(data, lo, hi);
    DivBetween(Sum(data), n, lo, hi);
    assert Mean(data) == Sum(data) / n;
  }

  lemma DivBetween(s: real, n: real, lo: real, hi: real)
    requires n > 0.0 && n * lo <= s <= n * hi
    ensures lo <= s / n <= hi
  {
    var q := s / n;
    assert q * n == s;
    MulStrict(q, lo, n);
    MulStrict(hi, q, n);
  }

  /** The test `(value - mean)² > (2·stdDev)²`, i.e. `|value - mean| > 2·stdDev`. */
  function FarFrom(mean: real, variance: real): real -> bool
  {
    v => Square(v - mean) > 4.0 * variance
  }

  /** `detectOutliers(data)`, measuring from the mean as reported (rounded to hundredths). */
  function DetectOutliers(data: seq<real>): (r: seq<real>)
    ensures |data| < 4 ==> r == []
    ensures Subsequence(r, data)
  {
    if |data| < 4 then []
    else
      var stats := CalculateStatistics(data);
      FilterSubsequence(data, FarFrom(stats.mean, stats.variance));
      Filter(data, FarFrom(stats.mean, stats.variance))
  }

  /** From four values on, a value is reported exactly when it lies more than two standard deviations from the reported mean. */
  lemma OutlierMembers(data: seq<real>, v: real)
    requires |data| >= 4
    ensures v in DetectOutliers(data) <==> v in data && Square(v - Round2(Mean(data))) > 4.0 * Variance(data)
  {
    var m, va := Round2(Mean(data)), Variance(data);
    ReportedSpread(data);
    assert DetectOutliers(data) == Filter(data, FarFrom(m, va));
    FilterIn(data, FarFrom(m, va), v);
    assert FarFrom(m, va)(v) == (Square(v - m) > 4.0 * va);
  }

  /** The mean and spread `calculateStatistics` reports for a non-empty list. */
  lemma ReportedSpread(data: seq<real>)
    requires data != []
    ensures CalculateStatistics(data).mean == Round2(Mean(data))
    ensures CalculateStatistics(data).variance == Variance(data)
  {
  }

  lemma MulStrict(a: real, b: real, n: real)
    requires n > 0.0
    ensures a < b ==> a * n < b * n
  {
  }

  /** Outliers measured from the exact mean. */
  function DetectOutliersExact(data: seq<real>): (r: seq<real>)
    ensures |data| < 4 ==> r == []
    ensures Subsequence(r, data)
  {
    if |data| < 4 then []
    else
      FilterSubsequence(data, FarFrom(Mean(data), Variance(data)));
      Filter(data, FarFrom(Mean(data), Variance(data)))
  }

  /** Four equal values 0.001: the reported mean is 0, so every value is flagged. */
  lemma ConstantDataFlagged()
    ensures DetectOutliers([0.001, 0.001, 0.001, 0.001]) == [0.001, 0.001, 0.001, 0.001]
  {
    var data := [0.001, 0.001, 0.001, 0.001];
    ConstantVariance(data, 0.001);
    assert Round(0.001 * 100.0) == 0;
    assert Round2(Mean(data)) == 0.0;
    assert Square(0.001 - 0.0) > 0.0;
    var p := FarFrom(Round2(Mean(data)), Variance(data));
    forall i | 0 <= i < |data| ensures p(data[i]) {
      assert data[i] == 0.001;
    }
    FilterAllPass(data, p);
  }

  /** A list of one repeated value has no outliers when measured from the exact mean. */
  lemma ConstantDataNoOutliers(data: seq<real>, c: real)
    requires forall i :: 0 <= i < |data| ==> data[i] == c
    ensures DetectOutliersExact(data) == []
  {
    if |data| >= 4 {
      ConstantVariance(data, c);
      FilterNonePass(data, FarFrom(Mean(data), Variance(data)));
    }
  }

  lemma {:induction false} ConstantSum(data: seq<real>, c: real)
    requires forall i :: 0 <= i < |data| ==> data[i] == c
    ensures Sum(data) == |data| as real * c
    decreases |data|
  {
    if data != [] {
      ConstantSum(data[..|data| - 1], c);
    }
  }

  lemma {:induction false} ConstantDeviations(data: seq<real>, c: real)
    requires forall i :: 0 <= i < |data| ==> data[i] == c
    ensures SquaredDeviations(data, c) == 0.0
    decreases |data|
  {
    if data != [] {
      ConstantDeviations(data[..|data| - 1], c);
    }
  }

  lemma ConstantVariance(data: seq<real>, c: real)
    requires |data| > 0
    requires forall i :: 0 <= i < |data| ==> data[i] == c
    ensures Mean(data) == c && Variance(data) == 0.0
  {
    ConstantSum(data, c);
    ConstantDeviations(data, c);
  }
}
