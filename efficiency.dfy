/**
 * Efficiency indicators of a set of work records, optionally against sales:
 * hours per kilogram shipped, labour cost as a share of revenue, revenue per
 * hour, kilograms per hour, and a blended 0-100 score.
 */
module Efficiency {
  import opened Common
  import opened Numbers
  import opened Grouping
  import opened AnalysisRecords

  /** The indicators handed to the blended score; each may be undefined. */
  datatype ScoreInputs = ScoreInputs(
    timePerOutput: Option<real>, laborCostRatio: Option<real>,
    revenuePerHour: Option<real>, workProductivity: Option<real>)

  /** Hours per kilogram: fewer is better; 5 h/kg or more scores 0. */
  function TimeScore(t: real): real { Max(0.0, 100.0 - t * 20.0) }

  /** Labour cost percentage: lower is better; 50 % or more scores 0. */
  function CostScore(r: real): real { Max(0.0, 100.0 - r * 2.0) }

  /** Yen per hour: 1500 or more scores 100. */
  function RevenueScore(v: real): real { Min(100.0, v / 1500.0 * 100.0) }

  /** Kilograms per hour: 10 or more scores 100. */
  function ProductivityScore(p: real): real { Min(100.0, p * 10.0) }

  /** The scores pushed, in order: time and revenue and productivity only when positive, cost whenever defined. */
  function ComponentScores(m: ScoreInputs): (scores: seq<real>)
    ensures m.laborCostRatio.Some? ==> |scores| >= 1
    ensures |scores| <= 4
    ensures forall i :: 0 <= i < |scores| ==> 0.0 <= scores[i]
    ensures m.laborCostRatio.None? || m.laborCostRatio.value >= 0.0 ==>
              forall i :: 0 <= i < |scores| ==> scores[i] <= 100.0
  {
    (if m.timePerOutput.Some? && m.timePerOutput.value > 0.0 then [TimeScore(m.timePerOutput.value)] else [])
    + (if m.laborCostRatio.Some? then [CostScore(m.laborCostRatio.value)] else [])
    + (if m.revenuePerHour.Some? && m.revenuePerHour.value > 0.0 then [RevenueScore(m.revenuePerHour.value)] else [])
    + (if m.workProductivity.Some? && m.workProductivity.value > 0.0 then [ProductivityScore(m.workProductivity.value)] else [])
  }

  /** `calculateOverallEfficiency`: the mean of the pushed scores, or the neutral 50 when none was pushed. */
  function OverallEfficiency(m: ScoreInputs): (e: real)
    ensures ComponentScores(m) == [] ==> e == 50.0
    ensures ComponentScores(m) != [] ==> e * |ComponentScores(m)| as real == Sum(ComponentScores(m))
  {
    var scores := ComponentScores(m);
    if |scores| > 0 then Sum(scores) / |scores| as real else 50.0
  }

  /**
   * With a non-negative (or absent) labour-cost percentage every pushed score
   * lies in [0, 100], and so does the blended score.
   */
  lemma OverallEfficiencyBounds(m: ScoreInputs)
    requires m.laborCostRatio.None? || m.laborCostRatio.value >= 0.0
    ensures 0.0 <= OverallEfficiency(m) <= 100.0
  {
    var scores := ComponentScores(m);
    if scores != [] {
      SumBetween(scores, 0.0, 100.0);
      MeanBetween(Sum(scores), |scores| as real);
    }
  }

  lemma MeanBetween(s: real, n: real)
    requires n > 0.0 && 0.0 <= s <= n * 100.0
    ensures 0.0 <= s / n <= 100.0
  {
  }

  /** `calculateEfficiencyMetrics(workData, salesData)`; sales that are absent are passed as `[]`. */
  function Metrics(work: seq<WorkRecord>, sales: seq<SalesRecord>): (m: EfficiencyMetrics)
    ensures work == [] ==> m == EfficiencyMetrics(0.0, 0.0, 0.0, 0.0, 0.0)
    ensures work != [] && Total(sales, SaleQuantity) <= 0.0 ==> m.timePerOutput == 0.0
    ensures work != [] && Total(sales, SaleTotal) <= 0.0 ==> m.laborCostRatio == 0.0
    ensures work != [] && Total(work, Hours) <= 0.0 ==> m.revenuePerHour == 0.0 && m.workProductivity == 0.0
    ensures IsCents(m.timePerOutput) && IsCents(m.laborCostRatio) && IsCents(m.workProductivity)
  {
    if work == [] then EfficiencyMetrics(0.0, 0.0, 0.0, 0.0, 0.0)
    else
      var inputs := RawIndicators(work, sales);
      RoundWhole(0);
      EfficiencyMetrics(
        Round2(inputs.timePerOutput.value),
        Round2(inputs.laborCostRatio.value),
        Round(inputs.revenuePerHour.value) as real,
        Round2(inputs.workProductivity.value),
        Round(OverallEfficiency(inputs)) as real)
  }

  /** The unrounded indicators, each 0 when its denominator is not positive. */
  function RawIndicators(work: seq<WorkRecord>, sales: seq<SalesRecord>): (m: ScoreInputs)
    ensures m.timePerOutput.Some? && m.laborCostRatio.Some? && m.revenuePerHour.Some? && m.workProductivity.Some?
    ensures Total(sales, SaleQuantity) <= 0.0 ==> m.timePerOutput.value == 0.0
    ensures Total(sales, SaleTotal) <= 0.0 ==> m.laborCostRatio.value == 0.0
    ensures Total(work, Hours) <= 0.0 ==> m.revenuePerHour.value == 0.0 && m.workProductivity.value == 0.0
  {
    var totalHours := Total(work, Hours);
    var labor := Total(work, Labor);
    var revenue := Total(sales, SaleTotal);
    var output := Total(sales, SaleQuantity);
    ScoreInputs(
      Some(if output > 0.0 then totalHours / output else 0.0),
      Some(if revenue > 0.0 then labor / revenue * 100.0 else 0.0),
      Some(if totalHours > 0.0 then revenue / totalHours else 0.0),
      Some(if totalHours > 0.0 then output / totalHours else 0.0))
  }

  /** The neutral 50 is never used for real work: the labour-cost score is always pushed. */
  lemma NeutralScoreUnreachable(work: seq<WorkRecord>, sales: seq<SalesRecord>)
    ensures |ComponentScores(RawIndicators(work, sales))| >= 1
  {
  }

  /** Without sales the only score pushed is the labour-cost score of 100, so the efficiency is exactly 100. */
  lemma NoSalesScoresHundred(work: seq<WorkRecord>)
    requires work != []
    ensures Metrics(work, []).efficiency == 100.0
  {
    var m := RawIndicators(work, []);
    assert ComponentScores(m) == [100.0];
    assert Sum([100.0]) == 100.0 by {
      assert [100.0][..0] == [];
    }
    RoundWhole(100);
  }

  /** With non-negative labour costs the efficiency score lies in [0, 100]. */
  lemma MetricsEfficiencyBounds(work: seq<WorkRecord>, sales: seq<SalesRecord>)
    requires forall i :: 0 <= i < |work| ==> Labor(work[i]) >= 0.0
    ensures 0.0 <= Metrics(work, sales).efficiency <= 100.0
  {
    if work != [] {
      var m := RawIndicators(work, sales);
      LaborNonNegative(work);
      OverallEfficiencyBounds(m);
      RoundMonotone(0.0, OverallEfficiency(m));
      RoundMonotone(OverallEfficiency(m), 100.0);
      RoundWhole(0);
      RoundWhole(100);
    }
  }

  lemma {:induction false} LaborNonNegative(work: seq<WorkRecord>)
    requires forall i :: 0 <= i < |work| ==> Labor(work[i]) >= 0.0
    ensures Total(work, Labor) >= 0.0
    decreases |work|
  {
    if work != [] {
      LaborNonNegative(work[..|work| - 1]);
    }
  }
}
