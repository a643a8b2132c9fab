/**
 * Chart rows built from aggregated periods: an object with the period, the
 * fixed totals and one entry per breakdown key spread in last, so that a
 * breakdown key with the same name as a fixed field replaces it.
 */
module Chart {
  import opened AnalysisRecords

  /** A field of a chart row: the period label or a number. */
  datatype ChartValue = Label(text: string) | Number(value: real)

  type ChartDataPoint = map<string, ChartValue>

  function Numbers(m: map<string, real>): (r: ChartDataPoint)
    ensures r.Keys == m.Keys && forall t :: t in m ==> r[t] == Number(m[t])
  {
    map t | t in m :: Number(m[t])
  }

  /** `{ period, totalHours, ...workBreakdown }`. */
  function WorkRow(w: AggregatedWorkData): (row: ChartDataPoint)
    ensures row.Keys == {"period", "totalHours"} + w.workBreakdown.Keys
    ensures forall t :: t in w.workBreakdown ==> row[t] == Number(w.workBreakdown[t])
    ensures "period" !in w.workBreakdown ==> row["period"] == Label(w.period)
    ensures "totalHours" !in w.workBreakdown ==> row["totalHours"] == Number(w.totalHours)
  {
    map["period" := Label(w.period), "totalHours" := Number(w.totalHours)] + Numbers(w.workBreakdown)
  }

  /** The fields of a cost row that the breakdown is spread over. */
  const CostFields: set<string> := {"period", "totalCost", "revenue", "profit", "profitMargin"}

  /** `{ period, totalCost, revenue, profit, profitMargin, ...costBreakdown }`. */
  function CostRow(c: AggregatedCostData): (row: ChartDataPoint)
    ensures row.Keys == CostFields + c.costBreakdown.Keys
    ensures forall t :: t in c.costBreakdown ==> row[t] == Number(c.costBreakdown[t])
    ensures "period" !in c.costBreakdown ==> row["period"] == Label(c.period)
    ensures "totalCost" !in c.costBreakdown ==> row["totalCost"] == Number(c.totalCost)
    ensures "revenue" !in c.costBreakdown ==> row["revenue"] == Number(c.revenue)
    ensures "profit" !in c.costBreakdown ==> row["profit"] == Number(c.profit)
    ensures "profitMargin" !in c.costBreakdown ==> row["profitMargin"] == Number(c.profitMargin)
  {
    map[
      "period" := Label(c.period), "totalCost" := Number(c.totalCost), "revenue" := Number(c.revenue),
      "profit" := Number(c.profit), "profitMargin" := Number(c.profitMargin)]
      + Numbers(c.costBreakdown)
  }

  function ChartRow(a: Aggregate): ChartDataPoint
  {
    match a
    case WorkPeriod(w) => WorkRow(w)
    case CostPeriod(c) => CostRow(c)
  }

  /** `convertToChartData(aggregatedData)`: one row per period, in order. */
  function ConvertToChartData(data: seq<Aggregate>): (rows: seq<ChartDataPoint>)
    ensures |rows| == |data|
    ensures forall i :: 0 <= i < |data| ==> rows[i] == ChartRow(data[i])
  {
    seq(|data|, i requires 0 <= i < |data| => ChartRow(data[i]))
  }

  /**
   * Unless a breakdown key is named `period`, every row still carries the
   * label of its period, so the rows can be told apart by it.
   */
  lemma RowsKeepPeriods(data: seq<Aggregate>, i: nat)
    requires i < |data|
    requires data[i].WorkPeriod? ==> "period" !in data[i].work.workBreakdown
    requires data[i].CostPeriod? ==> "period" !in data[i].cost.costBreakdown
    ensures "period" in ConvertToChartData(data)[i]
    ensures ConvertToChartData(data)[i]["period"] == Label(PeriodOf(data[i]))
  {
  }
}
