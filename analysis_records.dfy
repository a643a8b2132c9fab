/**
 * Records of the detailed analysis: work, cost and sales entries, the filter
 * settings, and the per-period results. Amounts, minutes and yen are exact
 * reals; an optional field is an `Option`.
 */
module AnalysisRecords {
  import opened Common
  import opened AnalysisPeriods

  /** One work entry; `duration` is in minutes. */
  datatype WorkRecord = WorkRecord(
    id: int, date: string, workType: string, duration: real, crop: string,
    laborCost: Option<real>, notes: Option<string>, createdAt: string, updatedAt: string)

  /** One cost entry; `crop` is absent for costs not tied to a crop. */
  datatype CostRecord = CostRecord(
    id: int, date: string, category: string, subcategory: Option<string>, amount: real,
    description: string, crop: Option<string>, supplier: Option<string>,
    createdAt: string, updatedAt: string)

  /** One sale; `quantity` is in kilograms, `unitPrice` and `total` in yen. */
  datatype SalesRecord = SalesRecord(
    id: int, date: string, crop: string, quantity: real, unitPrice: real, total: real,
    channel: string, notes: Option<string>, createdAt: string, updatedAt: string)

  /** The filter panel: inclusive date bounds, selections (empty selects all) and the period setting. */
  datatype Filters = Filters(
    startDate: string, endDate: string, crops: seq<string>, workTypes: seq<string>,
    costCategories: seq<string>, period: Period, compareWithPrevious: bool)

  datatype EfficiencyMetrics = EfficiencyMetrics(
    timePerOutput: real, laborCostRatio: real, revenuePerHour: real,
    workProductivity: real, efficiency: real)

  /** One period of work: hours in total and per work type. */
  datatype AggregatedWorkData = AggregatedWorkData(
    period: string, totalHours: real, workBreakdown: map<string, real>,
    efficiency: EfficiencyMetrics, recordCount: nat)

  /** One period of costs, with the revenue of the same period joined on. */
  datatype AggregatedCostData = AggregatedCostData(
    period: string, totalCost: real, costBreakdown: map<string, real>,
    revenue: real, profit: real, profitMargin: real, recordCount: nat)

  /** An element of either kind of aggregated list. */
  datatype Aggregate = WorkPeriod(work: AggregatedWorkData) | CostPeriod(cost: AggregatedCostData)

  function PeriodOf(a: Aggregate): string
  {
    match a
    case WorkPeriod(w) => w.period
    case CostPeriod(c) => c.period
  }

  /** `'totalHours' in x ? x.totalHours : x.totalCost`. */
  function ValueOf(a: Aggregate): real
  {
    match a
    case WorkPeriod(w) => w.totalHours
    case CostPeriod(c) => c.totalCost
  }

  // ----- record accessors, as values -----

  /** `record.duration / 60`: minutes to hours. */
  function Hours(r: WorkRecord): real { r.duration / 60.0 }

  /** `record.laborCost || 0`. */
  function Labor(r: WorkRecord): real { r.laborCost.GetOr(0.0) }

  function WorkType(r: WorkRecord): string { r.workType }

  function Amount(r: CostRecord): real { r.amount }

  function Category(r: CostRecord): string { r.category }

  function SaleTotal(r: SalesRecord): real { r.total }

  function SaleQuantity(r: SalesRecord): real { r.quantity }
}
