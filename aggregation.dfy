/**
 * Per-period aggregation of work and cost records (`aggregateWorkData`,
 * `aggregateCostData`). Records are grouped by their period key, hours and
 * costs are summed in total and per work type or cost category, sales
 * revenue of the same period is joined onto the costs, and the periods come
 * out sorted.
 */
module Aggregation {
  import opened Common
  import opened Numbers
  import opened Seqs
  import opened Text
  import opened Ordering
  import opened Grouping
  import opened AnalysisPeriods
  import opened AnalysisRecords
  import opened Efficiency

  function WorkKey(period: Period): WorkRecord -> string
  {
    (r: WorkRecord) => PeriodKey(r.date, period)
  }

  function CostKey(period: Period): CostRecord -> string
  {
    (r: CostRecord) => PeriodKey(r.date, period)
  }

  function SaleKey(period: Period): SalesRecord -> string
  {
    (r: SalesRecord) => PeriodKey(r.date, period)
  }

  /** Every value of a breakdown rounded to hundredths. */
  function RoundValues2(m: map<string, real>): map<string, real>
  {
    map t | t in m :: Round2(m[t])
  }

  /** Every value of a breakdown rounded to a whole number. */
  function RoundValues(m: map<string, real>): map<string, real>
  {
    map t | t in m :: Round(m[t]) as real
  }

  // ----- work -----

  /** What the reduce keeps per period while it runs. */
  datatype WorkAcc = WorkAcc(totalHours: real, breakdown: map<string, real>, records: seq<WorkRecord>, count: nat)

  /** The accumulator after the records `g` of one period have been seen. */
  function WorkAccOf(g: seq<WorkRecord>): WorkAcc
  {
    WorkAcc(Total(g, Hours), Breakdown(g, WorkType, Hours), g, |g|)
  }

  /** One reduce step for a record of the period. */
  function AddWork(a: WorkAcc, r: WorkRecord): WorkAcc
  {
    WorkAcc(a.totalHours + Hours(r), AddTo(a.breakdown, r.workType, Hours(r)), a.records + [r], a.count + 1)
  }

  lemma WorkAccSnoc(g: seq<WorkRecord>, r: WorkRecord)
    ensures WorkAccOf(g + [r]) == AddWork(WorkAccOf(g), r)
  {
    TotalSnoc(g, r, Hours);
    BreakdownSnoc(g, r, WorkType, Hours);
  }

  /** The accumulator of a period not seen yet. */
  function WorkInit(): WorkAcc { WorkAcc(0.0, map[], [], 0) }

  /** The accumulator map after one more record, as the reduce step leaves it. */
  function WorkUpdate(acc: map<string, WorkAcc>, r: WorkRecord, k: string): map<string, WorkAcc>
  {
    acc[k := AddWork(if k in acc then acc[k] else WorkInit(), r)]
  }

  /** The accumulator map holds, for each period key seen, the accumulator of that period's records. */
  ghost predicate WorkAccs(acc: map<string, WorkAcc>, pre: seq<WorkRecord>, key: WorkRecord -> string)
  {
    && (forall k :: k in acc <==> k in Keys(pre, key))
    && (forall k :: k in acc ==> acc[k] == WorkAccOf(Group(pre, key, k)))
  }

  /** One reduce step keeps every period's accumulator in step with the records seen. */
  lemma WorkStep(data: seq<WorkRecord>, i: nat, key: WorkRecord -> string, acc: map<string, WorkAcc>)
    requires i < |data| && WorkAccs(acc, data[..i], key)
    ensures WorkAccs(WorkUpdate(acc, data[i], key(data[i])), data[..i + 1], key)
  {
    var pre, r := data[..i], data[i];
    WorkStepKeys(pre, r, key, acc);
    WorkStepValues(pre, r, key, acc);
    assert WorkAccs(WorkUpdate(acc, r, key(r)), pre + [r], key);
    TakeSnoc(data, i);
  }

  lemma WorkStepKeys(pre: seq<WorkRecord>, r: WorkRecord, key: WorkRecord -> string, acc: map<string, WorkAcc>)
    requires forall k :: k in acc <==> k in Keys(pre, key)
    ensures forall k :: k in WorkUpdate(acc, r, key(r)) <==> k in Keys(pre + [r], key)
  {
    KeysSnoc(pre, r, key);
  }

  lemma WorkStepValues(pre: seq<WorkRecord>, r: WorkRecord, key: WorkRecord -> string, acc: map<string, WorkAcc>)
    requires WorkAccs(acc, pre, key)
    ensures forall k :: k in WorkUpdate(acc, r, key(r)) ==> WorkUpdate(acc, r, key(r))[k] == WorkAccOf(Group(pre + [r], key, k))
  {
    forall k | k in WorkUpdate(acc, r, key(r))
      ensures WorkUpdate(acc, r, key(r))[k] == WorkAccOf(Group(pre + [r], key, k))
    {
      WorkStepAt(pre, r, key, acc, k);
    }
  }

  lemma WorkStepAt(pre: seq<WorkRecord>, r: WorkRecord, key: WorkRecord -> string, acc: map<string, WorkAcc>, k': string)
    requires WorkAccs(acc, pre, key)
    requires k' in acc || k' == key(r)
    ensures WorkUpdate(acc, r, key(r))[k'] == WorkAccOf(Group(pre + [r], key, k'))
  {
    GroupSnoc(pre, r, key, k');
    var g := Group(pre, key, k');
    if k' == key(r) {
      assert Group(pre + [r], key, k') == g + [r];
      if k' !in acc {
        KeysGroups(pre, key, k');
        WorkAccEmpty();
      }
      assert (if k' in acc then acc[k'] else WorkInit()) == WorkAccOf(g);
      WorkAccSnoc(g, r);
    } else {
      assert g + [] == g;
    }
  }

  lemma WorkAccEmpty()
    ensures WorkAccOf([]) == WorkInit()
  {
    var b := Breakdown([], WorkType, Hours);
    assert b.Keys == {};
    assert b == map[];
  }

  function SummarizeWork(k: string, a: WorkAcc): AggregatedWorkData
  {
    AggregatedWorkData(k, Round2(a.totalHours), RoundValues2(a.breakdown), Metrics(a.records, []), a.count)
  }

  /** The output entry of period `k`, computed from the records with that key. */
  function WorkSummary(data: seq<WorkRecord>, period: Period, k: string): AggregatedWorkData
  {
    SummarizeWork(k, WorkAccOf(Group(data, WorkKey(period), k)))
  }

  function WorkPeriods(out: seq<AggregatedWorkData>): (ps: seq<string>)
    ensures |ps| == |out| && forall i :: 0 <= i < |out| ==> ps[i] == out[i].period
  {
    seq(|out|, i requires 0 <= i < |out| => out[i].period)
  }

  /**
   * `out` is the aggregation of `data`: one entry per period key present,
   * in ascending order of period, each summarising the records of its period.
   */
  ghost predicate WorkAggregation(data: seq<WorkRecord>, period: Period, out: seq<AggregatedWorkData>)
  {
    && StrictlySorted(WorkPeriods(out))
    && (forall k :: k in WorkPeriods(out) <==> k in Keys(data, WorkKey(period)))
    && (forall i :: 0 <= i < |out| ==> out[i] == WorkSummary(data, period, out[i].period))
  }

  /** `aggregateWorkData(data, period)`. */
  method AggregateWorkData(data: seq<WorkRecord>, period: Period) returns (out: seq<AggregatedWorkData>)
    ensures data == [] ==> out == []
    ensures WorkAggregation(data, period, out)
  {
    if data == [] {
      return [];
    }
    var acc, order := GroupWork(data, WorkKey(period));
    var keys := SortedUnique(order);
    out := seq(|keys|, j requires 0 <= j < |keys| => SummarizeWork(keys[j], acc[keys[j]]));
    WorkFinish(data, period, acc, keys, out);
  }

  /**
   * The `reduce` of `aggregateWorkData`: one accumulator per key, created on
   * the key's first record (`order` lists the keys in that order) and updated
   * by every record of the key.
   */
  method GroupWork(data: seq<WorkRecord>, key: WorkRecord -> string)
    returns (acc: map<string, WorkAcc>, order: seq<string>)
    ensures WorkAccs(acc, data, key)
    ensures Distinct(order) && forall k :: k in order <==> k in acc
  {
    acc := map[];
    order := [];
    var i := 0;
    assert data[..0] == [];
    while i < |data|
      invariant 0 <= i <= |data|
      invariant Distinct(order) && forall k :: k in order <==> k in acc
      invariant WorkAccs(acc, data[..i], key)
    {
      var r := data[i];
      var k := key(r);
      WorkStep(data, i, key, acc);
      var current := if k in acc then acc[k] else WorkInit();
      if k !in acc {
        DistinctSnoc(order, k);
        order := order + [k];
      }
      acc := acc[k := AddWork(current, r)];
      i := i + 1;
    }
    assert data[..i] == data;
  }

  /** Sorting the keys and summarising each accumulator yields the aggregation. */
  lemma WorkFinish(data: seq<WorkRecord>, period: Period, acc: map<string, WorkAcc>, keys: seq<string>, out: seq<AggregatedWorkData>)
    requires WorkAccs(acc, data, WorkKey(period))
    requires StrictlySorted(keys) && forall k :: k in keys <==> k in acc
    requires |out| == |keys|
    requires forall j :: 0 <= j < |keys| ==> out[j] == SummarizeWork(keys[j], acc[keys[j]])
    ensures WorkAggregation(data, period, out)
  {
    assert WorkPeriods(out) == keys;
    forall j | 0 <= j < |out| ensures out[j] == WorkSummary(data, period, out[j].period) {
      var k := keys[j];
      assert acc[k] == WorkAccOf(Group(data, WorkKey(period), k));
    }
  }

  // ----- costs and revenue -----

  datatype CostAcc = CostAcc(totalCost: real, breakdown: map<string, real>, count: nat)

  function CostAccOf(g: seq<CostRecord>): CostAcc
  {
    CostAcc(Total(g, Amount), Breakdown(g, Category, Amount), |g|)
  }

  function AddCost(a: CostAcc, r: CostRecord): CostAcc
  {
    CostAcc(a.totalCost + r.amount, AddTo(a.breakdown, r.category, r.amount), a.count + 1)
  }

  lemma CostAccSnoc(g: seq<CostRecord>, r: CostRecord)
    ensures CostAccOf(g + [r]) == AddCost(CostAccOf(g), r)
  {
    TotalSnoc(g, r, Amount);
    BreakdownSnoc(g, r, Category, Amount);
  }

  function CostInit(): CostAcc { CostAcc(0.0, map[], 0) }

  function CostUpdate(acc: map<string, CostAcc>, r: CostRecord, k: string): map<string, CostAcc>
  {
    acc[k := AddCost(if k in acc then acc[k] else CostInit(), r)]
  }

  ghost predicate CostAccs(acc: map<string, CostAcc>, pre: seq<CostRecord>, key: CostRecord -> string)
  {
    && (forall k :: k in acc <==> k in Keys(pre, key))
    && (forall k :: k in acc ==> acc[k] == CostAccOf(Group(pre, key, k)))
  }

  lemma CostStep(data: seq<CostRecord>, i: nat, key: CostRecord -> string, acc: map<string, CostAcc>)
    requires i < |data| && CostAccs(acc, data[..i], key)
    ensures CostAccs(CostUpdate(acc, data[i], key(data[i])), data[..i + 1], key)
  {
    var pre, r := data[..i], data[i];
    CostStepKeys(pre, r, key, acc);
    CostStepValues(pre, r, key, acc);
    assert CostAccs(CostUpdate(acc, r, key(r)), pre + [r], key);
    TakeSnoc(data, i);
  }

  lemma CostStepKeys(pre: seq<CostRecord>, r: CostRecord, key: CostRecord -> string, acc: map<string, CostAcc>)
    requires forall k :: k in acc <==> k in Keys(pre, key)
    ensures forall k :: k in CostUpdate(acc, r, key(r)) <==> k in Keys(pre + [r], key)
  {
    KeysSnoc(pre, r, key);
  }

  lemma CostStepValues(pre: seq<CostRecord>, r: CostRecord, key: CostRecord -> string, acc: map<string, CostAcc>)
    requires CostAccs(acc, pre, key)
    ensures forall k :: k in CostUpdate(acc, r, key(r)) ==> CostUpdate(acc, r, key(r))[k] == CostAccOf(Group(pre + [r], key, k))
  {
    forall k | k in CostUpdate(acc, r, key(r))
      ensures CostUpdate(acc, r, key(r))[k] == CostAccOf(Group(pre + [r], key, k))
    {
      CostStepAt(pre, r, key, acc, k);
    }
  }

  lemma CostStepAt(pre: seq<CostRecord>, r: CostRecord, key: CostRecord -> string, acc: map<string, CostAcc>, k': string)
    requires CostAccs(acc, pre, key)
    requires k' in acc || k' == key(r)
    ensures CostUpdate(acc, r, key(r))[k'] == CostAccOf(Group(pre + [r], key, k'))
  {
    GroupSnoc(pre, r, key, k');
    var g := Group(pre, key, k');
    if k' == key(r) {
      assert Group(pre + [r], key, k') == g + [r];
      if k' !in acc {
        KeysGroups(pre, key, k');
        CostAccEmpty();
      }
      assert (if k' in acc then acc[k'] else CostInit()) == CostAccOf(g);
      CostAccSnoc(g, r);
    } else {
      assert g + [] == g;
    }
  }

  lemma CostAccEmpty()
    ensures CostAccOf([]) == CostInit()
  {
    var b := Breakdown([], Category, Amount);
    assert b.Keys == {};
    assert b == map[];
  }

  /** Profit as a percentage of revenue, 0 when there is no positive revenue. */
  function ProfitMargin(revenue: real, totalCost: real): (p: real)
    ensures revenue <= 0.0 ==> p == 0.0
  {
    if revenue > 0.0 then (revenue - totalCost) / revenue * 100.0 else 0.0
  }

  /** With positive revenue the margin is the profit as a percentage of it. */
  lemma ProfitMarginPercent(revenue: real, totalCost: real)
    requires revenue > 0.0
    ensures ProfitMargin(revenue, totalCost) * revenue == (revenue - totalCost) * 100.0
    ensures totalCost <= revenue <==> ProfitMargin(revenue, totalCost) >= 0.0
    ensures totalCost >= 0.0 ==> ProfitMargin(revenue, totalCost) <= 100.0
  {
    var p := ProfitMargin(revenue, totalCost);
    assert p * revenue == (revenue - totalCost) * 100.0;
  }

  function SummarizeCost(k: string, a: CostAcc, revenue: real): AggregatedCostData
  {
    AggregatedCostData(
      k, Round(a.totalCost) as real, RoundValues(a.breakdown), Round(revenue) as real,
      Round(revenue - a.totalCost) as real, Round2(ProfitMargin(revenue, a.totalCost)), a.count)
  }

  /** Revenue of period `k`: the sales totals of the records with that key (0 if none). */
  function PeriodRevenue(sales: seq<SalesRecord>, period: Period, k: string): real
  {
    Total(Group(sales, SaleKey(period), k), SaleTotal)
  }

  /** Cost of period `k`: the accumulated amount of the cost records with that key. */
  function PeriodCost(costs: seq<CostRecord>, period: Period, k: string): real
  {
    CostAccOf(Group(costs, CostKey(period), k)).totalCost
  }

  /** The period cost is the sum of the amounts of the records in the period. */
  lemma PeriodCostTotal(costs: seq<CostRecord>, period: Period, k: string)
    ensures PeriodCost(costs, period, k) == Total(Group(costs, CostKey(period), k), Amount)
    ensures Keys(costs, CostKey(period)) == {} ==> PeriodCost(costs, period, k) == 0.0
  {
    if Keys(costs, CostKey(period)) == {} {
      KeysGroups(costs, CostKey(period), k);
    }
  }

  function CostSummary(costs: seq<CostRecord>, sales: seq<SalesRecord>, period: Period, k: string): AggregatedCostData
  {
    SummarizeCost(k, CostAccOf(Group(costs, CostKey(period), k)), PeriodRevenue(sales, period, k))
  }

  function CostPeriods(out: seq<AggregatedCostData>): (ps: seq<string>)
    ensures |ps| == |out| && forall i :: 0 <= i < |out| ==> ps[i] == out[i].period
  {
    seq(|out|, i requires 0 <= i < |out| => out[i].period)
  }

  /** One entry per period present in the costs (sales alone open no period), ascending. */
  ghost predicate CostAggregation(costs: seq<CostRecord>, sales: seq<SalesRecord>, period: Period, out: seq<AggregatedCostData>)
  {
    && StrictlySorted(CostPeriods(out))
    && (forall k :: k in CostPeriods(out) <==> k in Keys(costs, CostKey(period)))
    && (forall i :: 0 <= i < |out| ==> out[i] == CostSummary(costs, sales, period, out[i].period))
  }

  /** `aggregateCostData(costData, salesData, period)`. */
  method AggregateCostData(costs: seq<CostRecord>, sales: seq<SalesRecord>, period: Period)
    returns (out: seq<AggregatedCostData>)
    ensures costs == [] ==> out == []
    ensures CostAggregation(costs, sales, period, out)
  {
    if costs == [] {
      return [];
    }
    var acc, order := GroupCosts(costs, CostKey(period));
    var revenue := SumRevenue(sales, SaleKey(period));
    var keys := SortedUnique(order);
    out := seq(|keys|, n requires 0 <= n < |keys| =>
      SummarizeCost(keys[n], acc[keys[n]], if keys[n] in revenue then revenue[keys[n]] else 0.0));
    CostFinish(costs, sales, period, acc, revenue, keys, out);
  }

  /** The cost `reduce` of `aggregateCostData`: one accumulator per key. */
  method GroupCosts(data: seq<CostRecord>, key: CostRecord -> string)
    returns (acc: map<string, CostAcc>, order: seq<string>)
    ensures CostAccs(acc, data, key)
    ensures Distinct(order) && forall k :: k in order <==> k in acc
  {
    acc := map[];
    order := [];
    var i := 0;
    assert data[..0] == [];
    while i < |data|
      invariant 0 <= i <= |data|
      invariant Distinct(order) && forall k :: k in order <==> k in acc
      invariant CostAccs(acc, data[..i], key)
    {
      var r := data[i];
      var k := key(r);
      CostStep(data, i, key, acc);
      var current := if k in acc then acc[k] else CostInit();
      if k !in acc {
        DistinctSnoc(order, k);
        order := order + [k];
      }
      acc := acc[k := AddCost(current, r)];
      i := i + 1;
    }
    assert data[..i] == data;
  }

  /** The sales `reduce` of `aggregateCostData`: revenue per key. */
  method SumRevenue(sales: seq<SalesRecord>, key: SalesRecord -> string) returns (revenue: map<string, real>)
    ensures revenue == Breakdown(sales, key, SaleTotal)
  {
    revenue := map[];
    var j := 0;
    assert sales[..0] == [];
    BreakdownEmpty(key, SaleTotal);
    while j < |sales|
      invariant 0 <= j <= |sales|
      invariant revenue == Breakdown(sales[..j], key, SaleTotal)
    {
      var r := sales[j];
      BreakdownPrefix(sales, j, key, SaleTotal);
      revenue := AddTo(revenue, key(r), r.total);
      j := j + 1;
    }
    assert sales[..j] == sales;
  }

  lemma CostFinish(
    costs: seq<CostRecord>, sales: seq<SalesRecord>, period: Period, acc: map<string, CostAcc>,
    revenue: map<string, real>, keys: seq<string>, out: seq<AggregatedCostData>)
    requires CostAccs(acc, costs, CostKey(period))
    requires revenue == Breakdown(sales, SaleKey(period), SaleTotal)
    requires StrictlySorted(keys) && forall k :: k in keys <==> k in acc
    requires |out| == |keys|
    requires forall n :: 0 <= n < |keys| ==>
      out[n] == SummarizeCost(keys[n], acc[keys[n]], if keys[n] in revenue then revenue[keys[n]] else 0.0)
    ensures CostAggregation(costs, sales, period, out)
  {
    assert CostPeriods(out) == keys;
    forall n | 0 <= n < |out| ensures out[n] == CostSummary(costs, sales, period, out[n].period) {
      var k := keys[n];
      assert acc[k] == CostAccOf(Group(costs, CostKey(period), k));
      KeysGroups(sales, SaleKey(period), k);
      assert (if k in revenue then revenue[k] else 0.0) == PeriodRevenue(sales, period, k);
    }
  }

  // ----- what the aggregations guarantee -----

  function SumNats(xs: seq<nat>): nat
    decreases |xs|
  {
    if xs == [] then 0 else xs[0] + SumNats(xs[1..])
  }

  lemma {:induction false} CountsAsGroups<T>(ks: seq<string>, counts: seq<nat>, data: seq<T>, key: T -> string)
    requires |counts| == |ks|
    requires forall i :: 0 <= i < |ks| ==> counts[i] == |Group(data, key, ks[i])|
    ensures SumNats(counts) as real == SumGroups(ks, data, key, One())
    decreases |ks|
  {
    if ks != [] {
      TotalOne(Group(data, key, ks[0]));
      CountsAsGroups(ks[1..], counts[1..], data, key);
    }
  }

  lemma SortedDistinct(ks: seq<string>)
    requires StrictlySorted(ks)
    ensures Distinct(ks)
  {
    forall i, j | 0 <= i < j < |ks| ensures ks[i] != ks[j] {
      StrLtIrreflexive(ks[i]);
    }
  }

  function WorkCounts(out: seq<AggregatedWorkData>): (cs: seq<nat>)
    ensures |cs| == |out| && forall i :: 0 <= i < |out| ==> cs[i] == out[i].recordCount
  {
    seq(|out|, i requires 0 <= i < |out| => out[i].recordCount)
  }

  /** Conservation: the record counts of the work periods add up to the number of records. */
  lemma WorkCountsTotal(data: seq<WorkRecord>, period: Period, out: seq<AggregatedWorkData>)
    requires WorkAggregation(data, period, out)
    ensures SumNats(WorkCounts(out)) == |data|
  {
    var ks := WorkPeriods(out);
    SortedDistinct(ks);
    CountsAsGroups(ks, WorkCounts(out), data, WorkKey(period));
    PartitionCount(ks, data, WorkKey(period));
  }

  /**
   * Each work period holds at least one record; its hours are the period's
   * hours (minutes / 60) to the hundredth; its breakdown has one entry per
   * work type present; and, with no sales to weigh against, its efficiency
   * score is exactly 100.
   */
  lemma WorkPeriodFacts(data: seq<WorkRecord>, period: Period, out: seq<AggregatedWorkData>, i: nat)
    requires WorkAggregation(data, period, out) && i < |out|
    ensures var g := Group(data, WorkKey(period), out[i].period);
      && g != [] && out[i].recordCount == |g|
      && Total(g, Hours) - 0.005 < out[i].totalHours <= Total(g, Hours) + 0.005
      && out[i].workBreakdown.Keys == Keys(g, WorkType)
      && out[i].efficiency.efficiency == 100.0
  {
    var g := Group(data, WorkKey(period), out[i].period);
    assert out[i].period in WorkPeriods(out);
    KeysGroups(data, WorkKey(period), out[i].period);
    NoSalesScoresHundred(g);
  }

  /**
   * Before rounding, a work period's hours are the sum of its records'
   * minutes / 60, and its per-work-type breakdown adds up to the same hours
   * (`ks` lists each work type of the period once). The entry carries both
   * rounded to the hundredth.
   */
  lemma WorkBreakdownSum(data: seq<WorkRecord>, period: Period, out: seq<AggregatedWorkData>, i: nat, ks: seq<string>)
    requires WorkAggregation(data, period, out) && i < |out|
    requires Distinct(ks) && forall t :: t in ks <==> t in Keys(Group(data, WorkKey(period), out[i].period), WorkType)
    ensures var g := Group(data, WorkKey(period), out[i].period);
      var a := WorkAccOf(g);
      && (forall j :: 0 <= j < |ks| ==> ks[j] in a.breakdown)
      && a.totalHours == Total(g, Hours)
      && SumAt(a.breakdown, ks) == a.totalHours
      && out[i].totalHours == Round2(a.totalHours)
      && out[i].workBreakdown == RoundValues2(a.breakdown)
  {
    var g := Group(data, WorkKey(period), out[i].period);
    BreakdownTotal(ks, g, WorkType, Hours);
  }

  function CostCounts(out: seq<AggregatedCostData>): (cs: seq<nat>)
    ensures |cs| == |out| && forall i :: 0 <= i < |out| ==> cs[i] == out[i].recordCount
  {
    seq(|out|, i requires 0 <= i < |out| => out[i].recordCount)
  }

  /** Conservation: the record counts of the cost periods add up to the number of cost records. */
  lemma CostCountsTotal(costs: seq<CostRecord>, sales: seq<SalesRecord>, period: Period, out: seq<AggregatedCostData>)
    requires CostAggregation(costs, sales, period, out)
    ensures SumNats(CostCounts(out)) == |costs|
  {
    var ks := CostPeriods(out);
    SortedDistinct(ks);
    CountsAsGroups(ks, CostCounts(out), costs, CostKey(period));
    PartitionCount(ks, costs, CostKey(period));
  }

  /**
   * Each cost period holds at least one cost record, and its cost is the
   * rounded total of those records.
   */
  lemma CostPeriodFacts(costs: seq<CostRecord>, sales: seq<SalesRecord>, period: Period, out: seq<AggregatedCostData>, i: nat)
    requires CostAggregation(costs, sales, period, out) && i < |out|
    ensures var g := Group(costs, CostKey(period), out[i].period);
      && g != [] && out[i].recordCount == |g|
      && out[i].totalCost == Round(Total(g, Amount)) as real
  {
    assert out[i].period in CostPeriods(out);
    KeysGroups(costs, CostKey(period), out[i].period);
  }

  /**
   * Before rounding, a cost period's cost is the sum of its records' amounts,
   * and its per-category breakdown adds up to the same cost (`ks` lists each
   * category of the period once). The entry carries both rounded to whole yen.
   */
  lemma CostBreakdownSum(costs: seq<CostRecord>, sales: seq<SalesRecord>, period: Period, out: seq<AggregatedCostData>, i: nat, ks: seq<string>)
    requires CostAggregation(costs, sales, period, out) && i < |out|
    requires Distinct(ks) && forall t :: t in ks <==> t in Keys(Group(costs, CostKey(period), out[i].period), Category)
    ensures var g := Group(costs, CostKey(period), out[i].period);
      var a := CostAccOf(g);
      && (forall j :: 0 <= j < |ks| ==> ks[j] in a.breakdown)
      && a.totalCost == Total(g, Amount)
      && SumAt(a.breakdown, ks) == a.totalCost
      && out[i].costBreakdown == RoundValues(a.breakdown)
  {
    var g := Group(costs, CostKey(period), out[i].period);
    BreakdownTotal(ks, g, Category, Amount);
  }

  /**
   * The revenue of a cost period is the rounded total of the sales with the
   * same key (0 when there are none), and its margin is 0 whenever that
   * revenue is not positive.
   */
  lemma CostSummaryRevenue(costs: seq<CostRecord>, sales: seq<SalesRecord>, period: Period, k: string)
    ensures CostSummary(costs, sales, period, k).revenue == Round(PeriodRevenue(sales, period, k)) as real
    ensures PeriodRevenue(sales, period, k) <= 0.0 ==> CostSummary(costs, sales, period, k).profitMargin == 0.0
    ensures k !in Keys(sales, SaleKey(period)) ==> CostSummary(costs, sales, period, k).revenue == 0.0
  {
    var a := CostAccOf(Group(costs, CostKey(period), k));
    var revenue := PeriodRevenue(sales, period, k);
    assert CostSummary(costs, sales, period, k) == SummarizeCost(k, a, revenue);
    SummaryFields(k, a, revenue);
    if k !in Keys(sales, SaleKey(period)) {
      NoSalesNoRevenue(sales, period, k);
    }
  }

  /** The profit of a cost period is its revenue minus its cost, rounded. */
  lemma CostSummaryProfit(costs: seq<CostRecord>, sales: seq<SalesRecord>, period: Period, k: string)
    ensures CostSummary(costs, sales, period, k).profit
         == Round(PeriodRevenue(sales, period, k) - PeriodCost(costs, period, k)) as real
  {
  }

  /** A period without sales records has revenue 0. */
  lemma NoSalesNoRevenue(sales: seq<SalesRecord>, period: Period, k: string)
    requires k !in Keys(sales, SaleKey(period))
    ensures PeriodRevenue(sales, period, k) == 0.0
  {
    KeysGroups(sales, SaleKey(period), k);
  }

  /** The revenue, profit and margin fields of a cost period's entry. */
  lemma SummaryFields(k: string, a: CostAcc, revenue: real)
    ensures SummarizeCost(k, a, revenue).revenue == Round(revenue) as real
    ensures SummarizeCost(k, a, revenue).profit == Round(revenue - a.totalCost) as real
    ensures revenue <= 0.0 ==> SummarizeCost(k, a, revenue).profitMargin == 0.0
    ensures revenue == 0.0 ==> SummarizeCost(k, a, revenue).revenue == 0.0
  {
    RoundWhole(0);
  }
}
