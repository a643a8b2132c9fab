/**
 * The filter panel of the detailed analysis applied to the three record
 * lists, and the option lists (crops, work types, cost categories) offered by
 * the panel, collected from the records.
 */
module AnalysisFilters {
  import opened Common
  import opened Text
  import opened Seqs
  import opened Ordering
  import opened AnalysisRecords

  /** Not rejected by `date < startDate || date > endDate` on strings. */
  predicate InDateRange(f: Filters, date: string)
  {
    !(StrLt(date, f.startDate) || StrLt(f.endDate, date))
  }

  /** Not rejected by `selection.length > 0 && !selection.includes(x)`: an empty selection admits everything. */
  predicate Admits(selection: seq<string>, x: string)
  {
    !(|selection| > 0 && x !in selection)
  }

  /** The truthiness of an optional crop: absent and empty both count as "no crop". */
  predicate CropGiven(crop: Option<string>)
  {
    crop.Some? && crop.value != ""
  }

  predicate WorkPasses(f: Filters, r: WorkRecord)
  {
    InDateRange(f, r.date) && Admits(f.crops, r.crop) && Admits(f.workTypes, r.workType)
  }

  /** A cost without a crop is not subject to the crop selection. */
  predicate CostPasses(f: Filters, r: CostRecord)
  {
    && InDateRange(f, r.date)
    && !(|f.crops| > 0 && CropGiven(r.crop) && r.crop.value !in f.crops)
    && Admits(f.costCategories, r.category)
  }

  predicate SalePasses(f: Filters, r: SalesRecord)
  {
    InDateRange(f, r.date) && Admits(f.crops, r.crop)
  }

  function WorkTest(f: Filters): WorkRecord -> bool { r => WorkPasses(f, r) }

  function CostTest(f: Filters): CostRecord -> bool { r => CostPasses(f, r) }

  function SaleTest(f: Filters): SalesRecord -> bool { r => SalePasses(f, r) }

  /** `filterWorkData(data, filters)`. */
  function FilterWorkData(data: seq<WorkRecord>, f: Filters): (r: seq<WorkRecord>)
    ensures Subsequence(r, data)
  {
    FilterSubsequence(data, WorkTest(f));
    Filter(data, WorkTest(f))
  }

  /** `filterCostData(data, filters)`. */
  function FilterCostData(data: seq<CostRecord>, f: Filters): (r: seq<CostRecord>)
    ensures Subsequence(r, data)
  {
    FilterSubsequence(data, CostTest(f));
    Filter(data, CostTest(f))
  }

  /** `filterSalesData(data, filters)`. */
  function FilterSalesData(data: seq<SalesRecord>, f: Filters): (r: seq<SalesRecord>)
    ensures Subsequence(r, data)
  {
    FilterSubsequence(data, SaleTest(f));
    Filter(data, SaleTest(f))
  }

  /** The date bounds are inclusive: a date passes exactly when `startDate <= date <= endDate`. */
  lemma InDateRangeInclusive(f: Filters, date: string)
    ensures InDateRange(f, date) <==> StrLe(f.startDate, date) && StrLe(date, f.endDate)
  {
    if StrLt(date, f.startDate) {
      StrLtAsymmetric(date, f.startDate);
      StrLtIrreflexive(date);
    } else if date != f.startDate {
      StrLtTotal(date, f.startDate);
    }
    if StrLt(f.endDate, date) {
      StrLtAsymmetric(f.endDate, date);
      StrLtIrreflexive(date);
    } else if date != f.endDate {
      StrLtTotal(date, f.endDate);
    }
  }

  /** A work record is kept exactly when it is listed and passes every criterion. */
  lemma FilterWorkMembers(data: seq<WorkRecord>, f: Filters, x: WorkRecord)
    ensures x in FilterWorkData(data, f) <==>
      && x in data
      && StrLe(f.startDate, x.date) && StrLe(x.date, f.endDate)
      && (f.crops == [] || x.crop in f.crops)
      && (f.workTypes == [] || x.workType in f.workTypes)
  {
    FilterIn(data, WorkTest(f), x);
    InDateRangeInclusive(f, x.date);
  }

  /** A cost record is kept exactly when it is listed and passes every criterion; a cost with no crop ignores the crop selection. */
  lemma FilterCostMembers(data: seq<CostRecord>, f: Filters, x: CostRecord)
    ensures x in FilterCostData(data, f) <==>
      && x in data
      && StrLe(f.startDate, x.date) && StrLe(x.date, f.endDate)
      && (f.crops == [] || !CropGiven(x.crop) || x.crop.value in f.crops)
      && (f.costCategories == [] || x.category in f.costCategories)
  {
    FilterIn(data, CostTest(f), x);
    InDateRangeInclusive(f, x.date);
  }

  /** A sale is kept exactly when it is listed, in the date range and of a selected crop. */
  lemma FilterSalesMembers(data: seq<SalesRecord>, f: Filters, x: SalesRecord)
    ensures x in FilterSalesData(data, f) <==>
      && x in data
      && StrLe(f.startDate, x.date) && StrLe(x.date, f.endDate)
      && (f.crops == [] || x.crop in f.crops)
  {
    FilterIn(data, SaleTest(f), x);
    InDateRangeInclusive(f, x.date);
  }

  /** Applying a filter twice is applying it once. */
  lemma FiltersIdempotent(work: seq<WorkRecord>, costs: seq<CostRecord>, sales: seq<SalesRecord>, f: Filters)
    ensures FilterWorkData(FilterWorkData(work, f), f) == FilterWorkData(work, f)
    ensures FilterCostData(FilterCostData(costs, f), f) == FilterCostData(costs, f)
    ensures FilterSalesData(FilterSalesData(sales, f), f) == FilterSalesData(sales, f)
  {
    FilterIdempotent(work, WorkTest(f));
    FilterIdempotent(costs, CostTest(f));
    FilterIdempotent(sales, SaleTest(f));
  }

  /** With nothing selected and a date range that admits everything, the work filter keeps the whole list. */
  lemma NoSelectionKeepsAll(work: seq<WorkRecord>, f: Filters)
    requires f.crops == [] && f.workTypes == []
    requires forall i :: 0 <= i < |work| ==> StrLe(f.startDate, work[i].date) && StrLe(work[i].date, f.endDate)
    ensures FilterWorkData(work, f) == work
  {
    forall i | 0 <= i < |work| ensures WorkPasses(f, work[i]) {
      InDateRangeInclusive(f, work[i].date);
    }
    FilterAllPass(work, WorkTest(f));
  }

  // ----- the option lists -----

  function WorkCrops(work: seq<WorkRecord>): (cs: seq<string>)
    ensures |cs| == |work| && forall i :: 0 <= i < |work| ==> cs[i] == work[i].crop
  {
    seq(|work|, i requires 0 <= i < |work| => work[i].crop)
  }

  function WorkTypes(work: seq<WorkRecord>): (ts: seq<string>)
    ensures |ts| == |work| && forall i :: 0 <= i < |work| ==> ts[i] == work[i].workType
  {
    seq(|work|, i requires 0 <= i < |work| => work[i].workType)
  }

  function CostCategories(costs: seq<CostRecord>): (cs: seq<string>)
    ensures |cs| == |costs| && forall i :: 0 <= i < |costs| ==> cs[i] == costs[i].category
  {
    seq(|costs|, i requires 0 <= i < |costs| => costs[i].category)
  }

  function SaleCrops(sales: seq<SalesRecord>): (cs: seq<string>)
    ensures |cs| == |sales| && forall i :: 0 <= i < |sales| ==> cs[i] == sales[i].crop
  {
    seq(|sales|, i requires 0 <= i < |sales| => sales[i].crop)
  }

  /** The crops named by cost records, skipping costs whose crop is absent or empty. */
  function CostCrops(costs: seq<CostRecord>): seq<string>
    decreases |costs|
  {
    if costs == [] then []
    else (if CropGiven(costs[0].crop) then [costs[0].crop.value] else []) + CostCrops(costs[1..])
  }

  lemma {:induction false} CostCropsMembers(costs: seq<CostRecord>, c: string)
    ensures c in CostCrops(costs) <==> exists i :: 0 <= i < |costs| && CropGiven(costs[i].crop) && costs[i].crop.value == c
    decreases |costs|
  {
    if costs != [] {
      CostCropsMembers(costs[1..], c);
      if exists i :: 0 <= i < |costs| && CropGiven(costs[i].crop) && costs[i].crop.value == c {
        var i :| 0 <= i < |costs| && CropGiven(costs[i].crop) && costs[i].crop.value == c;
        if i > 0 {
          assert costs[1..][i - 1] == costs[i];
        }
      }
      if exists i :: 0 <= i < |costs[1..]| && CropGiven(costs[1..][i].crop) && costs[1..][i].crop.value == c {
        var i :| 0 <= i < |costs[1..]| && CropGiven(costs[1..][i].crop) && costs[1..][i].crop.value == c;
        assert costs[i + 1] == costs[1..][i];
      }
    }
  }

  /**
   * `getAvailableCrops(work, costs, sales)`: every crop named by some record
   * (a cost's crop only when given), each once, in ascending order; the
   * result is the same whatever order the crops were met in.
   */
  method AvailableCrops(work: seq<WorkRecord>, costs: seq<CostRecord>, sales: seq<SalesRecord>)
    returns (crops: seq<string>)
    ensures StrictlySorted(crops)
    ensures forall c :: c in crops <==> c in WorkCrops(work) || c in CostCrops(costs) || c in SaleCrops(sales)
    ensures crops == SortedUnique(WorkCrops(work) + CostCrops(costs) + SaleCrops(sales))
  {
    var seen := AddEach([], WorkCrops(work));
    seen := AddEach(seen, CostCrops(costs));
    seen := AddEach(seen, SaleCrops(sales));
    crops := SortedUnique(seen);
    SortedUniqueness(crops, SortedUnique(WorkCrops(work) + CostCrops(costs) + SaleCrops(sales)));
  }

  /** `getAvailableWorkTypes(work)`: the work types present, each once, ascending. */
  method AvailableWorkTypes(work: seq<WorkRecord>) returns (types: seq<string>)
    ensures StrictlySorted(types)
    ensures forall t :: t in types <==> exists i :: 0 <= i < |work| && work[i].workType == t
  {
    var seen := AddEach([], WorkTypes(work));
    types := SortedUnique(seen);
    forall t ensures t in types <==> exists i :: 0 <= i < |work| && work[i].workType == t {
      if t in types {
        var i :| 0 <= i < |WorkTypes(work)| && WorkTypes(work)[i] == t;
      }
    }
  }

  /** `getAvailableCostCategories(costs)`: the categories present, each once, ascending. */
  method AvailableCostCategories(costs: seq<CostRecord>) returns (categories: seq<string>)
    ensures StrictlySorted(categories)
    ensures forall c :: c in categories <==> exists i :: 0 <= i < |costs| && costs[i].category == c
  {
    var seen := AddEach([], CostCategories(costs));
    categories := SortedUnique(seen);
    forall c ensures c in categories <==> exists i :: 0 <= i < |costs| && costs[i].category == c {
      if c in categories {
        var i :| 0 <= i < |CostCategories(costs)| && CostCategories(costs)[i] == c;
      }
    }
  }
}
