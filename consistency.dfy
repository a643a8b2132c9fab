/**
 * The advisory consistency check of the detailed analysis: the date spans of
 * the three record lists should overlap, none of the lists should be empty,
 * and every crop that was sold should have work records.
 */
module Consistency {
  import opened Common
  import opened Text
  import opened Seqs
  import opened Ordering
  import opened AnalysisRecords
  import opened AnalysisFilters

  datatype DateRange = DateRange(start: string, end: string)

  datatype ConsistencyReport = ConsistencyReport(isValid: bool, issues: seq<string>)

  const WorkCostDisjoint: string := "作業記録とコスト記録の期間が重複していません"
  const WorkSalesDisjoint: string := "作業記録と売上記録の期間が重複していません"
  const NoWorkData: string := "作業記録データがありません"
  const NoCostData: string := "コスト記録データがありません"
  const NoSalesData: string := "売上記録データがありません"
  const CropsWithoutWork: string := "売上はあるが作業記録がない作物があります: "

  /** The default `sort()` order on strings, as "may precede". */
  function StrAtMost(): (string, string) -> bool { (a, b) => StrLe(a, b) }

  lemma StrAtMostPreorder()
    ensures TotalPreorder(StrAtMost())
  {
    forall a, b ensures StrLe(a, b) || StrLe(b, a) {
      StrLeTotal(a, b);
    }
    forall a, b, c | StrLe(a, b) && StrLe(b, c) ensures StrLe(a, c) {
      StrLeTransitive(a, b, c);
    }
  }

  /** The first and the last element of a sorted list bound every element. */
  lemma SortedEnds(s: seq<string>, d: string)
    requires SortedBy(s, StrAtMost()) && d in s
    ensures StrLe(s[0], d) && StrLe(d, s[|s| - 1])
  {
    var k :| 0 <= k < |s| && s[k] == d;
    if k > 0 {
      assert StrAtMost()(s[0], s[k]);
    }
    if k < |s| - 1 {
      assert StrAtMost()(s[k], s[|s| - 1]);
    }
  }

  /** `getDateRange(dates)`: the earliest and the latest date in string order, `null` for no dates. */
  function GetDateRange(dates: seq<string>): (r: Option<DateRange>)
    ensures r.None? <==> dates == []
    ensures r.Some? ==> r.value.start in dates && r.value.end in dates
    ensures r.Some? ==> forall i :: 0 <= i < |dates| ==>
      StrLe(r.value.start, dates[i]) && StrLe(dates[i], r.value.end)
  {
    if dates == [] then None
    else
      StrAtMostPreorder();
      var sorted := SortBy(dates, StrAtMost());
      assert |sorted| == |multiset(sorted)| == |dates|;
      assert sorted[0] in multiset(dates) && sorted[|sorted| - 1] in multiset(dates);
      assert forall i :: 0 <= i < |dates| ==> dates[i] in multiset(sorted);
      assert forall d :: d in sorted ==> StrLe(sorted[0], d) && StrLe(d, sorted[|sorted| - 1]) by {
        forall d | d in sorted ensures StrLe(sorted[0], d) && StrLe(d, sorted[|sorted| - 1]) {
          SortedEnds(sorted, d);
        }
      }
      Some(DateRange(sorted[0], sorted[|sorted| - 1]))
  }

  /** `isDateRangeOverlap(range1, range2)`. */
  predicate Overlap(r1: Option<DateRange>, r2: Option<DateRange>)
  {
    r1.Some? && r2.Some? && StrLe(r1.value.start, r2.value.end) && StrLe(r2.value.start, r1.value.end)
  }

  /** Two date lists with a date in common have overlapping ranges; a list with no dates overlaps nothing. */
  lemma SharedDateOverlaps(a: seq<string>, b: seq<string>, d: string)
    requires d in a && d in b
    ensures Overlap(GetDateRange(a), GetDateRange(b))
  {
    var ra := GetDateRange(a).value;
    var rb := GetDateRange(b).value;
    var i :| 0 <= i < |a| && a[i] == d;
    var j :| 0 <= j < |b| && b[j] == d;
    StrLeTransitive(ra.start, d, rb.end);
    StrLeTransitive(rb.start, d, ra.end);
  }

  lemma OverlapSymmetric(r1: Option<DateRange>, r2: Option<DateRange>)
    ensures Overlap(r1, r2) <==> Overlap(r2, r1)
    ensures r1.None? || r2.None? ==> !Overlap(r1, r2)
  {
  }

  function WorkDates(work: seq<WorkRecord>): (ds: seq<string>)
    ensures |ds| == |work| && forall i :: 0 <= i < |work| ==> ds[i] == work[i].date
  {
    seq(|work|, i requires 0 <= i < |work| => work[i].date)
  }

  function CostDates(costs: seq<CostRecord>): (ds: seq<string>)
    ensures |ds| == |costs| && forall i :: 0 <= i < |costs| ==> ds[i] == costs[i].date
  {
    seq(|costs|, i requires 0 <= i < |costs| => costs[i].date)
  }

  function SaleDates(sales: seq<SalesRecord>): (ds: seq<string>)
    ensures |ds| == |sales| && forall i :: 0 <= i < |sales| ==> ds[i] == sales[i].date
  {
    seq(|sales|, i requires 0 <= i < |sales| => sales[i].date)
  }

  /** The crops with sales, in order of first sale, that have no work record. */
  function MissingCrops(work: seq<WorkRecord>, sales: seq<SalesRecord>): seq<string>
  {
    Filter(Dedup(SaleCrops(sales)), c => c !in WorkCrops(work))
  }

  /** The issues in the order they are reported, from the outcome of each test. */
  function IssueList(costOverlap: bool, salesOverlap: bool, noWork: bool, noCosts: bool, noSales: bool, missing: seq<string>): seq<string>
  {
    (if !costOverlap then [WorkCostDisjoint] else [])
    + (if !salesOverlap then [WorkSalesDisjoint] else [])
    + (if noWork then [NoWorkData] else [])
    + (if noCosts then [NoCostData] else [])
    + (if noSales then [NoSalesData] else [])
    + (if |missing| > 0 then [CropsWithoutWork + Join(missing, ", ")] else [])
  }

  function Issues(work: seq<WorkRecord>, costs: seq<CostRecord>, sales: seq<SalesRecord>): seq<string>
  {
    var workRange := GetDateRange(WorkDates(work));
    IssueList(
      Overlap(workRange, GetDateRange(CostDates(costs))), Overlap(workRange, GetDateRange(SaleDates(sales))),
      |work| == 0, |costs| == 0, |sales| == 0, MissingCrops(work, sales))
  }

  /** `validateDataConsistency(workData, costData, salesData)`. */
  method ValidateDataConsistency(work: seq<WorkRecord>, costs: seq<CostRecord>, sales: seq<SalesRecord>)
    returns (report: ConsistencyReport)
    ensures report.issues == Issues(work, costs, sales)
    ensures report.isValid <==> report.issues == []
  {
    var workRange := GetDateRange(WorkDates(work));
    var costRange := GetDateRange(CostDates(costs));
    var salesRange := GetDateRange(SaleDates(sales));
    var missing := MissingCrops(work, sales);
    var issues := CollectIssues(Overlap(workRange, costRange), Overlap(workRange, salesRange),
      |work| == 0, |costs| == 0, |sales| == 0, missing);
    report := ConsistencyReport(|issues| == 0, issues);
  }

  /** The pushes of `validateDataConsistency`, one test after another. */
  method CollectIssues(costOverlap: bool, salesOverlap: bool, noWork: bool, noCosts: bool, noSales: bool, missing: seq<string>)
    returns (issues: seq<string>)
    ensures issues == IssueList(costOverlap, salesOverlap, noWork, noCosts, noSales, missing)
  {
    issues := [];
    ghost var a := if !costOverlap then [WorkCostDisjoint] else [];
    ghost var b := if !salesOverlap then [WorkSalesDisjoint] else [];
    ghost var c := if noWork then [NoWorkData] else [];
    ghost var d := if noCosts then [NoCostData] else [];
    ghost var e := if noSales then [NoSalesData] else [];
    ghost var f := if |missing| > 0 then [CropsWithoutWork + Join(missing, ", ")] else [];
    if !costOverlap {
      issues := issues + [WorkCostDisjoint];
    }
    assert issues == a;
    if !salesOverlap {
      issues := issues + [WorkSalesDisjoint];
    }
    assert issues == a + b;
    if noWork {
      issues := issues + [NoWorkData];
    }
    assert issues == a + b + c;
    if noCosts {
      issues := issues + [NoCostData];
    }
    assert issues == a + b + c + d;
    if noSales {
      issues := issues + [NoSalesData];
    }
    assert issues == a + b + c + d + e;
    if |missing| > 0 {
      issues := issues + [CropsWithoutWork + Join(missing, ", ")];
    }
    assert issues == a + b + c + d + e + f;
  }

  /** No crop is missing exactly when every crop sold also has work records. */
  lemma MissingCropsEmpty(work: seq<WorkRecord>, sales: seq<SalesRecord>)
    ensures MissingCrops(work, sales) == [] <==>
      forall i :: 0 <= i < |sales| ==> exists j :: 0 <= j < |work| && work[j].crop == sales[i].crop
  {
    var p := (c: string) => c !in WorkCrops(work);
    var missing := MissingCrops(work, sales);
    if missing == [] {
      forall i | 0 <= i < |sales| ensures exists j :: 0 <= j < |work| && work[j].crop == sales[i].crop {
        var c := SaleCrops(sales)[i];
        assert c in Dedup(SaleCrops(sales));
        FilterIn(Dedup(SaleCrops(sales)), p, c);
        var j :| 0 <= j < |work| && WorkCrops(work)[j] == c;
      }
    } else {
      var c := missing[0];
      assert c in missing;
      FilterIn(Dedup(SaleCrops(sales)), p, c);
      var i :| 0 <= i < |SaleCrops(sales)| && SaleCrops(sales)[i] == c;
      assert !(exists j :: 0 <= j < |work| && work[j].crop == sales[i].crop);
    }
  }

  /**
   * The data pass exactly when all three lists have records, the
   * work dates overlap the cost dates and the sales dates, and every crop
   * sold has work records.
   */
  lemma ValidExactly(work: seq<WorkRecord>, costs: seq<CostRecord>, sales: seq<SalesRecord>)
    ensures Issues(work, costs, sales) == [] <==>
      && work != [] && costs != [] && sales != []
      && Overlap(GetDateRange(WorkDates(work)), GetDateRange(CostDates(costs)))
      && Overlap(GetDateRange(WorkDates(work)), GetDateRange(SaleDates(sales)))
      && (forall i :: 0 <= i < |sales| ==> exists j :: 0 <= j < |work| && work[j].crop == sales[i].crop)
  {
    MissingCropsEmpty(work, sales);
  }
}
