/**
 * The sample data of the detailed analysis: a year of work records drawn from
 * monthly work patterns, a year of cost records drawn from monthly cost
 * patterns, twenty-eight harvest-season sales, and the validation run over them.
 * Every `Math.random()` is an input: the `k`-th draw is `rand(k)`, in [0, 1).
 */
module AnalysisSample {
  import opened Common
  import opened Text
  import opened Seqs
  import opened Numbers
  import opened Dates
  import opened AnalysisPeriods
  import opened AnalysisRecords
  import AF = AnalysisFilters

  /** `DEV_CONFIG.sampleDataSize`: 100 in development, 50 otherwise. */
  function SampleDataSize(development: bool): nat
  {
    if development then 100 else 50
  }

  // ---- patterns --------------------------------------------------------

  datatype WorkPattern = WorkPattern(
    workType: string, crop: string, frequency: real, baseDuration: real, variability: real)

  /** `getMonthlyWorkPattern(month)`: the work done in each season. */
  function MonthlyWorkPattern(month: int): (ps: seq<WorkPattern>)
    ensures 1 <= month <= 2 ==> |ps| == 2
    ensures 3 <= month <= 12 ==> |ps| == 3
    ensures month < 1 || month > 12 ==> ps == []
    ensures forall j :: 0 <= j < |ps| ==>
      ps[j].crop == "grape" && 0.0 < ps[j].frequency < 1.0 && ps[j].baseDuration > 0.0 && ps[j].variability >= 0.0
  {
    if month == 1 || month == 2 then
      [WorkPattern("管理作業", "grape", 0.3, 120.0, 60.0), WorkPattern("剪定", "grape", 0.4, 180.0, 90.0)]
    else if month == 3 || month == 4 then
      [WorkPattern("施肥", "grape", 0.5, 150.0, 60.0), WorkPattern("除草", "grape", 0.4, 180.0, 90.0),
       WorkPattern("管理作業", "grape", 0.3, 90.0, 45.0)]
    else if month == 5 || month == 6 then
      [WorkPattern("除草", "grape", 0.6, 200.0, 100.0), WorkPattern("防除", "grape", 0.4, 120.0, 60.0),
       WorkPattern("管理作業", "grape", 0.3, 90.0, 45.0)]
    else if month == 7 || month == 8 then
      [WorkPattern("除草", "grape", 0.7, 240.0, 120.0), WorkPattern("防除", "grape", 0.3, 120.0, 60.0),
       WorkPattern("管理作業", "grape", 0.4, 120.0, 60.0)]
    else if month == 9 || month == 10 then
      [WorkPattern("収穫", "grape", 0.8, 300.0, 150.0), WorkPattern("出荷準備", "grape", 0.6, 180.0, 90.0),
       WorkPattern("除草", "grape", 0.3, 150.0, 75.0)]
    else if month == 11 || month == 12 then
      [WorkPattern("収穫", "grape", 0.4, 240.0, 120.0), WorkPattern("出荷準備", "grape", 0.3, 150.0, 75.0),
       WorkPattern("管理作業", "grape", 0.5, 120.0, 60.0)]
    else []
  }

  datatype CostPattern = CostPattern(
    category: string, subcategory: string, baseAmount: real, variability: real,
    description: string, crop: Option<string>, supplier: Option<string>)

  /** The four costs of every month. */
  const BaseCosts: seq<CostPattern> := [
    CostPattern("肥料", "化成肥料", 15000.0, 5000.0, "化成肥料購入", Some("grape"), Some("JA")),
    CostPattern("農薬", "殺菌剤", 8000.0, 3000.0, "殺菌剤購入", Some("grape"), Some("農協")),
    CostPattern("光熱費", "電気代", 12000.0, 4000.0, "電気料金", None, Some("電力会社")),
    CostPattern("燃料費", "ガソリン", 8000.0, 2000.0, "機械燃料", None, Some("ガソリンスタンド"))]

  const SpringCosts: seq<CostPattern> := [
    CostPattern("肥料", "有機肥料", 20000.0, 8000.0, "春の追肥", Some("grape"), Some("肥料店")),
    CostPattern("資材費", "支柱", 15000.0, 5000.0, "支柱材料", Some("grape"), Some("農業資材店"))]

  const SummerCosts: seq<CostPattern> := [
    CostPattern("農薬", "除草剤", 12000.0, 4000.0, "除草剤購入", Some("grape"), Some("農協")),
    CostPattern("光熱費", "水道代", 15000.0, 5000.0, "灌水用水道代", None, Some("水道局"))]

  const HarvestCosts: seq<CostPattern> := [
    CostPattern("人件費", "アルバイト", 60000.0, 20000.0, "収穫期アルバイト", Some("grape"), None),
    CostPattern("資材費", "包装材", 25000.0, 10000.0, "出荷用包装材", Some("grape"), Some("包装資材店"))]

  /** The seasonal additions: spring (3-5), summer (6-8) and harvest (9-11). */
  function SeasonalCosts(month: int): seq<CostPattern>
  {
    if 3 <= month <= 5 then SpringCosts
    else if 6 <= month <= 8 then SummerCosts
    else if 9 <= month <= 11 then HarvestCosts
    else []
  }

  /** `getMonthlyCostPattern(month)`: the four base costs, then the season's. */
  function MonthlyCostPattern(month: int): (ps: seq<CostPattern>)
    ensures |ps| == if 3 <= month <= 11 then 6 else 4
    ensures ps[..4] == BaseCosts
    ensures forall j :: 0 <= j < |ps| ==> ps[j].baseAmount > 0.0 && ps[j].variability >= 0.0
  {
    BaseCosts + SeasonalCosts(month)
  }

  /** The number of cost records of the months before `month`. */
  function CostsBefore(month: nat): nat
    requires month <= 13
  {
    if month <= 1 then 0 else CostsBefore(month - 1) + |MonthlyCostPattern(month - 1)|
  }

  /** A year of cost patterns: four a month, six in the nine months from March to November. */
  lemma {:induction false} CostsOfYear()
    ensures CostsBefore(13) == 66
  {
    assert CostsBefore(3) == 8;
    assert CostsBefore(12) == 8 + 9 * 6;
  }

  // ---- calculateLaborCost ----------------------------------------------

  const HourlyRates: map<string, real> := map[
    "収穫" := 1500.0, "出荷準備" := 1200.0, "除草" := 1000.0, "施肥" := 1100.0,
    "防除" := 1100.0, "剪定" := 1200.0, "管理作業" := 900.0, "その他" := 1000.0]

  /** `hourlyRates[workType] || 1000`. */
  function RateOf(workType: string): (rate: real)
    ensures workType in HourlyRates ==> rate == HourlyRates[workType]
    ensures workType !in HourlyRates ==> rate == 1000.0
    ensures 900.0 <= rate <= 1500.0
  {
    if workType in HourlyRates && HourlyRates[workType] != 0.0 then HourlyRates[workType] else 1000.0
  }

  /** `calculateLaborCost(duration, workType)`: the hours at the work type's rate, to the nearest yen. */
  function CalculateLaborCost(duration: real, workType: string): (cost: int)
    ensures duration / 60.0 * RateOf(workType) - 0.5 < cost as real <= duration / 60.0 * RateOf(workType) + 0.5
  {
    Round(duration / 60.0 * RateOf(workType))
  }

  /** Longer work of the same type never costs less, and no work costs nothing negative. */
  lemma LaborCostMonotone(d1: real, d2: real, workType: string)
    requires 0.0 <= d1 <= d2
    ensures 0 <= CalculateLaborCost(d1, workType) <= CalculateLaborCost(d2, workType)
  {
    var rate := RateOf(workType);
    assert d1 / 60.0 * rate <= d2 / 60.0 * rate;
    RoundMonotone(d1 / 60.0 * rate, d2 / 60.0 * rate);
    RoundMonotone(0.0, d1 / 60.0 * rate);
  }

  // ---- generateWorkNotes -----------------------------------------------

  const NoteTemplates: map<string, seq<string>> := map[
    "除草" := ["畑の除草作業", "雑草除去", "草刈り作業", "手作業での除草"],
    "収穫" := ["果実の収穫", "収穫作業", "選別しながら収穫", "朝の収穫作業"],
    "施肥" := ["肥料散布", "追肥作業", "有機肥料投入", "土壌改良"],
    "出荷準備" := ["選別・梱包", "出荷用準備", "箱詰め作業", "品質チェック"],
    "防除" := ["病害虫防除", "薬剤散布", "予防散布", "防虫対策"],
    "剪定" := ["枝の剪定", "整枝作業", "不要枝除去", "樹形調整"],
    "管理作業" := ["圃場管理", "設備点検", "資材整理", "記録作業"]]

  /** `noteTemplates[workType] || ['作業実施']`. */
  function TemplatesOf(workType: string): (ts: seq<string>)
    ensures |ts| >= 1
  {
    if workType in NoteTemplates && |NoteTemplates[workType]| >= 1 then NoteTemplates[workType] else ["作業実施"]
  }

  /** `Math.floor(draw * n)`: a position drawn from `0..n-1`. */
  function Pick(draw: real, n: nat): (i: nat)
    requires 0.0 <= draw < 1.0 && n >= 1
    ensures i < n
  {
    (draw * n as real).Floor
  }

  /** `generateWorkNotes(workType, crop)`: a template for the work type, with the crop in brackets. */
  function GenerateWorkNotes(workType: string, crop: string, draw: real): (note: string)
    requires 0.0 <= draw < 1.0
    ensures exists j :: 0 <= j < |TemplatesOf(workType)| && note == TemplatesOf(workType)[j] + "（" + crop + "）"
  {
    TemplatesOf(workType)[Pick(draw, |TemplatesOf(workType)|)] + "（" + crop + "）"
  }

  // ---- dates -----------------------------------------------------------

  /** `2024-${MM}-${DD}`, month and day padded to two places. */
  function WorkDate(month: nat, day: nat): string
  {
    "2024-" + Pad2(month) + "-" + Pad2(day)
  }

  /** `2024-${MM}-${day}`: the cost dates pad the month but not the day. */
  function CostDate(month: nat, day: nat): string
  {
    "2024-" + Pad2(month) + "-" + NatToString(day)
  }

  /** The padded dates have the `^\d{4}-\d{2}-\d{2}$` shape. */
  lemma WorkDateShape(month: nat, day: nat)
    requires month < 100 && day < 100
    ensures IsoShape(WorkDate(month, day))
  {
    Pad2Facts(month);
    Pad2Facts(day);
    YearDateShape(Pad2(month), Pad2(day));
  }

  /** `2024-` followed by two digits, a dash and two digits has the `YYYY-MM-DD` shape. */
  lemma YearDateShape(mm: string, dd: string)
    requires |mm| == 2 && |dd| == 2 && AllDigits(mm) && AllDigits(dd)
    ensures IsoShape("2024-" + mm + "-" + dd)
  {
    var s := "2024-" + mm + "-" + dd;
    assert s[..4] == "2024";
    assert s[5..7] == mm;
    assert s[8..] == dd;
  }

  /** Whatever the day, a work date begins with the year and the padded month. */
  lemma WorkDateMonth(month: nat, day: nat)
    requires month < 100
    ensures WorkDate(month, day)[5..7] == Pad2(month)
  {
    Pad2Facts(month);
  }

  /** A filter covering one whole month of 2024, from day 01 to day 31. */
  function MonthFilter(month: nat): AnalysisRecords.Filters
  {
    AnalysisRecords.Filters(WorkDate(month, 1), WorkDate(month, 31), [], [], [], Monthly, false)
  }

  /** The single digit of a day from 4 to 9 sorts after the "31" of a month's last day. */
  lemma LateDigitAfter31(p: string, day: nat)
    requires 4 <= day <= 9
    ensures StrLt(p + Pad2(31), p + NatToString(day))
  {
    var last, single := Pad2(31), NatToString(day);
    Pad2Digits(31);
    assert last == [DigitChar(3), DigitChar(1)];
    assert single == [DigitChar(day)];
    assert last[0] < single[0];
    assert StrLt(last, single);
    StrLtPrefix(p, last, single);
  }

  /**
   * As written, a cost dated on the 4th to the 9th of a month falls outside
   * that month's filter: `"2024-03-5"` sorts after `"2024-03-31"`.
   */
  lemma UnpaddedCostDateDropped(month: nat, day: nat)
    requires 1 <= month <= 12 && 4 <= day <= 9
    ensures !AF.InDateRange(MonthFilter(month), CostDate(month, day))
  {
    var p := "2024-" + Pad2(month) + "-";
    LateDigitAfter31(p, day);
  }

  /** Between the padded first and last day, in string order. */
  lemma PaddedDayBetween(p: string, day: nat)
    requires 1 <= day <= 31
    ensures !StrLt(p + Pad2(day), p + Pad2(1)) && !StrLt(p + Pad2(31), p + Pad2(day))
  {
    StrLtPrefix(p, Pad2(day), Pad2(1));
    StrLtPrefix(p, Pad2(31), Pad2(day));
    if day > 1 {
      Pad2Order(1, day);
      StrLtAsymmetric(Pad2(1), Pad2(day));
    } else {
      StrLtIrreflexive(Pad2(1));
    }
    if day < 31 {
      Pad2Order(day, 31);
      StrLtAsymmetric(Pad2(day), Pad2(31));
    } else {
      StrLtIrreflexive(Pad2(31));
    }
  }

  /** With the day padded as well, every day of the month passes that month's filter. */
  lemma PaddedCostDateKept(month: nat, day: nat)
    requires 1 <= month <= 12 && 1 <= day <= 31
    ensures AF.InDateRange(MonthFilter(month), WorkDate(month, day))
  {
    PaddedDayBetween("2024-" + Pad2(month) + "-", day);
  }

  // ---- generateSampleWorkData ------------------------------------------

  /** What every generated work record satisfies. */
  predicate GoodWork(r: WorkRecord, i: nat)
  {
    && r.id == i + 1
    && IsoShape(r.date)
    && r.crop == "grape"
    && r.duration >= 0.0
    && r.laborCost.Some? && r.laborCost.value >= 0.0
  }

  /**
   * One day of `generateSampleWorkData`: each pattern of the month is carried
   * out when its draw falls below its frequency; a record then takes a draw
   * for the duration and one for the note.
   */
  method PushWorkDay(all: seq<WorkRecord>, id: int, k: nat, rand: nat -> real, patterns: seq<WorkPattern>,
                     date: string, now: string)
    returns (all': seq<WorkRecord>, id': int, k': nat)
    requires forall n :: 0.0 <= rand(n) < 1.0
    requires id == |all| + 1 && forall i :: 0 <= i < |all| ==> GoodWork(all[i], i)
    requires IsoShape(date)
    requires forall j :: 0 <= j < |patterns| ==>
      patterns[j].crop == "grape" && patterns[j].baseDuration > 0.0 && patterns[j].variability >= 0.0
    ensures id' == |all'| + 1 && forall i :: 0 <= i < |all'| ==> GoodWork(all'[i], i)
  {
    all', id', k' := all, id, k;
    for j := 0 to |patterns|
      invariant id' == |all'| + 1 && forall i :: 0 <= i < |all'| ==> GoodWork(all'[i], i)
    {
      var p := patterns[j];
      var draw := rand(k');
      k' := k' + 1;
      if draw < p.frequency {
        var spread := rand(k') * p.variability;
        assert spread >= 0.0 by { NonNegativeProduct(rand(k'), p.variability); }
        var duration := p.baseDuration + spread;
        k' := k' + 1;
        var notes := GenerateWorkNotes(p.workType, p.crop, rand(k'));
        k' := k' + 1;
        var r := WorkEntry(id', date, p, duration, notes, now);
        assert GoodWork(r, |all'|);
        GoodWorkSnoc(all', r);
        all' := all' + [r];
        id' := id' + 1;
      }
    }
  }

  /** The record pushed for one pattern: duration rounded to whole minutes, labour cost from the hourly rate. */
  function WorkEntry(id: int, date: string, p: WorkPattern, duration: real, notes: string, now: string): (r: WorkRecord)
    requires duration >= 0.0
    ensures r.id == id && r.date == date && r.crop == p.crop && r.workType == p.workType
    ensures r.duration >= 0.0 && r.laborCost.Some? && r.laborCost.value >= 0.0
  {
    LaborCostMonotone(0.0, duration, p.workType);
    RoundBetween(duration, 0, duration.Floor + 1);
    WorkRecord(id, date, p.workType, Round(duration) as real, p.crop,
      Some(CalculateLaborCost(duration, p.workType) as real), Some(notes), now, now)
  }

  lemma NonNegativeProduct(x: real, y: real)
    requires x >= 0.0 && y >= 0.0
    ensures x * y >= 0.0
  {
  }

  lemma GoodWorkSnoc(all: seq<WorkRecord>, r: WorkRecord)
    requires forall i :: 0 <= i < |all| ==> GoodWork(all[i], i)
    requires GoodWork(r, |all|)
    ensures forall i :: 0 <= i < |all| + 1 ==> GoodWork((all + [r])[i], i)
  {
    forall i | 0 <= i < |all| + 1
      ensures GoodWork((all + [r])[i], i)
    {
      if i < |all| {
        assert (all + [r])[i] == all[i];
      }
    }
  }

  /**
   * `generateSampleWorkData()` with `DEV_CONFIG.sampleDataSize` as `dataSize`:
   * days of each month of 2024 are visited with random steps of one to three
   * days, until `dataSize` records exist; the list is then cut to `dataSize`.
   */
  method GenerateSampleWorkData(rand: nat -> real, dataSize: nat, now: string) returns (records: seq<WorkRecord>)
    requires forall n :: 0.0 <= rand(n) < 1.0
    ensures |records| <= dataSize
    ensures forall i :: 0 <= i < |records| ==> GoodWork(records[i], i)
  {
    var all: seq<WorkRecord> := [];
    var id := 1;
    var k: nat := 0;
    var month := 1;
    while month <= 12
      invariant 1 <= month <= 13
      invariant id == |all| + 1 && forall i :: 0 <= i < |all| ==> GoodWork(all[i], i)
    {
      var daysInMonth := DaysInMonth(2024, month);
      var patterns := MonthlyWorkPattern(month);
      var day := 1;
      while day <= daysInMonth
        invariant 1 <= day
        invariant id == |all| + 1 && forall i :: 0 <= i < |all| ==> GoodWork(all[i], i)
        decreases daysInMonth + 1 - day
      {
        WorkDateShape(month, day);
        all, id, k := PushWorkDay(all, id, k, rand, patterns, WorkDate(month, day), now);
        if |all| >= dataSize {
          break;
        }
        day := day + Pick(rand(k), 3) + 1;
        k := k + 1;
      }
      if |all| >= dataSize {
        break;
      }
      month := month + 1;
    }
    records := if |all| <= dataSize then all else all[..dataSize];
  }

  // ---- generateSampleCostData ------------------------------------------

  /** What every generated cost record satisfies: numbered from 1, a whole non-negative amount. */
  predicate GoodCost(r: CostRecord, i: nat)
  {
    r.id == i + 1 && r.amount >= 0.0 && r.amount == r.amount.Floor as real
  }

  /**
   * `generateSampleCostData()`: every pattern of every month gives one record,
   * its amount drawn around the base amount and cut off at zero, its day drawn
   * from 1 to 28.
   */
  method GenerateSampleCostData(rand: nat -> real, now: string) returns (records: seq<CostRecord>)
    requires forall n :: 0.0 <= rand(n) < 1.0
    ensures |records| == 66
    ensures forall i :: 0 <= i < |records| ==> GoodCost(records[i], i)
  {
    records := [];
    var id := 1;
    var k: nat := 0;
    for month := 1 to 13
      invariant id == |records| + 1 && |records| == CostsBefore(month)
      invariant forall i :: 0 <= i < |records| ==> GoodCost(records[i], i)
    {
      var patterns := MonthlyCostPattern(month);
      for j := 0 to |patterns|
        invariant id == |records| + 1 && |records| == CostsBefore(month) + j
        invariant forall i :: 0 <= i < |records| ==> GoodCost(records[i], i)
      {
        var p := patterns[j];
        var amount := p.baseAmount + (rand(k) - 0.5) * p.variability;
        k := k + 1;
        var day := Pick(rand(k), 28) + 1;
        k := k + 1;
        var kept := Round(Max(0.0, amount));
        assert kept >= 0;
        records := records + [CostRecord(id, CostDate(month, day), p.category, Some(p.subcategory), kept as real,
          p.description, p.crop, p.supplier, now, now)];
        id := id + 1;
      }
    }
    CostsOfYear();
  }

  // ---- generateSampleSalesData -----------------------------------------

  /** Eight sales in the peak months September and October, four in August, November and December. */
  function SalesCount(month: nat): nat
  {
    if month == 9 || month == 10 then 8 else 4
  }

  /** The number of sales generated before `month`, from August on. */
  function SalesBefore(month: nat): nat
    requires 8 <= month <= 13
  {
    if month == 8 then 0 else SalesBefore(month - 1) + SalesCount(month - 1)
  }

  /** The month of the `i`-th generated sale. */
  function SalesMonth(i: nat): nat
  {
    if i < 4 then 8 else if i < 12 then 9 else if i < 20 then 10 else if i < 24 then 11 else 12
  }

  /** The sales of a month follow those of the months before it. */
  lemma SalesMonthOf(month: nat, i: nat)
    requires 8 <= month <= 12 && i < SalesCount(month)
    ensures SalesMonth(SalesBefore(month) + i) == month
  {
    assert SalesBefore(9) == 4 && SalesBefore(10) == 12 && SalesBefore(11) == 20 && SalesBefore(12) == 24;
  }

  /** What a sale generated for `month` satisfies. */
  predicate SaleShape(r: SalesRecord, month: nat)
  {
    && IsoShape(r.date) && r.date[5..7] == Pad2(month)
    && r.crop == "grape"
    && 20.0 <= r.quantity <= 100.0
    && (r.channel == "direct_sales" || r.channel == "wholesale_market")
    && (r.channel == "direct_sales" <==> r.notes == Some("産直販売"))
    && (r.channel == "wholesale_market" <==> r.notes == Some("よ市出荷"))
    && (r.channel == "direct_sales" ==> 400.0 <= r.unitPrice <= 500.0)
    && (r.channel == "wholesale_market" ==> 300.0 <= r.unitPrice <= 350.0)
  }

  /** What every generated sale satisfies: numbered from 1, dated in its month. */
  predicate GoodSale(r: SalesRecord, i: nat)
  {
    r.id == i + 1 && SaleShape(r, SalesMonth(i))
  }

  /** A draw in [0, 1) scaled to `width` and moved to `lo` stays in [lo, lo + width]. */
  lemma ScaledDraw(draw: real, lo: real, width: real)
    requires 0.0 <= draw < 1.0 && width >= 0.0
    ensures lo <= lo + draw * width <= lo + width
  {
    assert draw * width <= 1.0 * width;
  }

  /** One sale: draws for the day, the channel, the quantity and the unit price, in that order. */
  method DrawSale(rand: nat -> real, k: nat, id: int, month: nat, now: string) returns (r: SalesRecord, k': nat)
    requires forall n :: 0.0 <= rand(n) < 1.0
    requires 8 <= month <= 12
    ensures k' == k + 4
    ensures r.id == id && SaleShape(r, month)
  {
    var day := Pick(rand(k), 28) + 1;
    var isDirectSales := rand(k + 1) < 0.4;
    var quantity := 20.0 + rand(k + 2) * 80.0;
    ScaledDraw(rand(k + 2), 20.0, 80.0);
    RoundBetween(quantity, 20, 100);
    var unitPrice: real;
    if isDirectSales {
      unitPrice := 400.0 + rand(k + 3) * 100.0;
      ScaledDraw(rand(k + 3), 400.0, 100.0);
      RoundBetween(unitPrice, 400, 500);
    } else {
      unitPrice := 300.0 + rand(k + 3) * 50.0;
      ScaledDraw(rand(k + 3), 300.0, 50.0);
      RoundBetween(unitPrice, 300, 350);
    }
    k' := k + 4;
    WorkDateShape(month, day);
    WorkDateMonth(month, day);
    var channel := if isDirectSales then "direct_sales" else "wholesale_market";
    var note := if isDirectSales then "産直販売" else "よ市出荷";
    assert channel == "direct_sales" <==> isDirectSales;
    assert channel == "wholesale_market" <==> !isDirectSales;
    assert note == "産直販売" <==> isDirectSales;
    r := SalesRecord(id, WorkDate(month, day), "grape", Round(quantity) as real, Round(unitPrice) as real,
      Round(quantity * unitPrice) as real, channel, Some(note), now, now);
  }

  /** `generateSampleSalesData()`: 28 grape sales from August to December 2024. */
  method GenerateSampleSalesData(rand: nat -> real, now: string) returns (records: seq<SalesRecord>)
    requires forall n :: 0.0 <= rand(n) < 1.0
    ensures |records| == 28
    ensures forall i :: 0 <= i < |records| ==> GoodSale(records[i], i)
  {
    records := [];
    var id := 1;
    var k: nat := 0;
    for month := 8 to 13
      invariant id == |records| + 1 && |records| == SalesBefore(month)
      invariant forall i :: 0 <= i < |records| ==> GoodSale(records[i], i)
    {
      var salesCount := SalesCount(month);
      for i := 0 to salesCount
        invariant id == |records| + 1 && |records| == SalesBefore(month) + i
        invariant forall n :: 0 <= n < |records| ==> GoodSale(records[n], n)
      {
        var r;
        r, k := DrawSale(rand, k, id, month, now);
        SalesMonthOf(month, i);
        GoodSaleSnoc(records, r);
        records := records + [r];
        id := id + 1;
      }
    }
    assert SalesBefore(10) == 12;
    assert SalesBefore(12) == 24;
  }

  lemma GoodSaleSnoc(all: seq<SalesRecord>, r: SalesRecord)
    requires forall i :: 0 <= i < |all| ==> GoodSale(all[i], i)
    requires GoodSale(r, |all|)
    ensures forall i :: 0 <= i < |all| + 1 ==> GoodSale((all + [r])[i], i)
  {
    forall i | 0 <= i < |all| + 1
      ensures GoodSale((all + [r])[i], i)
    {
      if i < |all| {
        assert (all + [r])[i] == all[i];
      }
    }
  }

  // ---- validateSampleData ----------------------------------------------

  datatype SampleData = SampleData(
    workRecords: seq<WorkRecord>, costRecords: seq<CostRecord>, salesRecords: seq<SalesRecord>)

  datatype SampleCheck = SampleCheck(isValid: bool, errors: seq<string>)

  const EmptyWork := "作業記録データが空です"
  const EmptyCost := "コスト記録データが空です"
  const EmptySales := "売上記録データが空です"

  function BadDate(): WorkRecord -> bool { (r: WorkRecord) => !IsoShape(r.date) }

  function NegativeAmount(): CostRecord -> bool { (r: CostRecord) => r.amount < 0.0 }

  /** The number of empty lists. */
  function EmptyCount(data: SampleData): nat
  {
    (if |data.workRecords| == 0 then 1 else 0)
    + (if |data.costRecords| == 0 then 1 else 0)
    + (if |data.salesRecords| == 0 then 1 else 0)
  }

  function DateMessage(index: nat, date: string): string
  {
    "作業記録" + NatToString(index + 1) + "の日付形式が正しくありません: " + date
  }

  function AmountMessage(index: nat, amount: string): string
  {
    "コスト記録" + NatToString(index + 1) + "の金額が負の値です: " + amount
  }

  /**
   * `validateSampleData(data)`, with the number formatting of the amount
   * message as `show`: one error per empty list, per badly shaped work date
   * and per negative cost amount.
   */
  method ValidateSampleData(data: SampleData, show: real -> string) returns (result: SampleCheck)
    ensures result.isValid <==> result.errors == []
    ensures |result.errors| == EmptyCount(data) + Count(data.workRecords, BadDate()) + Count(data.costRecords, NegativeAmount())
    ensures forall i :: 0 <= i < |data.workRecords| && !IsoShape(data.workRecords[i].date) ==>
      DateMessage(i, data.workRecords[i].date) in result.errors
  {
    var errors: seq<string> := [];
    if |data.workRecords| == 0 { errors := errors + [EmptyWork]; }
    if |data.costRecords| == 0 { errors := errors + [EmptyCost]; }
    if |data.salesRecords| == 0 { errors := errors + [EmptySales]; }
    var work := data.workRecords;
    for i := 0 to |work|
      invariant |errors| == EmptyCount(data) + Count(work[..i], BadDate())
      invariant forall n :: 0 <= n < i && !IsoShape(work[n].date) ==> DateMessage(n, work[n].date) in errors
    {
      if !IsoShape(work[i].date) {
        errors := errors + [DateMessage(i, work[i].date)];
      }
      CountSnoc(work[..i], work[i], BadDate());
      assert work[..i + 1] == work[..i] + [work[i]];
    }
    assert work[..|work|] == work;
    var costs := data.costRecords;
    for i := 0 to |costs|
      invariant |errors| == EmptyCount(data) + Count(work, BadDate()) + Count(costs[..i], NegativeAmount())
      invariant forall n :: 0 <= n < |work| && !IsoShape(work[n].date) ==> DateMessage(n, work[n].date) in errors
    {
      if costs[i].amount < 0.0 {
        errors := errors + [AmountMessage(i, show(costs[i].amount))];
      }
      CountSnoc(costs[..i], costs[i], NegativeAmount());
      assert costs[..i + 1] == costs[..i] + [costs[i]];
    }
    assert costs[..|costs|] == costs;
    result := SampleCheck(|errors| == 0, errors);
  }

  /**
   * Validation passes exactly when no list is empty, every work date has the
   * `YYYY-MM-DD` shape and no cost is negative.
   */
  lemma ValidIff(data: SampleData)
    ensures EmptyCount(data) + Count(data.workRecords, BadDate()) + Count(data.costRecords, NegativeAmount()) == 0
      <==> && |data.workRecords| > 0 && |data.costRecords| > 0 && |data.salesRecords| > 0
           && (forall i :: 0 <= i < |data.workRecords| ==> IsoShape(data.workRecords[i].date))
           && (forall i :: 0 <= i < |data.costRecords| ==> data.costRecords[i].amount >= 0.0)
  {
    CountZero(data.workRecords, BadDate());
    CountZero(data.costRecords, NegativeAmount());
  }

  /** Generated cost and sales lists, with at least one work record, pass validation. */
  lemma GeneratedDataValid(data: SampleData)
    requires |data.workRecords| > 0 && forall i :: 0 <= i < |data.workRecords| ==> GoodWork(data.workRecords[i], i)
    requires |data.costRecords| == 66 && forall i :: 0 <= i < 66 ==> GoodCost(data.costRecords[i], i)
    requires |data.salesRecords| == 28
    ensures EmptyCount(data) + Count(data.workRecords, BadDate()) + Count(data.costRecords, NegativeAmount()) == 0
  {
    ValidIff(data);
  }
}
