/**
 * Sales per crop and period, the data of the stacked crop-sales chart: the
 * records are grouped by period key, each group is broken down by crop, and
 * one point per period (its label and the crop totals) is produced, sorted
 * by label.
 *
 * Two labellings are modelled. `AsWrittenLabel` is the one the chart code
 * applies: it passes the key itself where the period belongs, so no key is
 * ever turned into a label. `LabelFor(period)` applies the period as intended.
 */
module SalesCrops {
  import opened Common
  import opened Text
  import opened Seqs
  import opened Ordering
  import opened Grouping
  import opened Dates
  import opened SalesTypes
  import opened SalesPeriods

  /** A way of computing a record's grouping key, which may fail. */
  type KeyFunction = SalesRecord -> Result<string, DateError>

  /** `getPeriodKey(record.date, period)`. */
  function PeriodKeyOf(period: AnalysisPeriod): KeyFunction
  {
    (r: SalesRecord) => PeriodKey(r.date, period)
  }

  /** The grouping key of a record; only used where every key is defined. */
  function KeyOf(keyFn: KeyFunction): SalesRecord -> string
  {
    (r: SalesRecord) => match keyFn(r) case Ok(k) => k case Err(_) => ""
  }

  /** Every record has a key: the reduce runs without throwing. */
  predicate KeysDefined(data: seq<SalesRecord>, keyFn: KeyFunction)
  {
    forall i :: 0 <= i < |data| ==> keyFn(data[i]).Ok?
  }

  /** The crop breakdown of the records of period `k`: crop to summed `total`. */
  function CropTotals(data: seq<SalesRecord>, keyFn: KeyFunction, k: string): map<string, real>
  {
    Breakdown(Group(data, KeyOf(keyFn), k), Crop(), Revenue())
  }

  /** The periods in order of first appearance, as `Object.entries` lists the accumulator. */
  function PeriodOrder(data: seq<SalesRecord>, keyFn: KeyFunction): seq<string>
  {
    Dedup(KeyList(data, KeyOf(keyFn)))
  }

  datatype CropSalesPoint = CropSalesPoint(period: string, crops: map<string, real>)

  /** `(a, b) => a.period.localeCompare(b.period) <= 0`. */
  function ByPeriod(): (CropSalesPoint, CropSalesPoint) -> bool
  {
    (a: CropSalesPoint, b: CropSalesPoint) => StrLe(a.period, b.period)
  }

  lemma ByPeriodPreorder()
    ensures TotalPreorder(ByPeriod())
  {
    forall a: CropSalesPoint, b: CropSalesPoint ensures ByPeriod()(a, b) || ByPeriod()(b, a) {
      StrLeTotal(a.period, b.period);
    }
    forall a: CropSalesPoint, b: CropSalesPoint, c: CropSalesPoint
      | ByPeriod()(a, b) && ByPeriod()(b, c)
      ensures ByPeriod()(a, c)
    {
      StrLeTransitive(a.period, b.period, c.period);
    }
  }

  /** One point per listed period key. */
  function Points(data: seq<SalesRecord>, keyFn: KeyFunction, labelOf: string -> string, ks: seq<string>): (ps: seq<CropSalesPoint>)
    ensures |ps| == |ks|
    ensures forall j :: 0 <= j < |ks| ==> ps[j] == CropSalesPoint(labelOf(ks[j]), CropTotals(data, keyFn, ks[j]))
  {
    seq(|ks|, j requires 0 <= j < |ks| => CropSalesPoint(labelOf(ks[j]), CropTotals(data, keyFn, ks[j])))
  }

  /** `out` is the chart data: the points of all periods, sorted by their labels. */
  ghost predicate CropSalesOf(data: seq<SalesRecord>, keyFn: KeyFunction, labelOf: string -> string, out: seq<CropSalesPoint>)
  {
    SortedBy(out, ByPeriod()) && multiset(out) == multiset(Points(data, keyFn, labelOf, PeriodOrder(data, keyFn)))
  }

  /** The labelling as written: the key is passed where the period belongs. */
  function AsWrittenLabel(): string -> string
  {
    k => PeriodLabel(k, k)
  }

  /** The labelling as intended: the key is labelled according to the analysis period. */
  function LabelFor(period: AnalysisPeriod): string -> string
  {
    k => PeriodLabel(k, PeriodName(period))
  }

  /** `aggregateCropSalesData(data, period)` as written. */
  method AggregateCropSalesDataAsWritten(data: seq<SalesRecord>, period: AnalysisPeriod)
    returns (r: Result<seq<CropSalesPoint>, DateError>)
    ensures r.Err? <==> !KeysDefined(data, PeriodKeyOf(period))
    ensures r.Ok? ==> CropSalesOf(data, PeriodKeyOf(period), AsWrittenLabel(), r.value)
  {
    r := AggregateCropSales(data, PeriodKeyOf(period), AsWrittenLabel());
  }

  /** `aggregateCropSalesData(data, period)` with each key labelled by the period. */
  method AggregateCropSalesData(data: seq<SalesRecord>, period: AnalysisPeriod)
    returns (r: Result<seq<CropSalesPoint>, DateError>)
    ensures r.Err? <==> !KeysDefined(data, PeriodKeyOf(period))
    ensures r.Ok? ==> CropSalesOf(data, PeriodKeyOf(period), LabelFor(period), r.value)
  {
    r := AggregateCropSales(data, PeriodKeyOf(period), LabelFor(period));
  }

  /** The aggregation fails exactly for a monthly analysis over a record whose date does not parse. */
  lemma KeysDefinedExactly(data: seq<SalesRecord>, period: AnalysisPeriod)
    ensures KeysDefined(data, PeriodKeyOf(period))
        <==> period != Monthly || forall i :: 0 <= i < |data| ==> ParseDate(data[i].date).Some?
  {
  }

  /** Grouping, labelling and sorting, with the labelling as a parameter. */
  method AggregateCropSales(data: seq<SalesRecord>, keyFn: KeyFunction, labelOf: string -> string)
    returns (r: Result<seq<CropSalesPoint>, DateError>)
    ensures r.Err? <==> !KeysDefined(data, keyFn)
    ensures r.Ok? ==> CropSalesOf(data, keyFn, labelOf, r.value)
  {
    var grouped := GroupCropSales(data, keyFn);
    if grouped.Err? {
      return Err(grouped.error);
    }
    var acc := grouped.value.0;
    var order := grouped.value.1;
    EntriesArePoints(data, keyFn, labelOf, acc);
    var entries := Entries(acc, order, labelOf);
    ByPeriodPreorder();
    return Ok(SortBy(entries, ByPeriod()));
  }

  /** `Object.entries(acc).map(([k, crops]) => ({ period: label(k), ...crops }))`. */
  function Entries(acc: map<string, map<string, real>>, order: seq<string>, labelOf: string -> string): (es: seq<CropSalesPoint>)
    requires forall t :: t in order ==> t in acc
  {
    seq(|order|, j requires 0 <= j < |order| => CropSalesPoint(labelOf(order[j]), acc[order[j]]))
  }

  /** The accumulator's keys are the listed keys. */
  lemma OrderIsKeys(data: seq<SalesRecord>, keyFn: KeyFunction, acc: map<string, map<string, real>>)
    requires CropAccs(acc, data, keyFn)
    ensures forall t :: t in acc <==> t in PeriodOrder(data, keyFn)
  {
    KeyListKeys(data, KeyOf(keyFn));
  }

  lemma EntriesArePoints(data: seq<SalesRecord>, keyFn: KeyFunction, labelOf: string -> string, acc: map<string, map<string, real>>)
    requires CropAccs(acc, data, keyFn)
    ensures forall t :: t in PeriodOrder(data, keyFn) ==> t in acc
    ensures Entries(acc, PeriodOrder(data, keyFn), labelOf) == Points(data, keyFn, labelOf, PeriodOrder(data, keyFn))
  {
    OrderIsKeys(data, keyFn, acc);
  }

  /** The accumulator holds, for each key present, the crop breakdown of its records. */
  ghost predicate CropAccs(acc: map<string, map<string, real>>, data: seq<SalesRecord>, keyFn: KeyFunction)
  {
    && (forall k :: k in acc <==> k in Keys(data, KeyOf(keyFn)))
    && (forall k :: k in acc ==> acc[k] == CropTotals(data, keyFn, k))
  }

  /**
   * The `reduce` of `aggregateCropSalesData`: per key, per crop, the sum of
   * `total`. The keys are also listed in order of first appearance. A record
   * whose monthly key cannot be formatted stops the whole computation.
   */
  method GroupCropSales(data: seq<SalesRecord>, keyFn: KeyFunction)
    returns (r: Result<(map<string, map<string, real>>, seq<string>), DateError>)
    ensures r.Err? <==> !KeysDefined(data, keyFn)
    ensures r.Ok? ==> CropAccs(r.value.0, data, keyFn) && r.value.1 == PeriodOrder(data, keyFn)
  {
    var acc: map<string, map<string, real>> := map[];
    var order: seq<string> := [];
    assert data[..0] == [];
    for i := 0 to |data|
      invariant KeysDefined(data[..i], keyFn)
      invariant CropAccs(acc, data[..i], keyFn)
      invariant order == Dedup(KeyList(data[..i], KeyOf(keyFn)))
      invariant forall t :: t in acc <==> t in order
    {
      var rec := data[i];
      var key := keyFn(rec);
      if key.Err? {
        return Err(key.error);
      }
      var k := key.value;
      assert KeyOf(keyFn)(rec) == k;
      DefinedStep(data, i, keyFn);
      CropStep(data, i, keyFn, acc);
      OrderStep(data, i, KeyOf(keyFn), acc, order);
      if k !in acc {
        order := order + [k];
      }
      acc := CropUpdate(acc, rec, k);
    }
    assert data[..|data|] == data;
    return Ok((acc, order));
  }

  lemma DefinedStep(data: seq<SalesRecord>, i: nat, keyFn: KeyFunction)
    requires i < |data| && KeysDefined(data[..i], keyFn) && keyFn(data[i]).Ok?
    ensures KeysDefined(data[..i + 1], keyFn)
  {
    assert data[..i + 1] == data[..i] + [data[i]];
  }

  lemma OrderStep(data: seq<SalesRecord>, i: nat, key: SalesRecord -> string, acc: map<string, map<string, real>>, order: seq<string>)
    requires i < |data|
    requires order == Dedup(KeyList(data[..i], key))
    requires forall t :: t in acc <==> t in order
    ensures var k := key(data[i]);
            var order' := if k in acc then order else order + [k];
            && order' == Dedup(KeyList(data[..i + 1], key))
            && forall t :: t in CropUpdate(acc, data[i], k) <==> t in order'
  {
    KeyListSnoc(data, i, key);
    DedupSnoc(KeyList(data[..i], key), key(data[i]));
  }

  /** `acc[k][crop] = (acc[k][crop] || 0) + total`, creating `acc[k]` when missing. */
  function CropUpdate(acc: map<string, map<string, real>>, x: SalesRecord, k: string): map<string, map<string, real>>
  {
    acc[k := AddTo(if k in acc then acc[k] else map[], x.crop, x.total)]
  }

  /** One reduce step keeps the accumulator equal to the breakdowns of the prefix read so far. */
  lemma CropStep(data: seq<SalesRecord>, i: nat, keyFn: KeyFunction, acc: map<string, map<string, real>>)
    requires i < |data| && CropAccs(acc, data[..i], keyFn)
    ensures CropAccs(CropUpdate(acc, data[i], KeyOf(keyFn)(data[i])), data[..i + 1], keyFn)
  {
    var pre, r := data[..i], data[i];
    KeysSnoc(pre, r, KeyOf(keyFn));
    CropStepValues(pre, r, keyFn, acc);
    assert CropAccs(CropUpdate(acc, r, KeyOf(keyFn)(r)), pre + [r], keyFn);
    TakeSnoc(data, i);
  }

  lemma CropStepValues(pre: seq<SalesRecord>, x: SalesRecord, keyFn: KeyFunction, acc: map<string, map<string, real>>)
    requires CropAccs(acc, pre, keyFn)
    ensures var acc' := CropUpdate(acc, x, KeyOf(keyFn)(x));
            forall t :: t in acc' ==> acc'[t] == CropTotals(pre + [x], keyFn, t)
  {
    var acc' := CropUpdate(acc, x, KeyOf(keyFn)(x));
    forall t | t in acc' ensures acc'[t] == CropTotals(pre + [x], keyFn, t) {
      CropStepAt(pre, x, keyFn, acc, t);
    }
  }

  lemma CropStepAt(pre: seq<SalesRecord>, x: SalesRecord, keyFn: KeyFunction, acc: map<string, map<string, real>>, t: string)
    requires CropAccs(acc, pre, keyFn)
    requires t in acc || t == KeyOf(keyFn)(x)
    ensures CropUpdate(acc, x, KeyOf(keyFn)(x))[t] == CropTotals(pre + [x], keyFn, t)
  {
    var key := KeyOf(keyFn);
    GroupSnoc(pre, x, key, t);
    var g := Group(pre, key, t);
    if t == key(x) {
      assert Group(pre + [x], key, t) == g + [x];
      if t !in acc {
        KeysGroups(pre, key, t);
        BreakdownEmpty(Crop(), Revenue());
      }
      assert (if t in acc then acc[t] else map[]) == Breakdown(g, Crop(), Revenue());
      BreakdownSnoc(g, x, Crop(), Revenue());
    } else {
      assert g + [] == g;
    }
  }

  // ----- what the chart shows -----

  /** Every point of the chart data is the point of one period present. */
  lemma PointOfPeriod(data: seq<SalesRecord>, keyFn: KeyFunction, labelOf: string -> string, out: seq<CropSalesPoint>, i: nat)
    requires CropSalesOf(data, keyFn, labelOf, out) && i < |out|
    ensures exists j :: 0 <= j < |data|
              && out[i].period == labelOf(KeyOf(keyFn)(data[j]))
              && out[i].crops == CropTotals(data, keyFn, KeyOf(keyFn)(data[j]))
  {
    assert out[i] in multiset(out);
    PointInPoints(data, keyFn, labelOf, out[i], PeriodOrder(data, keyFn));
  }

  /** A point of the periods listed is the point of a period some record has. */
  lemma PointInPoints(data: seq<SalesRecord>, keyFn: KeyFunction, labelOf: string -> string, p: CropSalesPoint, ks: seq<string>)
    requires ks == PeriodOrder(data, keyFn) && p in Points(data, keyFn, labelOf, ks)
    ensures exists j :: 0 <= j < |data|
              && p.period == labelOf(KeyOf(keyFn)(data[j]))
              && p.crops == CropTotals(data, keyFn, KeyOf(keyFn)(data[j]))
  {
    var key := KeyOf(keyFn);
    var kl := KeyList(data, key);
    var ps := Points(data, keyFn, labelOf, ks);
    var m :| 0 <= m < |ps| && ps[m] == p;
    var k := ks[m];
    assert k in kl;
    var j :| 0 <= j < |kl| && kl[j] == k;
    assert key(data[j]) == k;
  }

  /** There is one point per period present. */
  lemma PointCount(data: seq<SalesRecord>, keyFn: KeyFunction, labelOf: string -> string, out: seq<CropSalesPoint>)
    requires CropSalesOf(data, keyFn, labelOf, out)
    ensures |out| == |PeriodOrder(data, keyFn)|
    ensures Distinct(PeriodOrder(data, keyFn))
    ensures forall k :: k in PeriodOrder(data, keyFn) <==> k in Keys(data, KeyOf(keyFn))
  {
    assert |multiset(out)| == |out|;
    assert |multiset(Points(data, keyFn, labelOf, PeriodOrder(data, keyFn)))| == |PeriodOrder(data, keyFn)|;
    KeyListKeys(data, KeyOf(keyFn));
  }

  /**
   * The stacked bars of a period add up to the period's sales: summed over
   * the crops present in the period (each once), the crop totals give the
   * period's total.
   */
  lemma StackAddsUp(data: seq<SalesRecord>, keyFn: KeyFunction, k: string, crops: seq<string>)
    requires Distinct(crops)
    requires forall c :: c in crops <==> c in Keys(Group(data, KeyOf(keyFn), k), Crop())
    ensures SumAt(CropTotals(data, keyFn, k), crops) == Total(Group(data, KeyOf(keyFn), k), Revenue())
  {
    BreakdownTotal(crops, Group(data, KeyOf(keyFn), k), Crop(), Revenue());
  }

  /** The as-written labelling leaves every key as it is. */
  lemma AsWrittenKeepsKey(period: AnalysisPeriod, x: SalesRecord)
    ensures AsWrittenLabel()(KeyOf(PeriodKeyOf(period))(x)) == KeyOf(PeriodKeyOf(period))(x)
  {
    var k := KeyOf(PeriodKeyOf(period))(x);
    if k != "" {
      KeyIsNotPeriodName(k);
    }
  }

  /**
   * As written, the chart shows raw keys: when every date is valid, no period
   * on the chart carries the `年` every label has.
   */
  lemma AsWrittenShowsKeys(data: seq<SalesRecord>, period: AnalysisPeriod, out: seq<CropSalesPoint>, i: nat)
    requires forall j :: 0 <= j < |data| ==> ParseDate(data[j].date).Some?
    requires CropSalesOf(data, PeriodKeyOf(period), AsWrittenLabel(), out) && i < |out|
    ensures '年' !in out[i].period
  {
    PointOfPeriod(data, PeriodKeyOf(period), AsWrittenLabel(), out, i);
    var j :| 0 <= j < |data| && out[i].period == AsWrittenLabel()(KeyOf(PeriodKeyOf(period))(data[j]));
    AsWrittenKeepsKey(period, data[j]);
    LabelDiffersFromKey(data[j].date, period);
  }

  /**
   * As intended, every period on the chart is the label of a record's date:
   * `2024年11月`, `2024年4Q` or `2024年`.
   */
  lemma IntendedShowsLabels(data: seq<SalesRecord>, period: AnalysisPeriod, out: seq<CropSalesPoint>, i: nat)
    requires forall j :: 0 <= j < |data| ==> ParseDate(data[j].date).Some?
    requires CropSalesOf(data, PeriodKeyOf(period), LabelFor(period), out) && i < |out|
    ensures exists j :: 0 <= j < |data| && out[i].period == IntendedLabel(ParseDate(data[j].date).value, period)
    ensures '年' in out[i].period
  {
    PointOfPeriod(data, PeriodKeyOf(period), LabelFor(period), out, i);
    var j :| 0 <= j < |data| && out[i].period == LabelFor(period)(KeyOf(PeriodKeyOf(period))(data[j]));
    LabelOfKey(data[j].date, period);
    LabelDiffersFromKey(data[j].date, period);
  }
}
