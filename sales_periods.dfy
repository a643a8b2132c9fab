/**
 * Period keys and labels of the sales analysis. A record's date becomes a key
 * (`2024-11`, `2024-Q4`, `2024`) that groups the records, and a key becomes the
 * label shown on the chart (`2024年11月`, `2024年4Q`, `2024年`).
 */
module SalesPeriods {
  import opened Common
  import opened Text
  import opened Dates
  import opened SalesTypes

  /** `format` of an Invalid Date throws `RangeError: Invalid time value`. */
  datatype DateError = InvalidTimeValue

  /** `Math.floor(getMonth() / 3) + 1`, with the month counted from 1. */
  function QuarterOfMonth(m: nat): (q: nat)
    requires 1 <= m <= 12
    ensures 1 <= q <= 4
    ensures 3 * (q - 1) < m <= 3 * q
  {
    (m - 1) / 3 + 1
  }

  /**
   * The grouping key of a record dated `date`. On an Invalid Date the monthly
   * key cannot be formatted (an error), while the quarterly and yearly keys
   * are built from `NaN`.
   */
  function PeriodKey(date: string, period: AnalysisPeriod): (r: Result<string, DateError>)
    ensures r.Err? <==> period == Monthly && ParseDate(date).None?
    ensures ParseDate(date).None? && period == Quarterly ==> r == Ok("NaN-QNaN")
    ensures ParseDate(date).None? && period == Yearly ==> r == Ok("NaN")
    ensures r.Ok? ==> r.value != "" && (IsDigit(r.value[0]) || r.value[0] == 'N')
  {
    match ParseDate(date)
    case None =>
      (match period
       case Monthly => Err(InvalidTimeValue)
       case Quarterly => Ok("NaN-QNaN")
       case Yearly => Ok("NaN"))
    case Some(d) =>
      PadStartValue(d.year, 4);
      Ok(match period
         case Monthly => Pad4(d.year) + "-" + Pad2(d.month)
         case Quarterly => NatToString(d.year) + "-Q" + NatToString(QuarterOfMonth(d.month))
         case Yearly => NatToString(d.year))
  }

  /** The value a missing array element takes when interpolated into a template string. */
  const Undefined := "undefined"

  /** `const [a, b] = s.split(sep)`: the first two parts, `undefined` when missing. */
  function SplitPair(s: string, sep: string): (r: (string, string))
    requires |sep| > 0
    ensures r.0 == Split(s, sep)[0]
    ensures |Split(s, sep)| >= 2 ==> r.1 == Split(s, sep)[1]
    ensures |Split(s, sep)| < 2 ==> r.1 == Undefined
  {
    var parts := Split(s, sep);
    (parts[0], if |parts| >= 2 then parts[1] else Undefined)
  }

  /**
   * The chart label of a key. `period` is a string here because the caller
   * may pass any text; only the three period names change the key.
   */
  function PeriodLabel(key: string, period: string): (shown: string)
    ensures period !in {"monthly", "quarterly", "yearly"} ==> shown == key
    ensures period == "yearly" ==> shown == key + "年"
  {
    if period == "monthly" then
      var (year, month) := SplitPair(key, "-");
      year + "年" + month + "月"
    else if period == "quarterly" then
      var (year, quarter) := SplitPair(key, "-Q");
      year + "年" + quarter + "Q"
    else if period == "yearly" then
      key + "年"
    else
      key
  }

  /** The label a valid date gets under each period, read back through its key. */
  function IntendedLabel(d: Date, period: AnalysisPeriod): string
    requires ValidDate(d)
  {
    match period
    case Monthly => Pad4(d.year) + "年" + Pad2(d.month) + "月"
    case Quarterly => NatToString(d.year) + "年" + NatToString(QuarterOfMonth(d.month)) + "Q"
    case Yearly => NatToString(d.year) + "年"
  }

  /** Labelling a key with its own period splits it back into year and month, quarter or nothing. */
  lemma LabelOfKey(date: string, period: AnalysisPeriod)
    requires ParseDate(date).Some?
    ensures PeriodKey(date, period).Ok?
    ensures PeriodLabel(PeriodKey(date, period).value, PeriodName(period))
         == IntendedLabel(ParseDate(date).value, period)
  {
    var d := ParseDate(date).value;
    match period
    case Monthly =>
      PadStartValue(d.year, 4);
      PadStartValue(d.month, 2);
      SplitDigits(Pad4(d.year), "-", Pad2(d.month));
    case Quarterly =>
      SplitDigits(NatToString(d.year), "-Q", NatToString(QuarterOfMonth(d.month)));
    case Yearly =>
  }

  /** A key never spells a period name, so using it as the period leaves it unchanged. */
  lemma KeyIsNotPeriodName(key: string)
    requires key != "" && (IsDigit(key[0]) || key[0] == 'N')
    ensures key !in {"monthly", "quarterly", "yearly"}
    ensures PeriodLabel(key, key) == key
  {
  }

  /** The key of a valid date contains no `年`, while every label of it does. */
  lemma LabelDiffersFromKey(date: string, period: AnalysisPeriod)
    requires ParseDate(date).Some?
    ensures PeriodKey(date, period).Ok?
    ensures '年' !in PeriodKey(date, period).value
    ensures '年' in PeriodLabel(PeriodKey(date, period).value, PeriodName(period))
  {
    var d := ParseDate(date).value;
    LabelOfKey(date, period);
    PadStartValue(d.year, 4);
    PadStartValue(d.month, 2);
    var key := PeriodKey(date, period).value;
    var text := IntendedLabel(d, period);
    match period
    case Monthly =>
      DigitsExclude(Pad4(d.year), '年');
      DigitsExclude(Pad2(d.month), '年');
      assert text[|Pad4(d.year)|] == '年';
    case Quarterly =>
      DigitsExclude(NatToString(d.year), '年');
      DigitsExclude(NatToString(QuarterOfMonth(d.month)), '年');
      assert text[|NatToString(d.year)|] == '年';
    case Yearly =>
      DigitsExclude(NatToString(d.year), '年');
      assert text[|NatToString(d.year)|] == '年';
  }

  /** The quarter agrees with the quarter arithmetic of the detailed analysis, `(m + 2) / 3`. */
  lemma QuarterOfMonthAgrees(m: nat)
    requires 1 <= m <= 12
    ensures QuarterOfMonth(m) == (m + 2) / 3
  {
  }

  /** Months of the same quarter share a quarter number, and only they do. */
  lemma SameQuarter(m1: nat, m2: nat)
    requires 1 <= m1 <= 12 && 1 <= m2 <= 12
    ensures QuarterOfMonth(m1) == QuarterOfMonth(m2) <==> (m1 - 1) / 3 == (m2 - 1) / 3
  {
  }

  /** The `yyyy-MM` text of a year below 10000 and a month determines both. */
  lemma MonthKeyInjective(y1: nat, m1: nat, y2: nat, m2: nat)
    requires y1 < 10000 && y2 < 10000 && m1 < 100 && m2 < 100
    requires Pad4(y1) + "-" + Pad2(m1) == Pad4(y2) + "-" + Pad2(m2)
    ensures y1 == y2 && m1 == m2
  {
    Pad4Facts(y1);
    Pad4Facts(y2);
    Pad2Facts(m1);
    Pad2Facts(m2);
    SameLengthAround(Pad4(y1), Pad2(m1), Pad4(y2), Pad2(m2), "-");
  }
}
