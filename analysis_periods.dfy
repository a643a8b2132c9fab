/**
 * Period keys of the detailed analysis: a date is bucketed into a week of its
 * month, a month, a quarter or a year, labelled in Japanese
 * (`2024年03月第2週`, `2024年03月`, `2024年Q1`, `2024年`), with the sentinel
 * `不明な期間` for an empty or unparseable date.
 */
module AnalysisPeriods {
  import opened Common
  import opened Text
  import opened Dates

  /** The `period` setting; `Unrecognised` is any value outside the four, handled by the default branch. */
  datatype Period = Weekly | Monthly | Quarterly | Yearly | Unrecognised

  /** The label of records whose date cannot be read. */
  const UnknownPeriod: string := "不明な期間"

  /** `Math.ceil(day / 7)`: the week of the month a day falls in. */
  function WeekOfMonth(day: nat): (w: nat)
    ensures day >= 1 ==> 7 * (w - 1) < day <= 7 * w
    ensures 1 <= day <= 31 ==> 1 <= w <= 5
  {
    (day + 6) / 7
  }

  /** `Math.ceil(month / 3)`: the quarter a month (1-based) falls in. */
  function QuarterOf(month: nat): (q: nat)
    ensures month >= 1 ==> 3 * (q - 1) < month <= 3 * q
    ensures 1 <= month <= 12 ==> 1 <= q <= 4
  {
    (month + 2) / 3
  }

  /** The label of a readable date. */
  function DateLabel(d: Date, period: Period): (l: string)
    ensures |l| > 0 && IsDigit(l[0])
  {
    match period
    case Weekly =>
      NatToString(d.year) + ("年" + (Pad2(d.month) + ("月第" + (NatToString(WeekOfMonth(d.day)) + "週"))))
    case Quarterly => NatToString(d.year) + ("年Q" + NatToString(QuarterOf(d.month)))
    case Yearly => NatToString(d.year) + "年"
    case _ => NatToString(d.year) + ("年" + (Pad2(d.month) + "月"))
  }

  /** `getPeriodKey(date, period)`: never fails; an unreadable date gets the sentinel. */
  function PeriodKey(date: string, period: Period): (k: string)
    ensures ParseDate(date).None? <==> k == UnknownPeriod
    ensures ParseDate(date).Some? ==> k == DateLabel(ParseDate(date).value, period) && IsDigit(k[0])
  {
    assert !IsDigit(UnknownPeriod[0]);
    match ParseDate(date)
    case None => UnknownPeriod
    case Some(d) => DateLabel(d, period)
  }

  /** The calendar bucket a date falls in for a period setting. */
  function Bucket(d: Date, period: Period): seq<nat>
  {
    match period
    case Weekly => [d.year, d.month, WeekOfMonth(d.day)]
    case Quarterly => [d.year, QuarterOf(d.month)]
    case Yearly => [d.year]
    case _ => [d.year, d.month]
  }

  /** What follows the year in a label: `年` and the week, month or quarter, if any. */
  function LabelTail(d: Date, period: Period): (t: string)
    ensures |t| > 0 && t[0] == '年'
  {
    match period
    case Weekly => "年" + (Pad2(d.month) + ("月第" + (NatToString(WeekOfMonth(d.day)) + "週")))
    case Quarterly => "年Q" + NatToString(QuarterOf(d.month))
    case Yearly => "年"
    case _ => "年" + (Pad2(d.month) + "月")
  }

  /** Every label is the year followed by its tail. */
  lemma LabelSplit(d: Date, period: Period)
    ensures DateLabel(d, period) == NatToString(d.year) + LabelTail(d, period)
  {
  }

  /**
   * Two readable dates have the same label tail exactly when they fall in the
   * same bucket within their years: the same week of the same month, the same
   * month, the same quarter (every date, for yearly labels).
   */
  lemma TailBuckets(a: Date, b: Date, period: Period)
    requires ValidDate(a) && ValidDate(b)
    ensures LabelTail(a, period) == LabelTail(b, period) <==> Bucket(a, period)[1..] == Bucket(b, period)[1..]
  {
    if LabelTail(a, period) == LabelTail(b, period) {
      match period {
        case Weekly =>
          var ra := Pad2(a.month) + ("月第" + (NatToString(WeekOfMonth(a.day)) + "週"));
          var rb := Pad2(b.month) + ("月第" + (NatToString(WeekOfMonth(b.day)) + "週"));
          SameLengthPrefix("年", ra, "年", rb);
          Pad2Facts(a.month);
          Pad2Facts(b.month);
          var wa := "月第" + (NatToString(WeekOfMonth(a.day)) + "週");
          var wb := "月第" + (NatToString(WeekOfMonth(b.day)) + "週");
          SameLengthPrefix(Pad2(a.month), wa, Pad2(b.month), wb);
          SameLengthPrefix("月第", NatToString(WeekOfMonth(a.day)) + "週", "月第", NatToString(WeekOfMonth(b.day)) + "週");
          DigitsThenText(NatToString(WeekOfMonth(a.day)), "週", NatToString(WeekOfMonth(b.day)), "週");
          NatToStringInjective(WeekOfMonth(a.day), WeekOfMonth(b.day));
        case Quarterly =>
          SameLengthPrefix("年Q", NatToString(QuarterOf(a.month)), "年Q", NatToString(QuarterOf(b.month)));
          NatToStringInjective(QuarterOf(a.month), QuarterOf(b.month));
        case Yearly =>
        case Monthly =>
          MonthPart(a.month, b.month);
        case Unrecognised =>
          MonthPart(a.month, b.month);
      }
    }
  }

  /**
   * Two readable dates get the same label exactly when they fall in the same
   * calendar bucket: grouping by label is grouping by week, month, quarter or year.
   */
  lemma DateLabelBuckets(a: Date, b: Date, period: Period)
    requires ValidDate(a) && ValidDate(b)
    ensures DateLabel(a, period) == DateLabel(b, period) <==> Bucket(a, period) == Bucket(b, period)
  {
    LabelSplit(a, period);
    LabelSplit(b, period);
    TailBuckets(a, b, period);
    BucketYear(a, period);
    BucketYear(b, period);
    if DateLabel(a, period) == DateLabel(b, period) {
      DigitsThenText(NatToString(a.year), LabelTail(a, period), NatToString(b.year), LabelTail(b, period));
      NatToStringInjective(a.year, b.year);
    }
  }

  /** A bucket starts with the year, followed by the bucket within the year. */
  lemma BucketYear(d: Date, period: Period)
    ensures Bucket(d, period) == [d.year] + Bucket(d, period)[1..]
  {
  }

  lemma MonthPart(ma: nat, mb: nat)
    requires ma < 100 && mb < 100
    requires "年" + (Pad2(ma) + "月") == "年" + (Pad2(mb) + "月")
    ensures ma == mb
  {
    SameLengthPrefix("年", Pad2(ma) + "月", "年", Pad2(mb) + "月");
    Pad2Facts(ma);
    Pad2Facts(mb);
    SameLengthPrefix(Pad2(ma), "月", Pad2(mb), "月");
  }

  /** An unrecognised period setting buckets exactly as `monthly` does. */
  lemma UnrecognisedIsMonthly(date: string)
    ensures PeriodKey(date, Unrecognised) == PeriodKey(date, Monthly)
  {
  }
}
