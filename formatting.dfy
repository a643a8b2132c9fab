/**
 * Display helpers of the data-management screens: shortening long text,
 * describing how long ago a date was, and appending a unit to a quantity.
 * The clock and the locale-dependent number formatter are inputs.
 */
module Formatting {
  import opened Text

  /** `text.substring(0, maxLength) + '...'` when the text is longer than `maxLength`. */
  function TruncateText(text: string, maxLength: int): (r: string)
    ensures |text| <= maxLength ==> r == text
    ensures |text| > maxLength ==> var cut := if maxLength < 0 then 0 else maxLength;
      |r| == cut + 3 && r[..cut] == text[..cut] && r[cut..] == "..."
  {
    if |text| <= maxLength then text
    else
      var cut := if maxLength < 0 then 0 else maxLength;
      text[..cut] + "..."
  }

  /** Shortening a shortened text again changes nothing. */
  lemma TruncateIdempotent(text: string, maxLength: nat)
    ensures TruncateText(TruncateText(text, maxLength), maxLength) == TruncateText(text, maxLength)
  {
    var r := TruncateText(text, maxLength);
    if |text| > maxLength {
      assert r[..maxLength] == text[..maxLength];
      assert TruncateText(r, maxLength) == r[..maxLength] + "...";
    }
  }

  /** No result is longer than `maxLength + 3`, and a result of that length is the cut form. */
  lemma TruncateBound(text: string, maxLength: nat)
    ensures |TruncateText(text, maxLength)| <= maxLength + 3
    ensures |TruncateText(text, maxLength)| <= |text| || |text| <= maxLength + 2
  {
  }

  /** The milliseconds of a day. */
  const DayMillis := 1000 * 60 * 60 * 24

  /** `Math.floor(diffTime / DayMillis)`: whole days, rounding towards minus infinity. */
  function DiffDays(diffTime: int): (d: int)
    ensures d * DayMillis <= diffTime < (d + 1) * DayMillis
  {
    diffTime / DayMillis
  }

  /** The wording `formatRelativeDate` chooses. */
  datatype RelativeDate =
    | Today
    | Yesterday
    | DaysAgo(days: int)
    | WeeksAgo(weeks: int)
    | MonthsAgo(months: int)
    | YearsAgo(years: int)

  /** The choice of wording as a function of the whole days elapsed. */
  function RelativeOfDays(d: int): (r: RelativeDate)
    ensures r == Today <==> d == 0
    ensures r == Yesterday <==> d == 1
    ensures r.DaysAgo? <==> d < 7 && d != 0 && d != 1
    ensures r.DaysAgo? ==> r.days == d
    ensures r.WeeksAgo? <==> 7 <= d < 30
    ensures r.WeeksAgo? ==> 1 <= r.weeks <= 4 && 7 * r.weeks <= d < 7 * r.weeks + 7
    ensures r.MonthsAgo? <==> 30 <= d < 365
    ensures r.MonthsAgo? ==> 1 <= r.months <= 12 && 30 * r.months <= d < 30 * r.months + 30
    ensures r.YearsAgo? <==> d >= 365
    ensures r.YearsAgo? ==> r.years >= 1 && 365 * r.years <= d < 365 * r.years + 365
  {
    if d == 0 then Today
    else if d == 1 then Yesterday
    else if d < 7 then DaysAgo(d)
    else if d < 30 then WeeksAgo(d / 7)
    else if d < 365 then MonthsAgo(d / 30)
    else YearsAgo(d / 365)
  }

  /** The text shown for each wording. */
  function RelativeText(r: RelativeDate): string
  {
    match r
    case Today => "今日"
    case Yesterday => "昨日"
    case DaysAgo(n) => IntToString(n) + "日前"
    case WeeksAgo(n) => IntToString(n) + "週間前"
    case MonthsAgo(n) => IntToString(n) + "ヶ月前"
    case YearsAgo(n) => IntToString(n) + "年前"
  }

  /** `formatRelativeDate(date)` with `now - date` given in milliseconds. */
  function FormatRelativeDate(diffTime: int): string
  {
    RelativeText(RelativeOfDays(DiffDays(diffTime)))
  }

  /** How coarse a wording is: later buckets describe longer spans. */
  function Coarseness(r: RelativeDate): nat
  {
    match r
    case Today => 0
    case Yesterday => 1
    case DaysAgo(_) => 2
    case WeeksAgo(_) => 3
    case MonthsAgo(_) => 4
    case YearsAgo(_) => 5
  }

  /** Among dates in the past, an older date never gets a finer wording or a smaller count. */
  lemma RelativeMonotone(d1: int, d2: int)
    requires 2 <= d1 <= d2
    ensures Coarseness(RelativeOfDays(d1)) <= Coarseness(RelativeOfDays(d2))
    ensures Coarseness(RelativeOfDays(d1)) == Coarseness(RelativeOfDays(d2)) ==>
      match (RelativeOfDays(d1), RelativeOfDays(d2))
      case (DaysAgo(a), DaysAgo(b)) => a <= b
      case (WeeksAgo(a), WeeksAgo(b)) => a <= b
      case (MonthsAgo(a), MonthsAgo(b)) => a <= b
      case (YearsAgo(a), YearsAgo(b)) => a <= b
      case _ => false
  {
  }

  /** A date in the future still reads as days ago, with a negative count. */
  lemma FutureIsDaysAgo(diffTime: int)
    requires diffTime < 0
    ensures RelativeOfDays(DiffDays(diffTime)).DaysAgo? && RelativeOfDays(DiffDays(diffTime)).days < 0
  {
  }

  /** `formatQuantity(quantity, unit)`: the formatted number with the unit as suffix. */
  function FormatQuantity(quantity: real, unit: string, formatNumber: real -> string): (s: string)
    ensures |s| == |formatNumber(quantity)| + |unit|
    ensures s[..|formatNumber(quantity)|] == formatNumber(quantity)
    ensures s[|s| - |unit|..] == unit
  {
    formatNumber(quantity) + unit
  }
}
