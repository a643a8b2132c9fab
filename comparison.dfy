/**
 * Comparison with the previous period: each current period is matched with
 * the first earlier period whose label agrees once the year (`2024年`) is
 * taken out, and the change between their totals is reported.
 */
module Comparison {
  import opened Common
  import opened Text
  import opened Numbers
  import opened Dates
  import opened AnalysisPeriods
  import opened AnalysisRecords
  import opened Trend

  datatype ComparisonResult = ComparisonResult(
    current: real, previous: real, change: real, changePercent: real, trend: TrendAnalysis)

  /** Four digits followed by `年` start at index `i` of `s`. */
  predicate YearAt(s: string, i: nat)
  {
    i + 5 <= |s| && AllDigits(s[i..i + 4]) && s[i + 4] == '年'
  }

  /** The leftmost match of `/\d{4}年/` at or after `from`. */
  function FirstYearAt(s: string, from: nat): (r: Option<nat>)
    ensures r.Some? ==> from <= r.value && YearAt(s, r.value)
    ensures r.Some? ==> forall j :: from <= j < r.value ==> !YearAt(s, j)
    ensures r.None? ==> forall j :: from <= j ==> !YearAt(s, j)
    decreases |s| - from
  {
    if from + 5 > |s| then None
    else if YearAt(s, from) then Some(from)
    else FirstYearAt(s, from + 1)
  }

  /** `s.replace(/\d{4}年/, '')`: the first year marker taken out. */
  function StripYear(s: string): (r: string)
    ensures (forall j :: !YearAt(s, j)) ==> r == s
    ensures (exists j :: YearAt(s, j)) ==> |r| == |s| - 5
  {
    match FirstYearAt(s, 0)
    case None => s
    case Some(i) => s[..i] + s[i + 5..]
  }

  /** A label of a year written with four digits loses exactly its year. */
  lemma StripYearOfLabel(d: Date, period: Period)
    requires 1000 <= d.year < 10000
    ensures StripYear(DateLabel(d, period)) == LabelTail(d, period)[1..]
  {
    LabelSplit(d, period);
    FourDigits(d.year);
    var t := LabelTail(d, period);
    assert |t| >= 1 && t[0] == '年';
    StripLeadingYear(NatToString(d.year), t);
  }

  /** Four digits, `年` and a rest: the year marker found is the leading one. */
  lemma StripLeadingYear(y: string, t: string)
    requires |y| == 4 && AllDigits(y) && |t| >= 1 && t[0] == '年'
    ensures StripYear(y + t) == t[1..]
  {
    var s := y + t;
    assert s[..4] == y;
    assert YearAt(s, 0);
    assert s[5..] == t[1..];
  }

  /**
   * The point of the matching: labels of two readable dates with four-digit
   * years agree once the years are taken out exactly when the dates fall in
   * the same week of the same month, the same month or the same quarter of
   * their years (always, for yearly labels).
   */
  lemma SamePeriodOfYear(a: Date, b: Date, period: Period)
    requires ValidDate(a) && ValidDate(b)
    requires 1000 <= a.year < 10000 && 1000 <= b.year < 10000
    ensures StripYear(DateLabel(a, period)) == StripYear(DateLabel(b, period))
        <==> Bucket(a, period)[1..] == Bucket(b, period)[1..]
  {
    StripYearOfLabel(a, period);
    StripYearOfLabel(b, period);
    TailBuckets(a, b, period);
    var ta := LabelTail(a, period);
    var tb := LabelTail(b, period);
    assert ta == [ta[0]] + ta[1..] && tb == [tb[0]] + tb[1..];
  }

  /** The sentinel of unreadable dates holds no year and is left as it is. */
  lemma StripYearUnknown()
    ensures StripYear(UnknownPeriod) == UnknownPeriod
  {
    forall j: nat ensures !YearAt(UnknownPeriod, j) {
      if j + 5 <= |UnknownPeriod| {
        assert UnknownPeriod[j..j + 4][0] == UnknownPeriod[j];
        assert !IsDigit(UnknownPeriod[j]);
      }
    }
  }

  /**
   * `previousData.find(p => stripped p.period == stripped period)`: the FIRST
   * entry whose period matches once the years are stripped (previous data
   * spanning several years can hold more than one match).
   */
  function FindPrevious(previous: seq<Aggregate>, period: string): (r: Option<Aggregate>)
    ensures r.Some? ==> exists i :: (
      && 0 <= i < |previous| && previous[i] == r.value
      && StripYear(PeriodOf(previous[i])) == StripYear(period)
      && forall j :: 0 <= j < i ==> StripYear(PeriodOf(previous[j])) != StripYear(period))
    ensures r.None? <==> forall i :: 0 <= i < |previous| ==> StripYear(PeriodOf(previous[i])) != StripYear(period)
    decreases |previous|
  {
    if previous == [] then None
    else if StripYear(PeriodOf(previous[0])) == StripYear(period) then Some(previous[0])
    else
      var r := FindPrevious(previous[1..], period);
      assert forall i :: 1 <= i < |previous| ==> previous[i] == previous[1..][i - 1];
      if r.Some? then
        var i :| 0 <= i < |previous[1..]| && previous[1..][i] == r.value
          && StripYear(PeriodOf(previous[1..][i])) == StripYear(period)
          && forall j :: 0 <= j < i ==> StripYear(PeriodOf(previous[1..][j])) != StripYear(period);
        assert forall j :: 0 <= j < i + 1 ==> StripYear(PeriodOf(previous[j])) != StripYear(period) by {
          forall j | 0 <= j < i + 1 ensures StripYear(PeriodOf(previous[j])) != StripYear(period) {
            if j > 0 { assert previous[j] == previous[1..][j - 1]; }
          }
        }
        r
      else r
  }

  /** The comparison of one value with its predecessor. */
  function Compare(current: real, previous: real): (r: ComparisonResult)
    ensures r.current == current && r.previous == previous && r.change == current - previous
    ensures previous == 0.0 ==> r.changePercent == 0.0
    ensures previous != 0.0 ==> Abs(r.changePercent - (current - previous) / previous * 100.0) <= 0.005
    ensures r.trend == TrendAnalysis(Stable, 0.0, 0, 2)
  {
    var change := current - previous;
    var changePercent := if previous != 0.0 then change / previous * 100.0 else 0.0;
    RoundWhole(0);
    TooFewPoints([previous, current]);
    ComparisonResult(current, previous, change, Round2(changePercent), AnalyzeTrend([previous, current]))
  }

  /** The results for `current` in order: one per period with a match. */
  function Comparisons(current: seq<Aggregate>, previous: seq<Aggregate>): seq<ComparisonResult>
    decreases |current|
  {
    if current == [] then []
    else
      var c := current[|current| - 1];
      Comparisons(current[..|current| - 1], previous)
        + match FindPrevious(previous, PeriodOf(c))
          case None => []
          case Some(p) => [Compare(ValueOf(c), ValueOf(p))]
  }

  /** `compareWithPrevious(currentData, previousData)`. */
  method CompareWithPrevious(current: seq<Aggregate>, previous: seq<Aggregate>)
    returns (results: seq<ComparisonResult>)
    ensures results == Comparisons(current, previous)
  {
    results := [];
    for i := 0 to |current|
      invariant results == Comparisons(current[..i], previous)
    {
      assert current[..i + 1][..i] == current[..i];
      var c := current[i];
      var found := FindPrevious(previous, PeriodOf(c));
      if found.Some? {
        results := results + [Compare(ValueOf(c), ValueOf(found.value))];
      }
    }
    assert current[..|current|] == current;
  }

  /**
   * Every comparison carries the trend of two points, which is always below
   * the minimum for a trend: "stable", with no change rate and no confidence.
   */
  lemma {:induction false} ComparisonsStable(current: seq<Aggregate>, previous: seq<Aggregate>)
    ensures forall i :: 0 <= i < |Comparisons(current, previous)| ==>
      Comparisons(current, previous)[i].trend == TrendAnalysis(Stable, 0.0, 0, 2)
    decreases |current|
  {
    if current != [] {
      ComparisonsStable(current[..|current| - 1], previous);
    }
  }

  /** At most one result per current period, one for each when all have a match, none without previous data. */
  lemma {:induction false} ComparisonsLength(current: seq<Aggregate>, previous: seq<Aggregate>)
    ensures |Comparisons(current, previous)| <= |current|
    ensures (forall i :: 0 <= i < |current| ==> FindPrevious(previous, PeriodOf(current[i])).Some?)
      ==> |Comparisons(current, previous)| == |current|
    ensures previous == [] ==> Comparisons(current, previous) == []
    decreases |current|
  {
    if current != [] {
      ComparisonsLength(current[..|current| - 1], previous);
    }
  }
}
