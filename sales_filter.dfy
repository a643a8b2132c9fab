/**
 * The sales filter: a record is kept when its date lies in the selected range
 * and its crop and buyer are among the selected ones (an empty selection
 * selects everything). Dates compare as `Date` objects, so a date that does
 * not parse compares false both ways and is never excluded by the range.
 */
module SalesFilter {
  import opened Common
  import opened Seqs
  import opened Dates
  import opened SalesTypes
  import AF = AnalysisFilters

  /** Calendar order of dates. */
  predicate Earlier(a: Date, b: Date)
  {
    a.year < b.year
    || (a.year == b.year && a.month < b.month)
    || (a.year == b.year && a.month == b.month && a.day < b.day)
  }

  /** `new Date(a) < new Date(b)`: false as soon as either is an Invalid Date. */
  predicate DateBefore(a: string, b: string)
  {
    ParseDate(a).Some? && ParseDate(b).Some? && Earlier(ParseDate(a).value, ParseDate(b).value)
  }

  predicate InRange(f: AnalysisFilters, date: string)
  {
    !(DateBefore(date, f.startDate) || DateBefore(f.endDate, date))
  }

  predicate Passes(f: AnalysisFilters, r: SalesRecord)
  {
    InRange(f, r.date) && AF.Admits(f.crops, r.crop) && AF.Admits(f.channels, r.buyer)
  }

  function PassTest(f: AnalysisFilters): SalesRecord -> bool
  {
    r => Passes(f, r)
  }

  /** `filterSalesData(data, filters)`. */
  function FilterSalesData(data: seq<SalesRecord>, f: AnalysisFilters): (r: seq<SalesRecord>)
    ensures Subsequence(r, data)
  {
    FilterSubsequence(data, PassTest(f));
    Filter(data, PassTest(f))
  }

  /** Exactly the records that pass every test are kept. */
  lemma FilterSalesMembers(data: seq<SalesRecord>, f: AnalysisFilters, x: SalesRecord)
    ensures x in FilterSalesData(data, f) <==> x in data && Passes(f, x)
  {
    FilterIn(data, PassTest(f), x);
  }

  /** Both ends of the range are included: a record dated on either bound passes the date test. */
  lemma RangeInclusive(f: AnalysisFilters, date: string)
    requires ParseDate(f.startDate).Some? && ParseDate(f.endDate).Some? && ParseDate(date).Some?
    ensures InRange(f, date)
        <==> !Earlier(ParseDate(date).value, ParseDate(f.startDate).value)
             && !Earlier(ParseDate(f.endDate).value, ParseDate(date).value)
  {
  }

  /** A record whose date does not parse is never cut off by the range. */
  lemma InvalidDateInRange(f: AnalysisFilters, date: string)
    requires ParseDate(date).None?
    ensures InRange(f, date)
  {
  }

  /** With no selection and an unparseable range every record is kept. */
  lemma OpenFilterKeepsAll(data: seq<SalesRecord>, f: AnalysisFilters)
    requires f.crops == [] && f.channels == []
    requires ParseDate(f.startDate).None? && ParseDate(f.endDate).None?
    ensures FilterSalesData(data, f) == data
  {
    FilterAllPass(data, PassTest(f));
  }

  /** Filtering twice with the same selection changes nothing more. */
  lemma FilterSalesIdempotent(data: seq<SalesRecord>, f: AnalysisFilters)
    ensures FilterSalesData(FilterSalesData(data, f), f) == FilterSalesData(data, f)
  {
    FilterIdempotent(data, PassTest(f));
  }
}
