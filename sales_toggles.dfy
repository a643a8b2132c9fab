/**
 * The chip toggles and the reset button of the sales-analysis filter panel.
 * Toggling a value that is selected removes every copy of it; toggling one
 * that is not selected appends it. Reset clears both selections and keeps the
 * period and the date range.
 */
module SalesToggles {
  import opened Seqs
  import opened SalesTypes
  import SF = SalesFilter
  import AF = AnalysisFilters

  /** `selected.includes(x) ? selected.filter(c => c !== x) : [...selected, x]`. */
  function Toggle(selected: seq<string>, x: string): (r: seq<string>)
    ensures x in selected ==> x !in r && Subsequence(r, selected)
    ensures x !in selected ==> r == selected + [x]
    ensures forall y :: y != x ==> (y in r <==> y in selected)
  {
    if x in selected then
      var r := Filter(selected, NotEqual(x));
      FilterSubsequence(selected, NotEqual(x));
      FilterMembers(selected, NotEqual(x));
      forall y | y != x && y in selected ensures y in r {
        var i :| 0 <= i < |selected| && selected[i] == y;
      }
      r
    else
      selected + [x]
  }

  /** `handleCropToggle(crop)`: only `crops` changes. */
  function ToggleCrop(f: AnalysisFilters, crop: string): (g: AnalysisFilters)
    ensures g.crops == Toggle(f.crops, crop)
    ensures g.startDate == f.startDate && g.endDate == f.endDate
    ensures g.channels == f.channels && g.period == f.period
  {
    f.(crops := Toggle(f.crops, crop))
  }

  /** `handleChannelToggle(channel)`: only `channels` changes. */
  function ToggleChannel(f: AnalysisFilters, channel: string): (g: AnalysisFilters)
    ensures g.channels == Toggle(f.channels, channel)
    ensures g.startDate == f.startDate && g.endDate == f.endDate
    ensures g.crops == f.crops && g.period == f.period
  {
    f.(channels := Toggle(f.channels, channel))
  }

  /** The reset button: no crop and no channel selected, range and period kept. */
  function Reset(f: AnalysisFilters): (g: AnalysisFilters)
    ensures g.crops == [] && g.channels == []
    ensures g.startDate == f.startDate && g.endDate == f.endDate && g.period == f.period
  {
    f.(crops := [], channels := [])
  }

  /** Toggling the same value twice restores which values are selected. */
  lemma ToggleTwiceMembers(selected: seq<string>, x: string, y: string)
    ensures y in Toggle(Toggle(selected, x), x) <==> y in selected
  {
  }

  /** When the value was not selected, toggling it twice restores the very list. */
  lemma ToggleTwiceUnselected(selected: seq<string>, x: string)
    requires x !in selected
    ensures Toggle(Toggle(selected, x), x) == selected
  {
    FilterAppend(selected, [x], NotEqual(x));
    FilterAllPass(selected, NotEqual(x));
  }

  /** Removing a value from the selection removes every copy, in order, and nothing else. */
  lemma ToggleRemovesAll(selected: seq<string>, x: string)
    requires x in selected
    ensures Toggle(selected, x) == Filter(selected, NotEqual(x))
    ensures |Toggle(selected, x)| == |selected| - Count(selected, (y: string) => y == x)
  {
    FilterLength(selected, NotEqual(x));
    CountComplement(selected, x);
  }

  lemma {:induction false} CountComplement(s: seq<string>, x: string)
    ensures Count(s, NotEqual(x)) + Count(s, (y: string) => y == x) == |s|
    decreases |s|
  {
    if s != [] {
      CountComplement(s[1..], x);
    }
  }

  /** After a reset the crop and channel tests let every record through: only the date range filters. */
  lemma ResetFiltersByDateOnly(f: AnalysisFilters, r: SalesRecord)
    ensures SF.Passes(Reset(f), r) <==> SF.InRange(f, r.date)
  {
  }

  /** A selected crop that is toggled off is filtered out, unless it was the only one selected. */
  lemma ToggleOffExcludes(f: AnalysisFilters, r: SalesRecord)
    requires r.crop in f.crops && Toggle(f.crops, r.crop) != []
    ensures !SF.Passes(ToggleCrop(f, r.crop), r)
  {
  }

  /** A crop toggled on passes the crop test. */
  lemma ToggleOnAdmits(f: AnalysisFilters, r: SalesRecord)
    requires r.crop !in f.crops
    ensures SF.Passes(ToggleCrop(f, r.crop), r) <==> SF.InRange(f, r.date) && AF.Admits(f.channels, r.buyer)
  {
  }
}
