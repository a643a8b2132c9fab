/**
 * Calendar dates as the application stores them: `YYYY-MM-DD` strings (month
 * and day may be written with one digit). `ParseDate` is `new Date(s)` on such
 * a string, with `None` standing for an Invalid Date.
 */
module Dates {
  import opened Common
  import opened Text

  datatype Date = Date(year: nat, month: nat, day: nat)

  predicate IsLeapYear(y: nat)
  {
    (y % 4 == 0 && y % 100 != 0) || y % 400 == 0
  }

  /** `new Date(y, m, 0).getDate()`: the number of days of month `m` (1-based). */
  function DaysInMonth(y: nat, m: nat): (n: nat)
    requires 1 <= m <= 12
    ensures 28 <= n <= 31
  {
    if m == 2 then (if IsLeapYear(y) then 29 else 28)
    else if m == 4 || m == 6 || m == 9 || m == 11 then 30
    else 31
  }

  predicate ValidDate(d: Date)
  {
    1 <= d.month <= 12 && 1 <= d.day <= DaysInMonth(d.year, d.month)
  }

  /** The date strings this model accepts: four-digit year, one- or two-digit month and day. */
  predicate DateParts(parts: seq<string>)
  {
    && |parts| == 3
    && |parts[0]| == 4 && 1 <= |parts[1]| <= 2 && 1 <= |parts[2]| <= 2
    && AllDigits(parts[0]) && AllDigits(parts[1]) && AllDigits(parts[2])
  }

  /** `new Date(s)`: the calendar date written in `s`, or `None` for an Invalid Date. */
  function ParseDate(s: string): (r: Option<Date>)
    ensures r.Some? ==> ValidDate(r.value) && r.value.year < 10000
  {
    var parts := Split(s, "-");
    if DateParts(parts) then
      Pad4Bound(parts[0]);
      var d := Date(DigitsToNat(parts[0]), DigitsToNat(parts[1]), DigitsToNat(parts[2]));
      if ValidDate(d) then Some(d) else None
    else None
  }

  lemma {:induction false} Pad4Bound(s: string)
    requires AllDigits(s) && |s| == 4
    ensures DigitsToNat(s) < 10000
  {
    var a := s[..3];
    var b := a[..2];
    var c := b[..1];
    assert c[..0] == [];
    assert DigitsToNat(c) < 10;
    assert DigitsToNat(b) < 100;
    assert DigitsToNat(a) < 1000;
  }

  /** `${y}-${MM}-${DD}` with four-place year and two-place month and day. */
  function IsoDate(d: Date): string
  {
    Pad4(d.year) + "-" + Pad2(d.month) + "-" + Pad2(d.day)
  }

  /** Splitting `a-b-c` at the dashes, when none of the three parts holds a dash. */
  lemma SplitThree(a: string, b: string, c: string)
    requires '-' !in a && '-' !in b && '-' !in c
    ensures Split(a + "-" + b + "-" + c, "-") == [a, b, c]
  {
    var rest := b + "-" + c;
    assert a + "-" + b + "-" + c == a + ['-'] + rest;
    SplitAtFirst(a, '-', rest);
    assert rest == b + ['-'] + c;
    SplitAtFirst(b, '-', c);
    NoDash(c);
  }

  /** A string without a dash is not split by it. */
  lemma NoDash(c: string)
    requires '-' !in c
    ensures Split(c, "-") == [c]
  {
    forall j | 0 <= j ensures !OccursAt(c, "-", j) {
      if j + 1 <= |c| {
        assert c[j..j + 1] == [c[j]];
      }
    }
    SplitNone(c, "-");
  }

  /** A year, month and day written as digits parse back to that date. */
  lemma ParseDigits(y: nat, ms: string, ds: string)
    requires y < 10000
    requires AllDigits(ms) && 1 <= |ms| <= 2 && AllDigits(ds) && 1 <= |ds| <= 2
    ensures ParseDate(Pad4(y) + "-" + ms + "-" + ds)
         == (var d := Date(y, DigitsToNat(ms), DigitsToNat(ds)); if ValidDate(d) then Some(d) else None)
  {
    Pad4Facts(y);
    DigitsExclude(Pad4(y), '-');
    DigitsExclude(ms, '-');
    DigitsExclude(ds, '-');
    SplitThree(Pad4(y), ms, ds);
  }

  /** Round trip: reading back the `YYYY-MM-DD` rendering of a valid date gives the date. */
  lemma ParseIsoDate(d: Date)
    requires ValidDate(d) && d.year < 10000
    ensures ParseDate(IsoDate(d)) == Some(d)
  {
    Pad2Facts(d.month);
    Pad2Facts(d.day);
    ParseDigits(d.year, Pad2(d.month), Pad2(d.day));
  }

  /** The regular expression `^\d{4}-\d{2}-\d{2}$`. */
  predicate IsoShape(s: string)
  {
    && |s| == 10
    && s[4] == '-' && s[7] == '-'
    && AllDigits(s[..4]) && AllDigits(s[5..7]) && AllDigits(s[8..])
  }

  lemma IsoDateShape(d: Date)
    requires ValidDate(d) && d.year < 10000
    ensures IsoShape(IsoDate(d))
  {
    Pad4Facts(d.year);
    Pad2Facts(d.month);
    Pad2Facts(d.day);
    PartsShape(Pad4(d.year), Pad2(d.month), Pad2(d.day));
  }

  /** Four, two and two digits joined by dashes have the `YYYY-MM-DD` shape. */
  lemma PartsShape(y: string, m: string, d: string)
    requires |y| == 4 && |m| == 2 && |d| == 2
    requires AllDigits(y) && AllDigits(m) && AllDigits(d)
    ensures IsoShape(y + "-" + m + "-" + d)
  {
    var s := y + "-" + m + "-" + d;
    assert s[..4] == y;
    assert s[5..7] == m;
    assert s[8..] == d;
  }
}
