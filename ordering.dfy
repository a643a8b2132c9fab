/**
 * Sorting as the application uses it: `Array.from(new Set(xs)).sort()` on
 * strings (sorted, without duplicates), and the stable `Array.prototype.sort`
 * with a comparator, modelled as a stable insertion sort under a total preorder.
 */
module Ordering {
  import opened Text
  import opened Seqs

  /** Strictly ascending in code-point lexicographic order (hence without duplicates). */
  predicate StrictlySorted(s: seq<string>)
  {
    forall i, j :: 0 <= i < j < |s| ==> StrLt(s[i], s[j])
  }

  /** Inserts `x` into a strictly sorted list, unless it is already there. */
  function Insert(s: seq<string>, x: string): (r: seq<string>)
    requires StrictlySorted(s)
    ensures StrictlySorted(r)
    ensures forall y :: y in r <==> y in s || y == x
    decreases |s|
  {
    if s == [] then [x]
    else if x == s[0] then s
    else if StrLt(x, s[0]) then
      assert forall j :: 0 < j < |s| ==> StrLt(x, s[j]) by {
        forall j | 0 < j < |s| ensures StrLt(x, s[j]) {
          StrLtTransitive(x, s[0], s[j]);
        }
      }
      [x] + s
    else
      StrLtTotal(x, s[0]);
      var rest := Insert(s[1..], x);
      assert forall y :: y in rest ==> StrLt(s[0], y);
      [s[0]] + rest
  }

  /** `Array.from(new Set(xs)).sort()`: the distinct values of `xs` in ascending order. */
  function SortedUnique(xs: seq<string>): (r: seq<string>)
    ensures StrictlySorted(r)
    ensures forall y :: y in r <==> y in xs
    decreases |xs|
  {
    if xs == [] then []
    else
      var init := xs[..|xs| - 1];
      assert forall y :: y in xs <==> y in init || y == xs[|xs| - 1];
      Insert(SortedUnique(init), xs[|xs| - 1])
  }

  /**
   * A strictly sorted list is determined by its elements: whatever order the
   * values were collected in, sorting them gives one answer.
   */
  lemma {:induction false} SortedUniqueness(a: seq<string>, b: seq<string>)
    requires StrictlySorted(a) && StrictlySorted(b)
    requires forall y :: y in a <==> y in b
    ensures a == b
    decreases |a|
  {
    if a != [] {
      assert a[0] in b;
      assert b != [];
      assert b[0] in a;
      if a[0] != b[0] {
        var i :| 0 <= i < |a| && a[i] == b[0];
        var j :| 0 <= j < |b| && b[j] == a[0];
        assert StrLt(a[0], b[0]);
        assert StrLt(b[0], a[0]);
        StrLtAsymmetric(a[0], b[0]);
      }
      forall y ensures y in a[1..] <==> y in b[1..] {
        if y in a[1..] {
          var i :| 1 <= i < |a| && a[i] == y;
          assert StrLt(a[0], y);
          StrLtIrreflexive(a[0]);
          assert y in b && y != b[0];
          var j :| 0 <= j < |b| && b[j] == y;
          assert b[1..][j - 1] == y;
        }
        if y in b[1..] {
          var j :| 1 <= j < |b| && b[j] == y;
          assert StrLt(b[0], y);
          StrLtIrreflexive(b[0]);
          assert y in a && y != a[0];
          var i :| 0 <= i < |a| && a[i] == y;
          assert a[1..][i - 1] == y;
        }
      }
      SortedUniqueness(a[1..], b[1..]);
      assert a == [a[0]] + a[1..] && b == [b[0]] + b[1..];
    } else {
      HeadIsMember(b);
    }
  }

  lemma HeadIsMember(b: seq<string>)
    ensures b == [] || b[0] in b
  {
  }

  // ----- stable sort with a comparator -----

  /** `le` is a total preorder: what a consistent `sort` comparator describes. */
  ghost predicate TotalPreorder<T(!new)>(le: (T, T) -> bool)
  {
    && (forall a, b :: le(a, b) || le(b, a))
    && (forall a, b, c :: le(a, b) && le(b, c) ==> le(a, c))
  }

  predicate SortedBy<T>(s: seq<T>, le: (T, T) -> bool)
  {
    forall i, j :: 0 <= i < j < |s| ==> le(s[i], s[j])
  }

  /** Inserts `x` after every element that may precede it (so ties keep their order). */
  function InsertBy<T(!new)>(s: seq<T>, x: T, le: (T, T) -> bool): (r: seq<T>)
    requires TotalPreorder(le) && SortedBy(s, le)
    ensures SortedBy(r, le)
    ensures multiset(r) == multiset(s) + multiset{x}
    decreases |s|
  {
    if s == [] then [x]
    else if le(s[0], x) then
      var rest := InsertBy(s[1..], x, le);
      assert s == [s[0]] + s[1..];
      assert forall k :: 0 <= k < |rest| ==> le(s[0], rest[k]) by {
        forall k | 0 <= k < |rest| ensures le(s[0], rest[k]) {
          assert rest[k] in multiset(rest);
          if rest[k] != x {
            assert rest[k] in multiset(s[1..]);
            var m :| 0 <= m < |s[1..]| && s[1..][m] == rest[k];
            assert s[m + 1] == rest[k];
          }
        }
      }
      [s[0]] + rest
    else
      [x] + s
  }

  /** The stable `sort` with comparator `le`, by insertion from left to right. */
  function SortBy<T(!new)>(s: seq<T>, le: (T, T) -> bool): (r: seq<T>)
    requires TotalPreorder(le)
    ensures SortedBy(r, le)
    ensures multiset(r) == multiset(s)
    decreases |s|
  {
    if s == [] then []
    else
      var init := s[..|s| - 1];
      assert s == init + [s[|s| - 1]];
      InsertBy(SortBy(init, le), s[|s| - 1], le)
  }

  /** The elements that `le` ranks level with `z`. */
  function Ties<T>(le: (T, T) -> bool, z: T): T -> bool
  {
    (y: T) => le(z, y) && le(y, z)
  }

  /**
   * Stability of one insertion: among the elements level with any `z`, the
   * inserted element comes after those already in the list.
   */
  lemma {:induction false} InsertByStable<T(!new)>(s: seq<T>, x: T, le: (T, T) -> bool, z: T)
    requires TotalPreorder(le) && SortedBy(s, le)
    ensures Filter(InsertBy(s, x, le), Ties(le, z)) == Filter(s + [x], Ties(le, z))
    decreases |s|
  {
    var p := Ties(le, z);
    if s == [] {
      assert s + [x] == [x];
    } else if le(s[0], x) {
      InsertByStable(s[1..], x, le, z);
      assert s + [x] == [s[0]] + (s[1..] + [x]);
      FilterAppend([s[0]], s[1..] + [x], p);
      FilterAppend([s[0]], InsertBy(s[1..], x, le), p);
    } else {
      // `x` goes first, and nothing in `s` is level with it.
      forall k | 0 <= k < |s| ensures le(x, s[k]) && !le(s[k], x) {
        assert le(s[0], s[k]) || k == 0;
      }
      FilterAppend([x], s, p);
      FilterAppend(s, [x], p);
      if p(x) {
        FilterNonePass(s, p);
      }
    }
  }

  /**
   * `SortBy` is stable: for every `z`, the elements level with `z` come out
   * in the order they went in.
   */
  lemma {:induction false} SortByStable<T(!new)>(s: seq<T>, le: (T, T) -> bool, z: T)
    requires TotalPreorder(le)
    ensures Filter(SortBy(s, le), Ties(le, z)) == Filter(s, Ties(le, z))
    decreases |s|
  {
    if s != [] {
      var init, last := s[..|s| - 1], s[|s| - 1];
      assert s == init + [last];
      SortByStable(init, le, z);
      InsertByStable(SortBy(init, le), last, le, z);
      FilterAppend(SortBy(init, le), [last], Ties(le, z));
      FilterAppend(init, [last], Ties(le, z));
    }
  }
}
