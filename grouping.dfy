/**
 * Grouping records by a string key, as the `reduce`-into-an-object idiom of
 * the analysis code does: the group of a key, the set of keys present, the
 * total of a weight over a list, and the conservation law that the totals of
 * the groups add up to the total of the whole list.
 */
module Grouping {
  import opened Seqs

  /** The test `key(x) == k`, as a value. */
  function HasKey<T>(key: T -> string, k: string): T -> bool
  {
    x => key(x) == k
  }

  /** The records whose key is `k`, in input order. */
  function Group<T>(data: seq<T>, key: T -> string, k: string): seq<T>
  {
    Filter(data, HasKey(key, k))
  }

  /** The keys present in `data`. */
  function Keys<T>(data: seq<T>, key: T -> string): (ks: set<string>)
    decreases |data|
  {
    if data == [] then {}
    else Keys(data[..|data| - 1], key) + {key(data[|data| - 1])}
  }

  /** `data.map(key)`: the key of every record, in input order. */
  function KeyList<T>(data: seq<T>, key: T -> string): (ks: seq<string>)
    ensures |ks| == |data|
    ensures forall i :: 0 <= i < |data| ==> ks[i] == key(data[i])
  {
    seq(|data|, i requires 0 <= i < |data| => key(data[i]))
  }

  lemma KeyListSnoc<T>(data: seq<T>, i: nat, key: T -> string)
    requires i < |data|
    ensures KeyList(data[..i + 1], key) == KeyList(data[..i], key) + [key(data[i])]
  {
  }

  /** The keys listed are exactly the keys present. */
  lemma {:induction false} KeyListKeys<T>(data: seq<T>, key: T -> string)
    ensures forall k :: k in KeyList(data, key) <==> k in Keys(data, key)
    decreases |data|
  {
    if data != [] {
      var init := data[..|data| - 1];
      KeyListKeys(init, key);
      assert KeyList(data, key) == KeyList(init, key) + [key(data[|data| - 1])];
    }
  }

  /** `data.reduce((s, x) => s + w(x), 0)`. */
  function Total<T>(data: seq<T>, w: T -> real): real
    decreases |data|
  {
    if data == [] then 0.0 else Total(data[..|data| - 1], w) + w(data[|data| - 1])
  }

  /** The weight 1 of every record: its total is the record count. */
  function One<T>(): T -> real
  {
    _ => 1.0
  }

  /** Sum of the group totals for the listed keys. */
  function SumGroups<T>(ks: seq<string>, data: seq<T>, key: T -> string, w: T -> real): real
    decreases |ks|
  {
    if ks == [] then 0.0 else Total(Group(data, key, ks[0]), w) + SumGroups(ks[1..], data, key, w)
  }

  /** Filtering a list with one more element at the end. */
  lemma {:induction false} FilterSnoc<T>(s: seq<T>, x: T, p: T -> bool)
    ensures Filter(s + [x], p) == Filter(s, p) + (if p(x) then [x] else [])
    decreases |s|
  {
    if s == [] {
      assert [x][1..] == [];
    } else {
      assert (s + [x])[1..] == s[1..] + [x];
      FilterSnoc(s[1..], x, p);
    }
  }

  /** A record added at the end joins the group of its own key and no other. */
  lemma GroupSnoc<T>(data: seq<T>, x: T, key: T -> string, k: string)
    ensures Group(data + [x], key, k) == Group(data, key, k) + (if key(x) == k then [x] else [])
  {
    FilterSnoc(data, x, HasKey(key, k));
  }

  lemma {:induction false} KeysSnoc<T>(data: seq<T>, x: T, key: T -> string)
    ensures Keys(data + [x], key) == Keys(data, key) + {key(x)}
  {
    assert (data + [x])[..|data|] == data;
  }

  lemma TotalSnoc<T>(data: seq<T>, x: T, w: T -> real)
    ensures Total(data + [x], w) == Total(data, w) + w(x)
  {
    assert (data + [x])[..|data|] == data;
  }

  /** A key is present exactly when its group is not empty. */
  lemma {:induction false} KeysGroups<T>(data: seq<T>, key: T -> string, k: string)
    ensures k in Keys(data, key) <==> Group(data, key, k) != []
    decreases |data|
  {
    if data != [] {
      var init := data[..|data| - 1];
      var x := data[|data| - 1];
      assert data == init + [x];
      KeysGroups(init, key, k);
      GroupSnoc(init, x, key, k);
      KeysSnoc(init, x, key);
    }
  }

  /** Counting with weight one gives the length. */
  lemma {:induction false} TotalOne<T>(data: seq<T>)
    ensures Total(data, One()) == |data| as real
    decreases |data|
  {
    if data != [] {
      TotalOne(data[..|data| - 1]);
    }
  }

  /** One more record adds its weight to the sum exactly once, if its key is listed. */
  lemma {:induction false} SumGroupsSnoc<T>(ks: seq<string>, data: seq<T>, x: T, key: T -> string, w: T -> real)
    requires Distinct(ks)
    ensures SumGroups(ks, data + [x], key, w)
         == SumGroups(ks, data, key, w) + (if key(x) in ks then w(x) else 0.0)
    decreases |ks|
  {
    if ks != [] {
      var k := ks[0];
      var g := Group(data, key, k);
      GroupSnoc(data, x, key, k);
      if key(x) == k {
        TotalSnoc(g, x, w);
      } else {
        assert g + [] == g;
      }
      assert Total(Group(data + [x], key, k), w) == Total(g, w) + (if key(x) == k then w(x) else 0.0);
      DistinctTail(ks);
      SumGroupsSnoc(ks[1..], data, x, key, w);
    }
  }

  lemma DistinctTail(ks: seq<string>)
    requires Distinct(ks) && ks != []
    ensures Distinct(ks[1..]) && ks[0] !in ks[1..]
    ensures forall y :: y in ks <==> y == ks[0] || y in ks[1..]
  {
    assert ks == [ks[0]] + ks[1..];
  }

  /**
   * Conservation: when the listed keys are distinct and include every key
   * present, the group totals add up to the total of the whole list.
   */
  lemma {:induction false} PartitionTotal<T>(ks: seq<string>, data: seq<T>, key: T -> string, w: T -> real)
    requires Distinct(ks)
    requires forall k :: k in Keys(data, key) ==> k in ks
    ensures SumGroups(ks, data, key, w) == Total(data, w)
    decreases |data|
  {
    if data == [] {
      EmptyGroups(ks, key, w);
    } else {
      var init := data[..|data| - 1];
      var x := data[|data| - 1];
      assert data == init + [x];
      KeysSnoc(init, x, key);
      PartitionTotal(ks, init, key, w);
      SumGroupsSnoc(ks, init, x, key, w);
      TotalSnoc(init, x, w);
    }
  }

  lemma {:induction false} EmptyGroups<T>(ks: seq<string>, key: T -> string, w: T -> real)
    ensures SumGroups(ks, [], key, w) == 0.0
    decreases |ks|
  {
    if ks != [] {
      EmptyGroups(ks[1..], key, w);
    }
  }

  /** The group sizes add up to the number of records. */
  lemma PartitionCount<T>(ks: seq<string>, data: seq<T>, key: T -> string)
    requires Distinct(ks)
    requires forall k :: k in Keys(data, key) ==> k in ks
    ensures SumGroups(ks, data, key, One()) == |data| as real
  {
    PartitionTotal(ks, data, key, One());
    TotalOne(data);
  }

  // ----- per-key breakdown maps -----

  /** `(m[t] || 0) + v` stored back at `t`. */
  function AddTo(m: map<string, real>, t: string, v: real): (r: map<string, real>)
    ensures r.Keys == m.Keys + {t}
    ensures r[t] == (if t in m then m[t] else 0.0) + v
    ensures forall u :: u in m && u != t ==> r[u] == m[u]
  {
    m[t := (if t in m then m[t] else 0.0) + v]
  }

  /** The total weight of each key present: a breakdown such as hours per work type. */
  function Breakdown<T>(data: seq<T>, key: T -> string, w: T -> real): (b: map<string, real>)
    ensures b.Keys == Keys(data, key)
  {
    map t | t in Keys(data, key) :: Total(Group(data, key, t), w)
  }

  /** Accumulating one more record into a breakdown, as the reduce step does. */
  lemma BreakdownSnoc<T>(data: seq<T>, x: T, key: T -> string, w: T -> real)
    ensures Breakdown(data + [x], key, w) == AddTo(Breakdown(data, key, w), key(x), w(x))
  {
    var b := Breakdown(data, key, w);
    var b' := Breakdown(data + [x], key, w);
    var a := AddTo(b, key(x), w(x));
    KeysSnoc(data, x, key);
    assert b'.Keys == a.Keys;
    forall t | t in b'.Keys
      ensures b'[t] == a[t]
    {
      BreakdownSnocAt(data, x, key, w, t);
    }
  }

  lemma BreakdownEmpty<T>(key: T -> string, w: T -> real)
    ensures Breakdown([], key, w) == map[]
  {
    assert Breakdown([], key, w).Keys == {};
  }

  /** `BreakdownSnoc` on the prefixes a loop walks through. */
  lemma BreakdownPrefix<T>(data: seq<T>, i: nat, key: T -> string, w: T -> real)
    requires i < |data|
    ensures Breakdown(data[..i + 1], key, w) == AddTo(Breakdown(data[..i], key, w), key(data[i]), w(data[i]))
  {
    assert data[..i + 1] == data[..i] + [data[i]];
    BreakdownSnoc(data[..i], data[i], key, w);
  }

  lemma BreakdownSnocAt<T>(data: seq<T>, x: T, key: T -> string, w: T -> real, t: string)
    ensures Total(Group(data + [x], key, t), w)
         == (if t in Keys(data, key) then Total(Group(data, key, t), w) else 0.0)
            + (if t == key(x) then w(x) else 0.0)
  {
    GroupSnoc(data, x, key, t);
    KeysGroups(data, key, t);
    if t == key(x) {
      TotalSnoc(Group(data, key, t), x, w);
    } else {
      assert Group(data, key, t) + [] == Group(data, key, t);
    }
  }

  /** Sum of the map's values at the listed keys. */
  function SumAt(m: map<string, real>, ks: seq<string>): real
    requires forall i :: 0 <= i < |ks| ==> ks[i] in m
    decreases |ks|
  {
    if ks == [] then 0.0 else m[ks[0]] + SumAt(m, ks[1..])
  }

  lemma {:induction false} SumAtBreakdown<T>(ks: seq<string>, data: seq<T>, key: T -> string, w: T -> real)
    requires forall i :: 0 <= i < |ks| ==> ks[i] in Keys(data, key)
    ensures SumAt(Breakdown(data, key, w), ks) == SumGroups(ks, data, key, w)
    decreases |ks|
  {
    if ks != [] {
      SumAtBreakdown(ks[1..], data, key, w);
    }
  }

  /**
   * The breakdown adds up to the whole: summed over the keys present (each
   * listed once), the per-key totals give the total of all records.
   */
  lemma BreakdownTotal<T>(ks: seq<string>, data: seq<T>, key: T -> string, w: T -> real)
    requires Distinct(ks)
    requires forall k :: k in ks <==> k in Keys(data, key)
    ensures SumAt(Breakdown(data, key, w), ks) == Total(data, w)
  {
    SumAtBreakdown(ks, data, key, w);
    PartitionTotal(ks, data, key, w);
  }
}
