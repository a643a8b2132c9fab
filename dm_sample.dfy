/**
 * The starting data of the data-management screens: four crops, four sales
 * channels, thirty-four sample sales records listed newest first, and the
 * id-to-name lookups the tables display.
 */
module DataSample {
  import opened Common
  import opened Dates
  import opened Ordering
  import opened Seqs
  import opened DataTypes
  import V = Validation

  const Epoch := "2024-01-01T00:00:00.000Z"

  const InitialCropInfo: seq<CropInfo> := [
    CropInfo("grape", "ぶどう", "果物", "kg", 350.0, Some("栽培期間が長く、品質による価格差が大きい果物"), true, Epoch, Epoch),
    CropInfo("potato", "じゃがいも", "野菜", "kg", 175.0, Some("保存が利き、安定した需要がある根菜類"), true, Epoch, Epoch),
    CropInfo("tomato", "トマト", "野菜", "kg", 400.0, Some("周年栽培可能な人気野菜"), true, Epoch, Epoch),
    CropInfo("cucumber", "きゅうり", "野菜", "kg", 300.0, Some("短期間で収穫でき、回転の早い作物"), true, Epoch, Epoch)]

  const InitialSalesChannels: seq<SalesChannel> := [
    SalesChannel("wholesale_market", "wholesale_market", "よ市", Some(10.0), Some("卸売市場窓口: 000-0000-0000"),
      Some("大量販売に適している"), true, Epoch, Epoch),
    SalesChannel("direct_sales", "direct_sales", "産直", Some(5.0), Some("産直施設: 000-0000-0001"),
      Some("高単価での販売が期待できる"), true, Epoch, Epoch),
    SalesChannel("ja", "ja", "農協", Some(15.0), Some("JA窓口: 000-0000-0002"), Some("安定した販売先"), true, Epoch, Epoch),
    SalesChannel("restaurant", "restaurant", "レストラン", Some(0.0), Some("直接取引"),
      Some("品質重視、継続的な取引"), true, Epoch, Epoch)]

  /** `s.find(p)`, as the position of the first match. */
  function FindFirst<T>(s: seq<T>, p: T -> bool): (r: Option<nat>)
    ensures r.Some? ==> r.value < |s| && p(s[r.value]) && forall j :: 0 <= j < r.value ==> !p(s[j])
    ensures r.None? ==> forall j :: 0 <= j < |s| ==> !p(s[j])
    decreases |s|
  {
    if s == [] then None
    else if p(s[0]) then Some(0)
    else
      var r := FindFirst(s[1..], p);
      if r.Some? then Some(r.value + 1) else None
  }

  /** `getCropName(cropId)`: the name of the first crop with that id, or the id itself. */
  function GetCropName(cropId: string): (name: string)
    ensures (forall j :: 0 <= j < |InitialCropInfo| ==> InitialCropInfo[j].id != cropId) ==> name == cropId
    ensures forall j :: 0 <= j < |InitialCropInfo| && InitialCropInfo[j].id == cropId ==> name == InitialCropInfo[j].name
  {
    var found := FindFirst(InitialCropInfo, (c: CropInfo) => c.id == cropId);
    if found.Some? && InitialCropInfo[found.value].name != "" then InitialCropInfo[found.value].name else cropId
  }

  /** `getChannelDisplayName(channelId)`: the display name of the first channel with that id, or the id itself. */
  function GetChannelDisplayName(channelId: string): (name: string)
    ensures (forall j :: 0 <= j < |InitialSalesChannels| ==> InitialSalesChannels[j].id != channelId) ==> name == channelId
    ensures forall j :: 0 <= j < |InitialSalesChannels| && InitialSalesChannels[j].id == channelId ==>
      name == InitialSalesChannels[j].displayName
  {
    var found := FindFirst(InitialSalesChannels, (c: SalesChannel) => c.id == channelId);
    if found.Some? && InitialSalesChannels[found.value].displayName != "" then InitialSalesChannels[found.value].displayName
    else channelId
  }

  // ---- generateSampleSalesRecords ----------------------------------------

  datatype Item = Item(date: string, quantity: real, unitPrice: real)

  datatype TomatoItem = TomatoItem(date: string, quantity: real, unitPrice: real, channel: string)

  const GrapeWholesale: seq<Item> := [
    Item("2024-11-01", 50.0, 300.0), Item("2024-11-05", 30.0, 300.0), Item("2024-11-10", 45.0, 300.0),
    Item("2024-11-15", 35.0, 300.0), Item("2024-11-20", 40.0, 300.0), Item("2024-12-01", 25.0, 320.0),
    Item("2024-12-10", 30.0, 320.0)]

  const GrapeDirect: seq<Item> := [
    Item("2024-11-03", 20.0, 400.0), Item("2024-11-07", 25.0, 400.0), Item("2024-11-12", 15.0, 400.0),
    Item("2024-11-18", 30.0, 400.0), Item("2024-11-25", 22.0, 400.0), Item("2024-12-05", 18.0, 420.0),
    Item("2024-12-15", 20.0, 420.0)]

  const PotatoWholesale: seq<Item> := [
    Item("2024-10-15", 100.0, 150.0), Item("2024-10-20", 120.0, 150.0), Item("2024-10-25", 80.0, 150.0),
    Item("2024-11-02", 90.0, 150.0), Item("2024-11-08", 110.0, 150.0), Item("2024-11-15", 85.0, 160.0),
    Item("2024-11-25", 95.0, 160.0)]

  const PotatoDirect: seq<Item> := [
    Item("2024-10-18", 60.0, 200.0), Item("2024-10-22", 70.0, 200.0), Item("2024-10-28", 50.0, 200.0),
    Item("2024-11-04", 80.0, 200.0), Item("2024-11-12", 65.0, 200.0), Item("2024-11-20", 75.0, 210.0),
    Item("2024-11-28", 55.0, 210.0)]

  const TomatoData: seq<TomatoItem> := [
    TomatoItem("2024-09-15", 40.0, 350.0, "direct_sales"),
    TomatoItem("2024-09-25", 35.0, 330.0, "wholesale_market"),
    TomatoItem("2024-10-05", 45.0, 370.0, "restaurant"),
    TomatoItem("2024-10-15", 50.0, 340.0, "direct_sales"),
    TomatoItem("2024-10-25", 40.0, 320.0, "wholesale_market"),
    TomatoItem("2024-11-05", 35.0, 380.0, "direct_sales")]

  /** The four single-channel tables, in the order their records are made. */
  const Tables: seq<seq<Item>> := [GrapeWholesale, GrapeDirect, PotatoWholesale, PotatoDirect]

  function BlockCrop(b: nat): string { if b < 2 then "grape" else "potato" }

  function BlockChannel(b: nat): string { if b % 2 == 0 then "wholesale_market" else "direct_sales" }

  /** The note each table attaches: large grape lots, premium grapes, bulk potatoes, select potatoes. */
  function BlockNote(b: nat, item: Item): string
  {
    if b == 0 then (if item.quantity > 40.0 then "品質良好" else "")
    else if b == 1 then (if item.unitPrice > 400.0 then "高品質品" else "")
    else if b == 2 then (if item.quantity > 100.0 then "大口販売" else "")
    else (if item.unitPrice > 200.0 then "特選品" else "")
  }

  function TomatoNote(item: TomatoItem): string
  {
    if item.channel == "restaurant" then "レストラン納品" else ""
  }

  /** One generated record: unit `kg`, `total = quantity * unitPrice`, both stamps `now`. */
  function SampleRecord(id: int, date: string, crop: string, quantity: real, unitPrice: real,
                        channel: string, note: string, now: string): (r: SalesRecord)
    ensures r.id == id && r.unit == "kg" && r.total == r.quantity * r.unitPrice
    ensures r.date == date && r.crop == crop && r.quantity == quantity && r.unitPrice == unitPrice
    ensures r.channel == channel && r.notes == Some(note) && r.createdAt == now && r.updatedAt == now
  {
    SalesRecord(id, date, crop, quantity, "kg", unitPrice, quantity * unitPrice, channel, Some(note), now, now)
  }

  function TableMaker(b: nat, now: string): (int, Item) -> SalesRecord
  {
    (id: int, item: Item) => SampleRecord(id, item.date, BlockCrop(b), item.quantity, item.unitPrice,
      BlockChannel(b), BlockNote(b, item), now)
  }

  function TomatoMaker(now: string): (int, TomatoItem) -> SalesRecord
  {
    (id: int, item: TomatoItem) => SampleRecord(id, item.date, "tomato", item.quantity, item.unitPrice,
      item.channel, TomatoNote(item), now)
  }

  /** The `i`-th record pushed: the four tables of seven, then the six tomato sales; ids count from 1. */
  function PushedAt(i: nat, now: string): (r: SalesRecord)
    requires i < 34
    ensures r.id == i + 1 && r.unit == "kg" && r.total == r.quantity * r.unitPrice
  {
    if i < 28 then
      var b, it := i / 7, Tables[i / 7][i % 7];
      SampleRecord(i + 1, it.date, BlockCrop(b), it.quantity, it.unitPrice, BlockChannel(b), BlockNote(b, it), now)
    else
      var it := TomatoData[i - 28];
      SampleRecord(i + 1, it.date, "tomato", it.quantity, it.unitPrice, it.channel, TomatoNote(it), now)
  }

  /** The records in the order they are pushed, before sorting. */
  function Pushed(now: string): (s: seq<SalesRecord>)
    ensures |s| == 34 && forall i :: 0 <= i < 34 ==> s[i] == PushedAt(i, now)
  {
    seq(34, (i: int) requires 0 <= i < 34 => PushedAt(i, now))
  }

  /** `items.forEach(item => records.push(make(id++, item)))`. */
  method PushItems<I>(records: seq<SalesRecord>, id: int, items: seq<I>, make: (int, I) -> SalesRecord)
    returns (records': seq<SalesRecord>, id': int)
    ensures |records'| == |records| + |items| && records'[..|records|] == records
    ensures forall j :: 0 <= j < |items| ==> records'[|records| + j] == make(id + j, items[j])
    ensures id' == id + |items|
  {
    records', id' := records, id;
    for j := 0 to |items|
      invariant |records'| == |records| + j && records'[..|records|] == records
      invariant forall k :: 0 <= k < j ==> records'[|records| + k] == make(id + k, items[k])
      invariant id' == id + j
    {
      records' := records' + [make(id', items[j])];
      id' := id' + 1;
    }
  }

  /** The first `n` records have been pushed. */
  predicate PushedUpTo(records: seq<SalesRecord>, n: nat, now: string)
    requires n <= 34
  {
    |records| == n && forall i :: 0 <= i < n ==> records[i] == PushedAt(i, now)
  }

  /** Pushing table `b` after the first `b` tables. */
  lemma TableStep(records: seq<SalesRecord>, next: seq<SalesRecord>, b: nat, now: string)
    requires b < 4 && PushedUpTo(records, 7 * b, now)
    requires |next| == |records| + 7 && next[..|records|] == records
    requires forall j :: 0 <= j < |Tables[b]| ==> next[|records| + j] == TableMaker(b, now)(7 * b + 1 + j, Tables[b][j])
    ensures PushedUpTo(next, 7 * (b + 1), now)
  {
    forall i | 0 <= i < 7 * (b + 1) ensures next[i] == PushedAt(i, now) {
      if i < 7 * b {
        assert next[i] == next[..|records|][i];
      } else {
        assert i / 7 == b && i % 7 == i - 7 * b;
      }
    }
  }

  /** Pushing the tomato sales after the four tables. */
  lemma TomatoStep(records: seq<SalesRecord>, next: seq<SalesRecord>, now: string)
    requires PushedUpTo(records, 28, now)
    requires |next| == 34 && next[..28] == records
    requires forall j :: 0 <= j < 6 ==> next[28 + j] == TomatoMaker(now)(29 + j, TomatoData[j])
    ensures next == Pushed(now)
  {
    forall i | 0 <= i < 34 ensures next[i] == PushedAt(i, now) {
      if i < 28 {
        assert next[i] == next[..28][i];
      }
    }
  }

  /** `new Date(date).getTime()` up to a monotone change of scale; an Invalid Date stands below every date. */
  function TimeOf(date: string): int
  {
    var d := ParseDate(date);
    if d.Some? then (d.value.year * 13 + d.value.month) * 32 + d.value.day else -1
  }

  /** The comparator `(a, b) => time(b) - time(a)`, as "may precede": newest first. */
  function NewerFirst(): (SalesRecord, SalesRecord) -> bool
  {
    (a: SalesRecord, b: SalesRecord) => TimeOf(b.date) <= TimeOf(a.date)
  }

  lemma NewerFirstPreorder()
    ensures TotalPreorder(NewerFirst())
  {
  }

  /**
   * `generateSampleSalesRecords()` with the clock reading `now`: the pushed
   * records, rearranged newest first by a stable sort, so records of the same
   * date keep the order in which they were pushed.
   */
  method GenerateSampleSalesRecords(now: string) returns (records: seq<SalesRecord>)
    ensures |records| == 34
    ensures multiset(records) == multiset(Pushed(now))
    ensures SortedBy(records, NewerFirst())
    ensures forall z :: Filter(records, Ties(NewerFirst(), z)) == Filter(Pushed(now), Ties(NewerFirst(), z))
  {
    var pushed: seq<SalesRecord> := [];
    var id := 1;
    var next;
    next, id := PushItems(pushed, id, GrapeWholesale, TableMaker(0, now));
    TableStep(pushed, next, 0, now);
    pushed := next;
    next, id := PushItems(pushed, id, GrapeDirect, TableMaker(1, now));
    TableStep(pushed, next, 1, now);
    pushed := next;
    next, id := PushItems(pushed, id, PotatoWholesale, TableMaker(2, now));
    TableStep(pushed, next, 2, now);
    pushed := next;
    next, id := PushItems(pushed, id, PotatoDirect, TableMaker(3, now));
    TableStep(pushed, next, 3, now);
    pushed := next;
    next, id := PushItems(pushed, id, TomatoData, TomatoMaker(now));
    TomatoStep(pushed, next, now);
    NewerFirstPreorder();
    records := SortBy(next, NewerFirst());
    assert |multiset(records)| == |multiset(next)|;
    forall z ensures Filter(records, Ties(NewerFirst(), z)) == Filter(next, Ties(NewerFirst(), z)) {
      SortByStable(next, NewerFirst(), z);
    }
  }

  /** A record from one of the four tables, spelled out. */
  lemma PushedFromTable(i: nat, now: string)
    requires i < 28
    ensures var b, it := i / 7, Tables[i / 7][i % 7];
      PushedAt(i, now) == SampleRecord(i + 1, it.date, BlockCrop(b), it.quantity, it.unitPrice,
        BlockChannel(b), BlockNote(b, it), now)
  {
  }

  /** A tomato record, spelled out. */
  lemma PushedFromTomatoes(i: nat, now: string)
    requires 28 <= i < 34
    ensures var it := TomatoData[i - 28];
      PushedAt(i, now) == SampleRecord(i + 1, it.date, "tomato", it.quantity, it.unitPrice,
        it.channel, TomatoNote(it), now)
  {
  }

  /** A record of the sample is one of the pushed records, and each pushed record is in the sample. */
  lemma SampleMembers(records: seq<SalesRecord>, now: string, x: SalesRecord)
    requires multiset(records) == multiset(Pushed(now))
    ensures x in records <==> exists i :: 0 <= i < 34 && x == PushedAt(i, now)
  {
    assert x in records <==> x in multiset(records);
    assert x in Pushed(now) <==> x in multiset(Pushed(now));
  }

  /** Every id from 1 to 34 is carried by some record of the sample. */
  lemma SampleIdsPresent(records: seq<SalesRecord>, now: string, k: int)
    requires multiset(records) == multiset(Pushed(now))
    requires 1 <= k <= 34
    ensures exists i :: 0 <= i < |records| && records[i].id == k
  {
    SampleMembers(records, now, PushedAt(k - 1, now));
    var i :| 0 <= i < |records| && records[i] == PushedAt(k - 1, now);
  }

  /** Every record of the sample has an id from 1 to 34. */
  lemma SampleIdsInRange(records: seq<SalesRecord>, now: string, i: int)
    requires multiset(records) == multiset(Pushed(now))
    requires 0 <= i < |records|
    ensures 1 <= records[i].id <= 34
  {
    SampleMembers(records, now, records[i]);
  }

  /** No two records of the sample share an id. */
  lemma SampleIdsDistinct(records: seq<SalesRecord>, now: string, i: int, j: int)
    requires multiset(records) == multiset(Pushed(now))
    requires 0 <= i < j < |records|
    ensures records[i].id != records[j].id
  {
    if records[i].id == records[j].id {
      SampleMembers(records, now, records[i]);
      SampleMembers(records, now, records[j]);
      assert records[i] == records[j];
      TwiceCounted(records, i, j);
      PushedOnce(now, records[i]);
    }
  }

  /** An element at two positions is counted at least twice. */
  lemma TwiceCounted<T>(s: seq<T>, i: nat, j: nat)
    requires i < j < |s| && s[i] == s[j]
    ensures multiset(s)[s[i]] >= 2
  {
    assert s == s[..j] + [s[j]] + s[j + 1..];
    assert s[i] in s[..j];
    assert multiset(s) == multiset(s[..j]) + multiset{s[j]} + multiset(s[j + 1..]);
  }

  /** Each pushed record occurs once, since no two share an id. */
  lemma PushedOnce(now: string, x: SalesRecord)
    ensures multiset(Pushed(now))[x] <= 1
  {
    var s := Pushed(now);
    forall i, j | 0 <= i < j < 34 ensures s[i] != s[j] {
      assert s[i].id == i + 1 && s[j].id == j + 1;
    }
    DistinctCountedOnce(s, x);
  }

  lemma {:induction false} DistinctCountedOnce<T>(s: seq<T>, x: T)
    requires forall i, j :: 0 <= i < j < |s| ==> s[i] != s[j]
    ensures multiset(s)[x] <= 1
    decreases |s|
  {
    if s != [] {
      var init := s[..|s| - 1];
      assert s == init + [s[|s| - 1]];
      DistinctCountedOnce(init, x);
      if x == s[|s| - 1] {
        assert x !in init;
      }
    }
  }

  /**
   * The note rules: wholesale grapes are noted as good quality exactly when
   * more than 40 kg were sold, direct grapes as premium exactly above 400 yen,
   * and tomatoes as restaurant deliveries exactly when sold to a restaurant.
   */
  lemma SampleNotes(i: nat, now: string)
    requires i < 34
    ensures var r := PushedAt(i, now);
      && (r.crop == "grape" && r.channel == "wholesale_market" ==> (r.notes == Some("品質良好") <==> r.quantity > 40.0))
      && (r.crop == "grape" && r.channel == "direct_sales" ==> (r.notes == Some("高品質品") <==> r.unitPrice > 400.0))
      && (r.crop == "tomato" ==> (r.notes == Some("レストラン納品") <==> r.channel == "restaurant"))
  {
    if i < 28 {
      PushedFromTable(i, now);
      var b := i / 7;
      assert BlockCrop(b) != "tomato";
      if BlockCrop(b) == "grape" {
        assert b < 2;
        if b == 0 {
          assert BlockChannel(b) == "wholesale_market";
        } else {
          assert BlockChannel(b) == "direct_sales";
        }
      }
    } else {
      PushedFromTomatoes(i, now);
    }
  }

  /** The starting channels satisfy the channel form's rules on name and commission rate. */
  lemma InitialChannelsValid(j: nat)
    requires j < |InitialSalesChannels|
    ensures V.ChannelNameAccepted(InitialSalesChannels[j].name)
    ensures 0.0 <= InitialSalesChannels[j].commissionRate.value <= 100.0
  {
    var name := InitialSalesChannels[j].name;
    V.ChannelNameIff(name);
    LowerOrUnderscore(name);
  }

  /** A text of lower-case letters and underscores matches the channel-name class. */
  lemma LowerOrUnderscore(name: string)
    requires name in {"wholesale_market", "direct_sales", "ja", "restaurant"}
    ensures forall i :: 0 <= i < |name| ==> V.WordChar(name[i])
  {
    forall i | 0 <= i < |name| ensures V.WordChar(name[i]) {
      assert name[i] in "abcdefghijklmnopqrstuvwxyz_";
    }
  }
}
