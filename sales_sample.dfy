/**
 * The demonstration sales data of the sales-analysis screen: four fixed tables
 * (grapes and potatoes, each sold wholesale and directly), turned into records
 * numbered from 1 with `total = quantity * unitPrice`.
 */
module SalesSample {
  import opened Common
  import opened SalesTypes

  datatype Item = Item(date: string, quantity: real, unitPrice: real)

  const GrapeWholesale: seq<Item> := [
    Item("2024-11-01", 50.0, 300.0),
    Item("2024-11-05", 30.0, 300.0),
    Item("2024-11-10", 45.0, 300.0),
    Item("2024-11-15", 35.0, 300.0),
    Item("2024-11-20", 40.0, 300.0),
    Item("2024-12-01", 25.0, 300.0),
    Item("2024-12-05", 35.0, 300.0)]

  const GrapeDirect: seq<Item> := [
    Item("2024-11-03", 20.0, 400.0),
    Item("2024-11-07", 25.0, 400.0),
    Item("2024-11-12", 15.0, 400.0),
    Item("2024-11-18", 30.0, 400.0),
    Item("2024-11-25", 22.0, 400.0),
    Item("2024-12-03", 18.0, 400.0),
    Item("2024-12-08", 28.0, 400.0)]

  const PotatoWholesale: seq<Item> := [
    Item("2024-10-15", 100.0, 150.0),
    Item("2024-10-20", 120.0, 150.0),
    Item("2024-10-25", 80.0, 150.0),
    Item("2024-11-02", 90.0, 150.0),
    Item("2024-11-08", 110.0, 150.0),
    Item("2024-11-15", 95.0, 150.0),
    Item("2024-11-22", 85.0, 150.0)]

  const PotatoDirect: seq<Item> := [
    Item("2024-10-18", 60.0, 200.0),
    Item("2024-10-22", 70.0, 200.0),
    Item("2024-10-28", 50.0, 200.0),
    Item("2024-11-04", 80.0, 200.0),
    Item("2024-11-12", 65.0, 200.0),
    Item("2024-11-18", 75.0, 200.0),
    Item("2024-11-25", 55.0, 200.0)]

  /** The four tables in the order the records are generated. */
  const Tables: seq<seq<Item>> := [GrapeWholesale, GrapeDirect, PotatoWholesale, PotatoDirect]

  /** The record made from an item: `total` is `quantity * unitPrice`, no notes. */
  function ItemRecord(id: int, item: Item, crop: string, buyer: string): (r: SalesRecord)
    ensures r.id == id && r.crop == crop && r.buyer == buyer && r.notes.None?
    ensures r.date == item.date && r.quantity == item.quantity && r.unitPrice == item.unitPrice
    ensures r.total == r.quantity * r.unitPrice
  {
    SalesRecord(id, item.date, crop, item.quantity, item.unitPrice, item.quantity * item.unitPrice, buyer, None)
  }

  /** `items.forEach(item => records.push({ id: id++, ... }))`. */
  method PushItems(records: seq<SalesRecord>, id: int, items: seq<Item>, crop: string, buyer: string)
    returns (records': seq<SalesRecord>, id': int)
    ensures |records'| == |records| + |items| && records'[..|records|] == records
    ensures forall j :: 0 <= j < |items| ==> records'[|records| + j] == ItemRecord(id + j, items[j], crop, buyer)
    ensures id' == id + |items|
  {
    records', id' := records, id;
    for j := 0 to |items|
      invariant |records'| == |records| + j && records'[..|records|] == records
      invariant forall k :: 0 <= k < j ==> records'[|records| + k] == ItemRecord(id + k, items[k], crop, buyer)
      invariant id' == id + j
    {
      records' := records' + [ItemRecord(id', items[j], crop, buyer)];
      id' := id' + 1;
    }
  }

  /** The crop of the `b`-th table: grapes first, then potatoes. */
  function BlockCrop(b: nat): string { if b < 2 then "grape" else "potato" }

  /** The buyer of the `b`-th table: wholesale and direct sales alternate. */
  function BlockBuyer(b: nat): string { if b % 2 == 0 then "wholesale_market" else "direct_sales" }

  /** The record at position `i` of the sample: item `i % 7` of table `i / 7`, with id `i + 1`. */
  function SampleAt(i: nat): SalesRecord
    requires i < 28
  {
    ItemRecord(i + 1, Tables[i / 7][i % 7], BlockCrop(i / 7), BlockBuyer(i / 7))
  }

  /** The first `n` tables have been turned into records. */
  predicate BlocksDone(records: seq<SalesRecord>, n: nat)
    requires n <= 4
  {
    |records| == 7 * n && forall i :: 0 <= i < 7 * n ==> records[i] == SampleAt(i)
  }

  /**
   * `generateSampleSalesData()`: 28 records numbered 1 to 28, the `i`-th made
   * from item `i % 7` of table `i / 7`.
   */
  method GenerateSampleSalesData() returns (records: seq<SalesRecord>)
    ensures |records| == 28
    ensures forall i :: 0 <= i < 28 ==> records[i] == SampleAt(i)
  {
    records := [];
    var id := 1;
    var next;
    next, id := PushItems(records, id, GrapeWholesale, "grape", "wholesale_market");
    BlockStep(records, next, 0);
    records := next;
    next, id := PushItems(records, id, GrapeDirect, "grape", "direct_sales");
    BlockStep(records, next, 1);
    records := next;
    next, id := PushItems(records, id, PotatoWholesale, "potato", "wholesale_market");
    BlockStep(records, next, 2);
    records := next;
    next, id := PushItems(records, id, PotatoDirect, "potato", "direct_sales");
    BlockStep(records, next, 3);
    records := next;
  }

  /** Pushing the items of the next table extends the finished blocks by one. */
  lemma BlockStep(records: seq<SalesRecord>, next: seq<SalesRecord>, n: nat)
    requires n < 4 && BlocksDone(records, n)
    requires |next| == |records| + 7 && next[..|records|] == records
    requires forall j :: 0 <= j < |Tables[n]| ==> next[|records| + j] == ItemRecord(7 * n + 1 + j, Tables[n][j], BlockCrop(n), BlockBuyer(n))
    ensures BlocksDone(next, n + 1)
  {
    forall i | 0 <= i < 7 * (n + 1) ensures next[i] == SampleAt(i) {
      if i < 7 * n {
        assert next[i] == next[..|records|][i];
      } else {
        var j := i - 7 * n;
        assert i / 7 == n && i % 7 == j;
      }
    }
  }

  /** Every item of the tables has a positive quantity and unit price. */
  lemma TablesPositive(b: nat, j: nat)
    requires b < 4 && j < 7
    ensures Tables[b][j].quantity > 0.0 && Tables[b][j].unitPrice > 0.0
  {
    if b == 0 {
      assert forall k :: 0 <= k < 7 ==> GrapeWholesale[k].quantity > 0.0 && GrapeWholesale[k].unitPrice == 300.0;
    } else if b == 1 {
      assert forall k :: 0 <= k < 7 ==> GrapeDirect[k].quantity > 0.0 && GrapeDirect[k].unitPrice == 400.0;
    } else if b == 2 {
      assert forall k :: 0 <= k < 7 ==> PotatoWholesale[k].quantity > 0.0 && PotatoWholesale[k].unitPrice == 150.0;
    } else {
      assert forall k :: 0 <= k < 7 ==> PotatoDirect[k].quantity > 0.0 && PotatoDirect[k].unitPrice == 200.0;
    }
  }

  /** The sample's ids run from 1, and every total is quantity times unit price. */
  lemma SampleNumbered(i: nat)
    requires i < 28
    ensures SampleAt(i).id == i + 1
    ensures SampleAt(i).total == SampleAt(i).quantity * SampleAt(i).unitPrice
  {
    var b, j := i / 7, i % 7;
    assert b < 4 && j < 7;
    var item := Tables[b][j];
    var r := ItemRecord(i + 1, item, BlockCrop(b), BlockBuyer(b));
    assert SampleAt(i) == r;
  }

  /** Every sample sale has a positive total. */
  lemma SamplePositive(i: nat)
    requires i < 28
    ensures SampleAt(i).total > 0.0
  {
    TablesPositive(i / 7, i % 7);
    PositiveProduct(Tables[i / 7][i % 7].quantity, Tables[i / 7][i % 7].unitPrice);
  }

  /** Every crop and buyer of the sample has a display name. */
  lemma SampleNamed(i: nat)
    requires i < 28
    ensures SampleAt(i).crop in CropNames && SampleAt(i).buyer in ChannelNames
  {
    assert "grape" in CropNames && "potato" in CropNames;
    assert "wholesale_market" in ChannelNames && "direct_sales" in ChannelNames;
  }

  lemma PositiveProduct(q: real, p: real)
    requires q > 0.0 && p > 0.0
    ensures q * p > 0.0
  {
  }
}
