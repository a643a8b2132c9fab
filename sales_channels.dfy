/**
 * Sales by buyer (channel) and by crop: revenue and volume per channel with
 * the average price and the share of all revenue, the revenue share of each
 * crop with its chart colour, the option lists of the filter panel, and the
 * abbreviation of large amounts.
 */
module SalesChannels {
  import opened Common
  import opened Seqs
  import opened Ordering
  import opened Grouping
  import opened SalesTypes
  import opened Numbers

  /** `totalRevenue > 0 ? (value / totalRevenue) * 100 : 0`. */
  function Share(value: real, total: real): (p: real)
    ensures total <= 0.0 ==> p == 0.0
    ensures total > 0.0 ==> p * total == value * 100.0
  {
    if total > 0.0 then value / total * 100.0 else 0.0
  }

  /** The whole is 100 percent of itself. */
  lemma ShareOfWhole(total: real)
    requires total > 0.0
    ensures Share(total, total) == 100.0
  {
    assert total / total == 1.0;
  }

  lemma ShareAdd(a: real, b: real, total: real)
    ensures Share(a, total) + Share(b, total) == Share(a + b, total)
  {
  }

  /** `revenue / volume`, with `None` where the division gives `NaN` or `Infinity`. */
  function AveragePrice(revenue: real, volume: real): (p: Option<real>)
    ensures p.None? <==> volume == 0.0
    ensures p.Some? ==> p.value * volume == revenue
  {
    if volume == 0.0 then None else Some(revenue / volume)
  }

  // ----- channels -----

  /** The channels in order of first appearance, as `Object.entries` lists them. */
  function ChannelOrder(data: seq<SalesRecord>): seq<string>
  {
    Dedup(KeyList(data, Buyer()))
  }

  function ChannelRevenue(data: seq<SalesRecord>, b: string): real
  {
    Total(Group(data, Buyer(), b), Revenue())
  }

  function ChannelVolume(data: seq<SalesRecord>, b: string): real
  {
    Total(Group(data, Buyer(), b), Volume())
  }

  /** The summary of buyer `b`, out of all revenue `total`. */
  function ChannelEntry(data: seq<SalesRecord>, b: string, total: real): ChannelAnalysisData
  {
    var revenue := ChannelRevenue(data, b);
    var volume := ChannelVolume(data, b);
    ChannelAnalysisData(ChannelName(b), revenue, volume, AveragePrice(revenue, volume), Share(revenue, total))
  }

  function ChannelEntries(data: seq<SalesRecord>, ks: seq<string>, total: real): (es: seq<ChannelAnalysisData>)
    ensures |es| == |ks|
    ensures forall j :: 0 <= j < |ks| ==> es[j] == ChannelEntry(data, ks[j], total)
  {
    seq(|ks|, j requires 0 <= j < |ks| => ChannelEntry(data, ks[j], total))
  }

  /**
   * `generateChannelAnalysisData(data)`: one entry per buyer, in order of
   * first appearance, each with its revenue, volume, average price and share
   * of the revenue of all records.
   */
  method GenerateChannelAnalysisData(data: seq<SalesRecord>) returns (out: seq<ChannelAnalysisData>)
    ensures out == ChannelEntries(data, ChannelOrder(data), Total(data, Revenue()))
  {
    var revenue, volume, order := GroupChannels(data);
    KeyListKeys(data, Buyer());
    BreakdownTotal(order, data, Buyer(), Revenue());
    var total := SumAt(revenue, order);
    out := EntriesOf(revenue, volume, order, total);
    EntriesFromSums(data, order, total);
  }

  /** `Object.entries(channelData).map(...)`: one entry per listed buyer, read from the per-buyer sums. */
  function EntriesOf(revenue: map<string, real>, volume: map<string, real>, order: seq<string>, total: real): seq<ChannelAnalysisData>
    requires forall j :: 0 <= j < |order| ==> order[j] in revenue && order[j] in volume
  {
    seq(|order|, j requires 0 <= j < |order| =>
      var b := order[j];
      ChannelAnalysisData(ChannelName(b), revenue[b], volume[b], AveragePrice(revenue[b], volume[b]), Share(revenue[b], total)))
  }

  /** Entries read from the per-buyer sums are the summaries of those buyers. */
  lemma EntriesFromSums(data: seq<SalesRecord>, order: seq<string>, total: real)
    requires forall j :: 0 <= j < |order| ==> order[j] in Keys(data, Buyer())
    ensures EntriesOf(Breakdown(data, Buyer(), Revenue()), Breakdown(data, Buyer(), Volume()), order, total)
         == ChannelEntries(data, order, total)
  {
  }

  /**
   * The `reduce` of `generateChannelAnalysisData`: revenue and volume summed
   * per buyer, the buyers listed in order of first appearance. The record
   * count the source also keeps is never read and is left out.
   */
  method GroupChannels(data: seq<SalesRecord>)
    returns (revenue: map<string, real>, volume: map<string, real>, order: seq<string>)
    ensures revenue == Breakdown(data, Buyer(), Revenue())
    ensures volume == Breakdown(data, Buyer(), Volume())
    ensures order == ChannelOrder(data)
  {
    revenue, volume, order := map[], map[], [];
    assert data[..0] == [];
    BreakdownEmpty(Buyer(), Revenue());
    BreakdownEmpty(Buyer(), Volume());
    for i := 0 to |data|
      invariant revenue == Breakdown(data[..i], Buyer(), Revenue())
      invariant volume == Breakdown(data[..i], Buyer(), Volume())
      invariant order == Dedup(KeyList(data[..i], Buyer()))
      invariant forall t :: t in revenue <==> t in order
    {
      var r := data[i];
      BreakdownPrefix(data, i, Buyer(), Revenue());
      BreakdownPrefix(data, i, Buyer(), Volume());
      KeyListSnoc(data, i, Buyer());
      DedupSnoc(KeyList(data[..i], Buyer()), r.buyer);
      if r.buyer !in revenue {
        order := order + [r.buyer];
      }
      revenue := AddTo(revenue, r.buyer, r.total);
      volume := AddTo(volume, r.buyer, r.quantity);
    }
    assert data[..|data|] == data;
  }

  /** Every buyer appears once. */
  lemma ChannelsDistinct(data: seq<SalesRecord>)
    ensures Distinct(ChannelOrder(data))
    ensures forall b :: b in ChannelOrder(data) <==> b in Keys(data, Buyer())
  {
    KeyListKeys(data, Buyer());
  }

  /** The channel revenues add up to the revenue of all records. */
  lemma ChannelRevenuesAddUp(data: seq<SalesRecord>)
    ensures SumGroups(ChannelOrder(data), data, Buyer(), Revenue()) == Total(data, Revenue())
  {
    ChannelsDistinct(data);
    PartitionTotal(ChannelOrder(data), data, Buyer(), Revenue());
  }

  function SumPercentages(es: seq<ChannelAnalysisData>): real
    decreases |es|
  {
    if es == [] then 0.0 else es[0].percentage + SumPercentages(es[1..])
  }

  lemma {:induction false} ChannelSharesSum(data: seq<SalesRecord>, ks: seq<string>, total: real)
    ensures SumPercentages(ChannelEntries(data, ks, total)) == Share(SumGroups(ks, data, Buyer(), Revenue()), total)
    decreases |ks|
  {
    if ks != [] {
      assert ChannelEntries(data, ks, total)[1..] == ChannelEntries(data, ks[1..], total);
      ChannelSharesSum(data, ks[1..], total);
      ShareAdd(ChannelRevenue(data, ks[0]), SumGroups(ks[1..], data, Buyer(), Revenue()), total);
    }
  }

  /** When there is revenue, the channel shares add up to 100 percent. */
  lemma ChannelSharesTotal(data: seq<SalesRecord>)
    requires Total(data, Revenue()) > 0.0
    ensures SumPercentages(ChannelEntries(data, ChannelOrder(data), Total(data, Revenue()))) == 100.0
  {
    ChannelSharesSum(data, ChannelOrder(data), Total(data, Revenue()));
    ChannelRevenuesAddUp(data);
    ShareOfWhole(Total(data, Revenue()));
  }

  // ----- crops -----

  /**
   * The `reduce` of `generateCropCompositionData`: `total` summed per crop,
   * the crops listed in order of first appearance.
   */
  method GroupCrops(data: seq<SalesRecord>) returns (sums: map<string, real>, order: seq<string>)
    ensures sums == Breakdown(data, Crop(), Revenue())
    ensures order == CropOrder(data)
  {
    sums, order := map[], [];
    assert data[..0] == [];
    BreakdownEmpty(Crop(), Revenue());
    for i := 0 to |data|
      invariant sums == Breakdown(data[..i], Crop(), Revenue())
      invariant order == Dedup(KeyList(data[..i], Crop()))
      invariant forall t :: t in sums <==> t in order
    {
      var r := data[i];
      BreakdownPrefix(data, i, Crop(), Revenue());
      KeyListSnoc(data, i, Crop());
      DedupSnoc(KeyList(data[..i], Crop()), r.crop);
      if r.crop !in sums {
        order := order + [r.crop];
      }
      sums := AddTo(sums, r.crop, r.total);
    }
    assert data[..|data|] == data;
  }

  function CropOrder(data: seq<SalesRecord>): seq<string>
  {
    Dedup(KeyList(data, Crop()))
  }

  function CropRevenue(data: seq<SalesRecord>, c: string): real
  {
    Total(Group(data, Crop(), c), Revenue())
  }

  function CompositionEntry(data: seq<SalesRecord>, c: string, total: real): CropCompositionData
  {
    var value := CropRevenue(data, c);
    CropCompositionData(CropName(c), value, Share(value, total), CropColor(c))
  }

  function CompositionEntries(data: seq<SalesRecord>, ks: seq<string>, total: real): (es: seq<CropCompositionData>)
    ensures |es| == |ks|
    ensures forall j :: 0 <= j < |ks| ==> es[j] == CompositionEntry(data, ks[j], total)
  {
    seq(|ks|, j requires 0 <= j < |ks| => CompositionEntry(data, ks[j], total))
  }

  /**
   * `generateCropCompositionData(data)`: one entry per crop, in order of first
   * appearance, with its revenue, share of all revenue, and colour.
   */
  method GenerateCropCompositionData(data: seq<SalesRecord>) returns (out: seq<CropCompositionData>)
    ensures out == CompositionEntries(data, CropOrder(data), Total(data, Revenue()))
  {
    var sums, order := GroupCrops(data);
    KeyListKeys(data, Crop());
    BreakdownTotal(order, data, Crop(), Revenue());
    var total := SumAt(sums, order);
    out := seq(|order|, j requires 0 <= j < |order| =>
      var c := order[j];
      CropCompositionData(CropName(c), sums[c], Share(sums[c], total), CropColor(c)));
  }

  function SumCropPercentages(es: seq<CropCompositionData>): real
    decreases |es|
  {
    if es == [] then 0.0 else es[0].percentage + SumCropPercentages(es[1..])
  }

  lemma {:induction false} CropSharesSum(data: seq<SalesRecord>, ks: seq<string>, total: real)
    ensures SumCropPercentages(CompositionEntries(data, ks, total)) == Share(SumGroups(ks, data, Crop(), Revenue()), total)
    decreases |ks|
  {
    if ks != [] {
      assert CompositionEntries(data, ks, total)[1..] == CompositionEntries(data, ks[1..], total);
      CropSharesSum(data, ks[1..], total);
      ShareAdd(CropRevenue(data, ks[0]), SumGroups(ks[1..], data, Crop(), Revenue()), total);
    }
  }

  /** When there is revenue, the pie's slices add up to 100 percent. */
  lemma CropSharesTotal(data: seq<SalesRecord>)
    requires Total(data, Revenue()) > 0.0
    ensures SumCropPercentages(CompositionEntries(data, CropOrder(data), Total(data, Revenue()))) == 100.0
  {
    CropSharesSum(data, CropOrder(data), Total(data, Revenue()));
    KeyListKeys(data, Crop());
    PartitionTotal(CropOrder(data), data, Crop(), Revenue());
    ShareOfWhole(Total(data, Revenue()));
  }

  // ----- option lists -----

  /** `[...new Set(data.map(r => r.crop))].sort()`. */
  function AvailableCrops(data: seq<SalesRecord>): (cs: seq<string>)
    ensures StrictlySorted(cs)
    ensures forall c :: c in cs <==> exists i :: 0 <= i < |data| && data[i].crop == c
  {
    var cs := SortedUnique(Dedup(KeyList(data, Crop())));
    assert forall c :: c in cs <==> c in KeyList(data, Crop());
    cs
  }

  /** `[...new Set(data.map(r => r.buyer))].sort()`. */
  function AvailableChannels(data: seq<SalesRecord>): (bs: seq<string>)
    ensures StrictlySorted(bs)
    ensures forall b :: b in bs <==> exists i :: 0 <= i < |data| && data[i].buyer == b
  {
    var bs := SortedUnique(Dedup(KeyList(data, Buyer())));
    assert forall b :: b in bs <==> b in KeyList(data, Buyer());
    bs
  }

  // ----- large numbers -----

  /**
   * How `formatLargeNumber` writes a value: a count of tenths of a million
   * (`toFixed(1)` followed by `M`), a whole count of thousands (`toFixed(0)`
   * followed by `k`), or the value itself for the locale formatter.
   */
  datatype Abbreviation = Millions(tenths: int) | Thousands(k: int) | Plain(v: real)

  /**
   * `toFixed` picks the nearest figure and the larger one on a tie, which on
   * the exact quotient is `Math.round` of it.
   */
  function FormatLargeNumber(value: real): (a: Abbreviation)
    ensures a.Millions? <==> value >= 1000000.0
    ensures a.Thousands? <==> 1000.0 <= value < 1000000.0
    ensures a.Millions? ==> 10 <= a.tenths && value - 50000.0 < a.tenths as real * 100000.0 <= value + 50000.0
    ensures a.Thousands? ==> 1 <= a.k <= 1000 && value - 500.0 < a.k as real * 1000.0 <= value + 500.0
    ensures a.Plain? ==> a.v == value
  {
    if value >= 1000000.0 then
      RoundMonotone(10.0, value / 100000.0);
      RoundWhole(10);
      Millions(Round(value / 100000.0))
    else if value >= 1000.0 then
      RoundBetween(value / 1000.0, 1, 1000);
      Thousands(Round(value / 1000.0))
    else Plain(value)
  }

  /** Just below a million the thousands figure reaches 1000: 999 500 is written `1000k`, not `1.0M`. */
  lemma ThousandsReachesThousand()
    ensures FormatLargeNumber(999500.0) == Thousands(1000)
  {
  }
}
