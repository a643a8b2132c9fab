/**
 * The records and result shapes of the sales-analysis screen: a sales record
 * (what was sold, how much, at what price, to which buyer), the filter panel's
 * selection, the per-channel and per-crop summaries, and the display-name and
 * colour tables they are labelled with.
 */
module SalesTypes {
  import opened Common

  datatype SalesRecord = SalesRecord(
    id: int,
    date: string,
    crop: string,
    quantity: real,
    unitPrice: real,
    total: real,
    buyer: string,
    notes: Option<string>)

  /** The analysis period the screen groups by. */
  datatype AnalysisPeriod = Monthly | Quarterly | Yearly

  /** The period's identifier as the screen passes it around. */
  function PeriodName(p: AnalysisPeriod): (s: string)
    ensures s in {"monthly", "quarterly", "yearly"}
  {
    match p
    case Monthly => "monthly"
    case Quarterly => "quarterly"
    case Yearly => "yearly"
  }

  lemma PeriodNameInjective(p: AnalysisPeriod, q: AnalysisPeriod)
    ensures PeriodName(p) == PeriodName(q) <==> p == q
  {
    if p != q {
      assert PeriodName(p)[0] != PeriodName(q)[0];
    }
  }

  datatype AnalysisFilters = AnalysisFilters(
    startDate: string,
    endDate: string,
    crops: seq<string>,
    channels: seq<string>,
    period: AnalysisPeriod)

  /**
   * One buyer's share of the sales. `averagePrice` is `None` where the source
   * divides by a volume of zero (giving `NaN` or `Infinity`).
   */
  datatype ChannelAnalysisData = ChannelAnalysisData(
    channel: string,
    revenue: real,
    volume: real,
    averagePrice: Option<real>,
    percentage: real)

  datatype CropCompositionData = CropCompositionData(
    crop: string,
    value: real,
    percentage: real,
    fill: string)

  const ChannelNames: map<string, string> := map[
    "wholesale_market" := "よ市",
    "direct_sales" := "産直",
    "ja" := "農協",
    "restaurant" := "レストラン",
    "individual" := "個人販売"]

  const CropNames: map<string, string> := map[
    "grape" := "葡萄",
    "potato" := "じゃがいも",
    "tomato" := "トマト",
    "cucumber" := "きゅうり",
    "cabbage" := "キャベツ",
    "lettuce" := "レタス",
    "strawberry" := "いちご",
    "apple" := "りんご"]

  const CropColors: map<string, string> := map[
    "grape" := "#2E7D32",
    "potato" := "#8D6E63",
    "tomato" := "#D32F2F",
    "cucumber" := "#388E3C",
    "cabbage" := "#1976D2",
    "lettuce" := "#4CAF50",
    "strawberry" := "#E91E63",
    "apple" := "#FF9800"]

  /** The colour of a crop missing from the table. */
  const FallbackColor := "#8D6E63"

  /** `table[id] || id`: the display name, or the id itself when it has none. */
  function NameOr(table: map<string, string>, id: string): (s: string)
    ensures id in table && table[id] != "" ==> s == table[id]
    ensures id !in table || table[id] == "" ==> s == id
  {
    if id in table && table[id] != "" then table[id] else id
  }

  function ChannelName(id: string): string { NameOr(ChannelNames, id) }

  function CropName(id: string): string { NameOr(CropNames, id) }

  /** `CROP_COLORS[crop] || '#8D6E63'`. */
  function CropColor(crop: string): (c: string)
    ensures crop in CropColors ==> c == CropColors[crop]
    ensures crop !in CropColors ==> c == FallbackColor
  {
    if crop in CropColors && CropColors[crop] != "" then CropColors[crop] else FallbackColor
  }

  // accessors used as grouping keys and weights
  function Buyer(): SalesRecord -> string { (r: SalesRecord) => r.buyer }
  function Crop(): SalesRecord -> string { (r: SalesRecord) => r.crop }
  function Revenue(): SalesRecord -> real { (r: SalesRecord) => r.total }
  function Volume(): SalesRecord -> real { (r: SalesRecord) => r.quantity }
}
