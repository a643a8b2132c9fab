/**
 * The records kept by the data-management screens: sales records (with a unit,
 * a channel id and creation and update stamps), crop information and sales
 * channels, together with the partial updates the store merges into them.
 */
module DataTypes {
  import opened Common

  datatype SalesRecord = SalesRecord(
    id: int,
    date: string,
    crop: string,
    quantity: real,
    unit: string,
    unitPrice: real,
    total: real,
    channel: string,
    notes: Option<string>,
    createdAt: string,
    updatedAt: string)

  datatype CropInfo = CropInfo(
    id: string,
    name: string,
    category: string,
    defaultUnit: string,
    standardPrice: real,
    description: Option<string>,
    isActive: bool,
    createdAt: string,
    updatedAt: string)

  datatype SalesChannel = SalesChannel(
    id: string,
    name: string,
    displayName: string,
    commissionRate: Option<real>,
    contactInfo: Option<string>,
    notes: Option<string>,
    isActive: bool,
    createdAt: string,
    updatedAt: string)

  /**
   * `Partial<SalesRecord>`: each field is either left out (`None`) or given.
   * An optional field that is given may itself be `undefined`.
   */
  datatype SalesRecordPatch = SalesRecordPatch(
    id: Option<int>,
    date: Option<string>,
    crop: Option<string>,
    quantity: Option<real>,
    unit: Option<string>,
    unitPrice: Option<real>,
    total: Option<real>,
    channel: Option<string>,
    notes: Option<Option<string>>,
    createdAt: Option<string>,
    updatedAt: Option<string>)

  datatype CropInfoPatch = CropInfoPatch(
    id: Option<string>,
    name: Option<string>,
    category: Option<string>,
    defaultUnit: Option<string>,
    standardPrice: Option<real>,
    description: Option<Option<string>>,
    isActive: Option<bool>,
    createdAt: Option<string>,
    updatedAt: Option<string>)

  datatype SalesChannelPatch = SalesChannelPatch(
    id: Option<string>,
    name: Option<string>,
    displayName: Option<string>,
    commissionRate: Option<Option<real>>,
    contactInfo: Option<Option<string>>,
    notes: Option<Option<string>>,
    isActive: Option<bool>,
    createdAt: Option<string>,
    updatedAt: Option<string>)

  /** The patch that gives no field. */
  const NoSalesChange := SalesRecordPatch(None, None, None, None, None, None, None, None, None, None, None)
  const NoCropChange := CropInfoPatch(None, None, None, None, None, None, None, None, None)
  const NoChannelChange := SalesChannelPatch(None, None, None, None, None, None, None, None, None)

  /** `{ ...record, ...updates, updatedAt: now }` for a sales record. */
  function MergeSale(r: SalesRecord, u: SalesRecordPatch, now: string): (m: SalesRecord)
    ensures m.updatedAt == now
    ensures m.id == u.id.GetOr(r.id) && m.date == u.date.GetOr(r.date) && m.crop == u.crop.GetOr(r.crop)
    ensures m.quantity == u.quantity.GetOr(r.quantity) && m.unit == u.unit.GetOr(r.unit)
    ensures m.unitPrice == u.unitPrice.GetOr(r.unitPrice) && m.total == u.total.GetOr(r.total)
    ensures m.channel == u.channel.GetOr(r.channel) && m.notes == u.notes.GetOr(r.notes)
    ensures m.createdAt == u.createdAt.GetOr(r.createdAt)
  {
    SalesRecord(
      u.id.GetOr(r.id), u.date.GetOr(r.date), u.crop.GetOr(r.crop), u.quantity.GetOr(r.quantity),
      u.unit.GetOr(r.unit), u.unitPrice.GetOr(r.unitPrice), u.total.GetOr(r.total),
      u.channel.GetOr(r.channel), u.notes.GetOr(r.notes), u.createdAt.GetOr(r.createdAt), now)
  }

  /** `{ ...crop, ...updates, updatedAt: now }`. */
  function MergeCrop(c: CropInfo, u: CropInfoPatch, now: string): (m: CropInfo)
    ensures m.updatedAt == now
    ensures m.id == u.id.GetOr(c.id) && m.name == u.name.GetOr(c.name) && m.category == u.category.GetOr(c.category)
    ensures m.defaultUnit == u.defaultUnit.GetOr(c.defaultUnit) && m.standardPrice == u.standardPrice.GetOr(c.standardPrice)
    ensures m.description == u.description.GetOr(c.description) && m.isActive == u.isActive.GetOr(c.isActive)
    ensures m.createdAt == u.createdAt.GetOr(c.createdAt)
  {
    CropInfo(
      u.id.GetOr(c.id), u.name.GetOr(c.name), u.category.GetOr(c.category), u.defaultUnit.GetOr(c.defaultUnit),
      u.standardPrice.GetOr(c.standardPrice), u.description.GetOr(c.description), u.isActive.GetOr(c.isActive),
      u.createdAt.GetOr(c.createdAt), now)
  }

  /** `{ ...channel, ...updates, updatedAt: now }`. */
  function MergeChannel(c: SalesChannel, u: SalesChannelPatch, now: string): (m: SalesChannel)
    ensures m.updatedAt == now
    ensures m.id == u.id.GetOr(c.id) && m.name == u.name.GetOr(c.name) && m.displayName == u.displayName.GetOr(c.displayName)
    ensures m.commissionRate == u.commissionRate.GetOr(c.commissionRate) && m.contactInfo == u.contactInfo.GetOr(c.contactInfo)
    ensures m.notes == u.notes.GetOr(c.notes) && m.isActive == u.isActive.GetOr(c.isActive)
    ensures m.createdAt == u.createdAt.GetOr(c.createdAt)
  {
    SalesChannel(
      u.id.GetOr(c.id), u.name.GetOr(c.name), u.displayName.GetOr(c.displayName), u.commissionRate.GetOr(c.commissionRate),
      u.contactInfo.GetOr(c.contactInfo), u.notes.GetOr(c.notes), u.isActive.GetOr(c.isActive),
      u.createdAt.GetOr(c.createdAt), now)
  }

  /** Merging the same patch again at the same time changes nothing further. */
  lemma MergeIdempotent(r: SalesRecord, c: CropInfo, h: SalesChannel,
                        ur: SalesRecordPatch, uc: CropInfoPatch, uh: SalesChannelPatch, now: string)
    ensures MergeSale(MergeSale(r, ur, now), ur, now) == MergeSale(r, ur, now)
    ensures MergeCrop(MergeCrop(c, uc, now), uc, now) == MergeCrop(c, uc, now)
    ensures MergeChannel(MergeChannel(h, uh, now), uh, now) == MergeChannel(h, uh, now)
  {
  }

  /** An empty patch changes only the update stamp, even when the patch tried to set it. */
  lemma EmptyPatchOnlyStamps(r: SalesRecord, c: CropInfo, h: SalesChannel, now: string)
    ensures MergeSale(r, NoSalesChange, now) == r.(updatedAt := now)
    ensures MergeCrop(c, NoCropChange, now) == c.(updatedAt := now)
    ensures MergeChannel(h, NoChannelChange, now) == h.(updatedAt := now)
  {
  }

  /** A supplied `updatedAt` is overwritten by the current time. */
  lemma StampWins(r: SalesRecord, u: SalesRecordPatch, now: string)
    requires u.updatedAt.Some? && u.updatedAt.value != now
    ensures MergeSale(r, u, now).updatedAt != u.updatedAt.value
  {
  }
}
