/**
 * The data-management store: three lists (sales records, crop information and
 * sales channels) with replace, add, update-by-id and delete-by-id actions, a
 * loading flag and a `lastUpdated` stamp. The clock is an input (`now`), read
 * once per action. Every sales-record mutation also publishes the new list to
 * the sales-analysis screen; `published` records those snapshots in order.
 */
module DataStore {
  import opened Common
  import opened Seqs
  import opened DataTypes

  /** The test `key(t) == k`. */
  function HasKey<T, K(==)>(key: T -> K, k: K): T -> bool
  {
    t => key(t) == k
  }

  /** The test `key(t) !== k`. */
  function LacksKey<T, K(==)>(key: T -> K, k: K): T -> bool
  {
    t => key(t) != k
  }

  /** `s.filter(t => key(t) !== k)`: the delete-by-id of every list. */
  function Without<T, K(==)>(s: seq<T>, key: T -> K, k: K): seq<T>
  {
    Filter(s, LacksKey(key, k))
  }

  /** `s.map(t => key(t) === k ? merge(t) : t)`: the update-by-id of every list. */
  function Revised<T, K(==)>(s: seq<T>, key: T -> K, k: K, merge: T -> T): seq<T>
  {
    MapWhere(s, HasKey(key, k), merge)
  }

  function SaleId(): SalesRecord -> int { (r: SalesRecord) => r.id }
  function CropId(): CropInfo -> string { (c: CropInfo) => c.id }
  function ChannelId(): SalesChannel -> string { (c: SalesChannel) => c.id }

  function SaleMerger(u: SalesRecordPatch, now: string): SalesRecord -> SalesRecord
  {
    (r: SalesRecord) => MergeSale(r, u, now)
  }

  function CropMerger(u: CropInfoPatch, now: string): CropInfo -> CropInfo
  {
    (c: CropInfo) => MergeCrop(c, u, now)
  }

  function ChannelMerger(u: SalesChannelPatch, now: string): SalesChannel -> SalesChannel
  {
    (c: SalesChannel) => MergeChannel(c, u, now)
  }

  /**
   * Deleting by id keeps, in their original order, exactly the entries with
   * another id; none with that id remains.
   */
  lemma WithoutSpec<T, K>(s: seq<T>, key: T -> K, k: K, x: T)
    ensures Subsequence(Without(s, key, k), s)
    ensures x in Without(s, key, k) <==> x in s && key(x) != k
    ensures forall i :: 0 <= i < |Without(s, key, k)| ==> key(Without(s, key, k)[i]) != k
  {
    FilterSubsequence(s, LacksKey(key, k));
    FilterIn(s, LacksKey(key, k), x);
    FilterMembers(s, LacksKey(key, k));
  }

  /** Deleting an id nobody has changes nothing. */
  lemma WithoutAbsent<T, K>(s: seq<T>, key: T -> K, k: K)
    requires forall i :: 0 <= i < |s| ==> key(s[i]) != k
    ensures Without(s, key, k) == s
  {
    FilterAllPass(s, LacksKey(key, k));
  }

  /** Adding an entry with a fresh id and then deleting that id restores the list. */
  lemma DeleteUndoesAdd<T, K>(s: seq<T>, key: T -> K, x: T)
    requires forall i :: 0 <= i < |s| ==> key(s[i]) != key(x)
    ensures Without(s + [x], key, key(x)) == s
  {
    FilterAppend(s, [x], LacksKey(key, key(x)));
    FilterAllPass(s, LacksKey(key, key(x)));
    assert Filter([x], LacksKey(key, key(x))) == [];
  }

  /**
   * Updating by id keeps the length and the position of every entry, leaves
   * entries with another id as they were and replaces the matching ones by
   * their merge.
   */
  lemma RevisedSpec<T, K>(s: seq<T>, key: T -> K, k: K, merge: T -> T, i: int)
    requires 0 <= i < |s|
    ensures |Revised(s, key, k, merge)| == |s|
    ensures key(s[i]) != k ==> Revised(s, key, k, merge)[i] == s[i]
    ensures key(s[i]) == k ==> Revised(s, key, k, merge)[i] == merge(s[i])
  {
  }

  /** Updating an id nobody has changes nothing. */
  lemma RevisedAbsent<T, K>(s: seq<T>, key: T -> K, k: K, merge: T -> T)
    requires forall i :: 0 <= i < |s| ==> key(s[i]) != k
    ensures Revised(s, key, k, merge) == s
  {
    var r := Revised(s, key, k, merge);
    assert forall i :: 0 <= i < |s| ==> r[i] == s[i];
  }

  /**
   * Applying the same update twice is applying it once, as long as a second
   * merge changes nothing: an entry whose id the first update changed is no
   * longer matched, and one whose id it kept is merged again to the same value.
   */
  lemma RevisedIdempotent<T, K>(s: seq<T>, key: T -> K, k: K, merge: T -> T)
    requires forall t :: merge(merge(t)) == merge(t)
    ensures Revised(Revised(s, key, k, merge), key, k, merge) == Revised(s, key, k, merge)
  {
    var once := Revised(s, key, k, merge);
    var twice := Revised(once, key, k, merge);
    forall i | 0 <= i < |s| ensures twice[i] == once[i] {
      if key(s[i]) == k && key(once[i]) == k {
        assert twice[i] == merge(merge(s[i]));
      }
    }
  }

  /** Updating a sales record twice with the same fields at the same time is updating it once. */
  lemma UpdateSalesIdempotent(s: seq<SalesRecord>, id: int, u: SalesRecordPatch, now: string)
    ensures Revised(Revised(s, SaleId(), id, SaleMerger(u, now)), SaleId(), id, SaleMerger(u, now))
         == Revised(s, SaleId(), id, SaleMerger(u, now))
  {
    forall t ensures SaleMerger(u, now)(SaleMerger(u, now)(t)) == SaleMerger(u, now)(t) {
      MergeIdempotent(t, CropInfo("", "", "", "", 0.0, None, false, "", ""),
        SalesChannel("", "", "", None, None, None, false, "", ""), u, NoCropChange, NoChannelChange, now);
    }
    RevisedIdempotent(s, SaleId(), id, SaleMerger(u, now));
  }

  class DataManagementStore {
    var salesRecords: seq<SalesRecord>
    var cropInfo: seq<CropInfo>
    var salesChannels: seq<SalesChannel>
    var isLoading: bool
    var lastUpdated: Option<string>
    /** The sales-record lists handed to the sales-analysis screen, oldest first. */
    var published: seq<seq<SalesRecord>>

    /** The initial state: empty lists, not loading, never updated. */
    constructor()
      ensures salesRecords == [] && cropInfo == [] && salesChannels == []
      ensures !isLoading && lastUpdated == None && published == []
    {
      salesRecords, cropInfo, salesChannels := [], [], [];
      isLoading, lastUpdated, published := false, None, [];
    }

    /** `triggerSalesAnalysisUpdate()`: hands the current sales records over. */
    method TriggerSalesAnalysisUpdate()
      modifies this
      ensures published == old(published) + [salesRecords]
      ensures salesRecords == old(salesRecords) && cropInfo == old(cropInfo) && salesChannels == old(salesChannels)
      ensures isLoading == old(isLoading) && lastUpdated == old(lastUpdated)
    {
      published := published + [salesRecords];
    }

    method SetSalesRecords(records: seq<SalesRecord>)
      modifies this
      ensures salesRecords == records
      ensures cropInfo == old(cropInfo) && salesChannels == old(salesChannels)
      ensures isLoading == old(isLoading) && lastUpdated == old(lastUpdated) && published == old(published)
    {
      salesRecords := records;
    }

    method AddSalesRecord(record: SalesRecord, now: string)
      modifies this
      ensures salesRecords == old(salesRecords) + [record]
      ensures lastUpdated == Some(now) && published == old(published) + [salesRecords]
      ensures cropInfo == old(cropInfo) && salesChannels == old(salesChannels) && isLoading == old(isLoading)
    {
      salesRecords := salesRecords + [record];
      lastUpdated := Some(now);
      TriggerSalesAnalysisUpdate();
    }

    method UpdateSalesRecord(id: int, updates: SalesRecordPatch, now: string)
      modifies this
      ensures salesRecords == Revised(old(salesRecords), SaleId(), id, SaleMerger(updates, now))
      ensures lastUpdated == Some(now) && published == old(published) + [salesRecords]
      ensures cropInfo == old(cropInfo) && salesChannels == old(salesChannels) && isLoading == old(isLoading)
    {
      salesRecords := Revised(salesRecords, SaleId(), id, SaleMerger(updates, now));
      lastUpdated := Some(now);
      TriggerSalesAnalysisUpdate();
    }

    method DeleteSalesRecord(id: int, now: string)
      modifies this
      ensures salesRecords == Without(old(salesRecords), SaleId(), id)
      ensures lastUpdated == Some(now) && published == old(published) + [salesRecords]
      ensures cropInfo == old(cropInfo) && salesChannels == old(salesChannels) && isLoading == old(isLoading)
    {
      salesRecords := Without(salesRecords, SaleId(), id);
      lastUpdated := Some(now);
      TriggerSalesAnalysisUpdate();
    }

    method SetCropInfo(crops: seq<CropInfo>)
      modifies this
      ensures cropInfo == crops
      ensures salesRecords == old(salesRecords) && salesChannels == old(salesChannels)
      ensures isLoading == old(isLoading) && lastUpdated == old(lastUpdated) && published == old(published)
    {
      cropInfo := crops;
    }

    method AddCropInfo(crop: CropInfo, now: string)
      modifies this
      ensures cropInfo == old(cropInfo) + [crop] && lastUpdated == Some(now)
      ensures salesRecords == old(salesRecords) && salesChannels == old(salesChannels)
      ensures isLoading == old(isLoading) && published == old(published)
    {
      cropInfo := cropInfo + [crop];
      lastUpdated := Some(now);
    }

    method UpdateCropInfo(id: string, updates: CropInfoPatch, now: string)
      modifies this
      ensures cropInfo == Revised(old(cropInfo), CropId(), id, CropMerger(updates, now)) && lastUpdated == Some(now)
      ensures salesRecords == old(salesRecords) && salesChannels == old(salesChannels)
      ensures isLoading == old(isLoading) && published == old(published)
    {
      cropInfo := Revised(cropInfo, CropId(), id, CropMerger(updates, now));
      lastUpdated := Some(now);
    }

    method DeleteCropInfo(id: string, now: string)
      modifies this
      ensures cropInfo == Without(old(cropInfo), CropId(), id) && lastUpdated == Some(now)
      ensures salesRecords == old(salesRecords) && salesChannels == old(salesChannels)
      ensures isLoading == old(isLoading) && published == old(published)
    {
      cropInfo := Without(cropInfo, CropId(), id);
      lastUpdated := Some(now);
    }

    method SetSalesChannels(channels: seq<SalesChannel>)
      modifies this
      ensures salesChannels == channels
      ensures salesRecords == old(salesRecords) && cropInfo == old(cropInfo)
      ensures isLoading == old(isLoading) && lastUpdated == old(lastUpdated) && published == old(published)
    {
      salesChannels := channels;
    }

    method AddSalesChannel(channel: SalesChannel, now: string)
      modifies this
      ensures salesChannels == old(salesChannels) + [channel] && lastUpdated == Some(now)
      ensures salesRecords == old(salesRecords) && cropInfo == old(cropInfo)
      ensures isLoading == old(isLoading) && published == old(published)
    {
      salesChannels := salesChannels + [channel];
      lastUpdated := Some(now);
    }

    method UpdateSalesChannel(id: string, updates: SalesChannelPatch, now: string)
      modifies this
      ensures salesChannels == Revised(old(salesChannels), ChannelId(), id, ChannelMerger(updates, now))
      ensures lastUpdated == Some(now)
      ensures salesRecords == old(salesRecords) && cropInfo == old(cropInfo)
      ensures isLoading == old(isLoading) && published == old(published)
    {
      salesChannels := Revised(salesChannels, ChannelId(), id, ChannelMerger(updates, now));
      lastUpdated := Some(now);
    }

    method DeleteSalesChannel(id: string, now: string)
      modifies this
      ensures salesChannels == Without(old(salesChannels), ChannelId(), id) && lastUpdated == Some(now)
      ensures salesRecords == old(salesRecords) && cropInfo == old(cropInfo)
      ensures isLoading == old(isLoading) && published == old(published)
    {
      salesChannels := Without(salesChannels, ChannelId(), id);
      lastUpdated := Some(now);
    }

    method SetIsLoading(loading: bool)
      modifies this
      ensures isLoading == loading
      ensures salesRecords == old(salesRecords) && cropInfo == old(cropInfo) && salesChannels == old(salesChannels)
      ensures lastUpdated == old(lastUpdated) && published == old(published)
    {
      isLoading := loading;
    }

    method SetLastUpdated(timestamp: string)
      modifies this
      ensures lastUpdated == Some(timestamp)
      ensures salesRecords == old(salesRecords) && cropInfo == old(cropInfo) && salesChannels == old(salesChannels)
      ensures isLoading == old(isLoading) && published == old(published)
    {
      lastUpdated := Some(timestamp);
    }
  }
}
