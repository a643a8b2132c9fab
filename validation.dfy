/**
 * The input rules of the data-management forms and two record helpers. Form
 * fields arrive as text; `Number(text)` is supplied by the caller as
 * `toNumber`, and whether `new Date(text)` is a valid date as `isDate`.
 * String lengths count characters.
 */
module Validation {
  import opened Common
  import opened JsNumbers
  import DT = DataTypes

  // ---- salesRecordSchema -------------------------------------------------

  datatype SalesRecordForm = SalesRecordForm(
    date: string,
    crop: string,
    quantity: string,
    unit: string,
    unitPrice: string,
    channel: string,
    notes: Option<string>)

  /** `!isNaN(num) && num > lo && num <= hi` for `num = Number(val)`. */
  predicate InLeftOpen(num: JsNumber, lo: real, hi: real)
  {
    !IsNaN(num) && Less(Finite(lo), num) && LessEq(num, Finite(hi))
  }

  /** `!isNaN(num) && num >= lo && num <= hi`. */
  predicate InClosed(num: JsNumber, lo: real, hi: real)
  {
    !IsNaN(num) && LessEq(Finite(lo), num) && LessEq(num, Finite(hi))
  }

  /** The quantity field: required, and a number in (0, 100000]. */
  predicate QuantityAccepted(text: string, toNumber: string -> JsNumber)
  {
    |text| >= 1 && InLeftOpen(toNumber(text), 0.0, 100000.0)
  }

  /** The unit price field: required, and a number in (0, 1000000]. */
  predicate UnitPriceAccepted(text: string, toNumber: string -> JsNumber)
  {
    |text| >= 1 && InLeftOpen(toNumber(text), 0.0, 1000000.0)
  }

  predicate SalesRecordAccepted(f: SalesRecordForm, toNumber: string -> JsNumber, isDate: string -> bool)
  {
    && |f.date| >= 1 && isDate(f.date)
    && |f.crop| >= 1
    && QuantityAccepted(f.quantity, toNumber)
    && |f.unit| >= 1
    && UnitPriceAccepted(f.unitPrice, toNumber)
    && |f.channel| >= 1
  }

  /** A quantity is accepted exactly when its text is given and reads as a finite number in (0, 100000]. */
  lemma QuantityRange(text: string, toNumber: string -> JsNumber)
    ensures QuantityAccepted(text, toNumber)
        <==> |text| >= 1 && toNumber(text).Finite? && 0.0 < toNumber(text).value <= 100000.0
  {
  }

  /** A unit price is accepted exactly when its text is given and reads as a finite number in (0, 1000000]. */
  lemma UnitPriceRange(text: string, toNumber: string -> JsNumber)
    ensures UnitPriceAccepted(text, toNumber)
        <==> |text| >= 1 && toNumber(text).Finite? && 0.0 < toNumber(text).value <= 1000000.0
  {
  }

  /**
   * Fractions below one pass, although the messages ask for at least 1:
   * a quantity or price reading as 0.5 is accepted.
   */
  lemma HalfAccepted(text: string, toNumber: string -> JsNumber)
    requires |text| >= 1 && toNumber(text) == Finite(0.5)
    ensures QuantityAccepted(text, toNumber) && UnitPriceAccepted(text, toNumber)
  {
  }

  // ---- cropInfoSchema ----------------------------------------------------

  datatype CropInfoForm = CropInfoForm(
    name: string,
    category: string,
    defaultUnit: string,
    standardPrice: string,
    description: Option<string>)

  /** An optional numeric field: empty, or a number in `[lo, hi]`. */
  predicate OptionalInClosed(text: string, toNumber: string -> JsNumber, lo: real, hi: real)
  {
    text == "" || InClosed(toNumber(text), lo, hi)
  }

  predicate StandardPriceAccepted(text: string, toNumber: string -> JsNumber)
  {
    OptionalInClosed(text, toNumber, 0.0, 1000000.0)
  }

  /** A text no longer than `max`, or no text at all. */
  predicate OptionalAtMost(s: Option<string>, max: nat)
  {
    s.None? || |s.value| <= max
  }

  predicate CropInfoAccepted(f: CropInfoForm, toNumber: string -> JsNumber)
  {
    && 1 <= |f.name| <= 50
    && |f.category| >= 1
    && |f.defaultUnit| >= 1
    && StandardPriceAccepted(f.standardPrice, toNumber)
    && OptionalAtMost(f.description, 200)
  }

  /** The standard price may be left empty; otherwise it reads as a number in [0, 1000000]. */
  lemma StandardPriceRange(text: string, toNumber: string -> JsNumber)
    ensures StandardPriceAccepted(text, toNumber)
        <==> text == "" || (toNumber(text).Finite? && 0.0 <= toNumber(text).value <= 1000000.0)
  {
  }

  // ---- salesChannelSchema ------------------------------------------------

  datatype SalesChannelForm = SalesChannelForm(
    name: string,
    displayName: string,
    commissionRate: Option<string>,
    contactInfo: Option<string>,
    notes: Option<string>)

  /** A member of the class `[a-zA-Z0-9_]`. */
  predicate WordChar(c: char)
  {
    ('a' <= c <= 'z') || ('A' <= c <= 'Z') || ('0' <= c <= '9') || c == '_'
  }

  /** The pattern `^[a-zA-Z0-9_]+$`, matched one character at a time. */
  predicate MatchesWordPattern(s: string)
    decreases |s|
  {
    if |s| == 0 then false
    else if |s| == 1 then WordChar(s[0])
    else WordChar(s[0]) && MatchesWordPattern(s[1..])
  }

  /** The pattern matches exactly the non-empty texts made only of word characters. */
  lemma {:induction false} WordPatternIff(s: string)
    ensures MatchesWordPattern(s) <==> |s| >= 1 && forall i :: 0 <= i < |s| ==> WordChar(s[i])
    decreases |s|
  {
    if |s| > 1 {
      WordPatternIff(s[1..]);
      assert forall i :: 1 <= i < |s| ==> s[i] == s[1..][i - 1];
    }
  }

  predicate ChannelNameAccepted(name: string)
  {
    1 <= |name| <= 50 && MatchesWordPattern(name)
  }

  /**
   * The form type leaves the rate optional, but the schema field is a plain
   * `z.string()`: an absent rate fails the string check before the refine
   * runs, and only the empty string counts as "not given".
   */
  predicate CommissionRateAccepted(text: Option<string>, toNumber: string -> JsNumber)
  {
    text.Some? && OptionalInClosed(text.value, toNumber, 0.0, 100.0)
  }

  predicate SalesChannelAccepted(f: SalesChannelForm, toNumber: string -> JsNumber)
  {
    && ChannelNameAccepted(f.name)
    && 1 <= |f.displayName| <= 50
    && CommissionRateAccepted(f.commissionRate, toNumber)
    && OptionalAtMost(f.contactInfo, 100)
    && OptionalAtMost(f.notes, 200)
  }

  /** A channel name is accepted exactly when it has 1 to 50 characters, all from `[a-zA-Z0-9_]`. */
  lemma ChannelNameIff(name: string)
    ensures ChannelNameAccepted(name) <==> 1 <= |name| <= 50 && forall i :: 0 <= i < |name| ==> WordChar(name[i])
  {
    WordPatternIff(name);
  }

  /** The commission rate must be present; it may be empty, and otherwise it reads as a number in [0, 100]. */
  lemma CommissionRateRange(text: Option<string>, toNumber: string -> JsNumber)
    ensures CommissionRateAccepted(text, toNumber)
        <==> text.Some? && (text.value == ""
             || (toNumber(text.value).Finite? && 0.0 <= toNumber(text.value).value <= 100.0))
    ensures text.None? ==> !CommissionRateAccepted(text, toNumber)
  {
  }

  // ---- validateRecordConsistency -----------------------------------------

  const TotalMismatch := "合計金額が数量×単価と一致しません"
  const NegativeQuantity := "数量は正の値で入力してください"
  const NegativeUnitPrice := "単価は正の値で入力してください"

  /** `Math.abs(total - quantity * unitPrice) > 0.01`. */
  predicate TotalOff(quantity: JsNumber, unitPrice: JsNumber, total: JsNumber)
  {
    Less(Finite(0.01), Abs(Sub(total, Mul(quantity, unitPrice))))
  }

  /**
   * `validateRecordConsistency(record)`: one message per failed check, in the
   * order total, quantity, unit price.
   */
  method ValidateRecordConsistency(quantity: JsNumber, unitPrice: JsNumber, total: JsNumber, date: string)
    returns (errors: seq<string>)
    ensures TotalMismatch in errors <==> TotalOff(quantity, unitPrice, total)
    ensures NegativeQuantity in errors <==> Less(quantity, Finite(0.0))
    ensures NegativeUnitPrice in errors <==> Less(unitPrice, Finite(0.0))
    ensures errors == [] <==> !TotalOff(quantity, unitPrice, total) && !Less(quantity, Finite(0.0)) && !Less(unitPrice, Finite(0.0))
    ensures forall i, j :: 0 <= i < j < |errors| ==> Rank(errors[i]) < Rank(errors[j])
  {
    errors := [];
    var calculatedTotal := Mul(quantity, unitPrice);
    if Less(Finite(0.01), Abs(Sub(total, calculatedTotal))) {
      errors := errors + [TotalMismatch];
    }
    if Less(quantity, Finite(0.0)) {
      errors := errors + [NegativeQuantity];
    }
    if Less(unitPrice, Finite(0.0)) {
      errors := errors + [NegativeUnitPrice];
    }
  }

  /** The position of a message in the order the rules are applied. */
  function Rank(message: string): nat
  {
    if message == TotalMismatch then 0 else if message == NegativeQuantity then 1 else 2
  }

  /** On finite numbers: the total is flagged exactly when it is more than 0.01 away from quantity times price. */
  lemma TotalOffFinite(q: real, p: real, t: real)
    ensures TotalOff(Finite(q), Finite(p), Finite(t)) <==> t - q * p > 0.01 || q * p - t > 0.01
  {
  }

  /** A record whose numbers are `NaN` passes every check. */
  lemma NaNPassesConsistency(unitPrice: JsNumber, total: JsNumber)
    ensures !TotalOff(NaN, unitPrice, total) && !Less(NaN, Finite(0.0))
  {
  }

  // ---- convertDailyRecordToSalesRecord -----------------------------------

  /** What the daily-record dialog hands over for a sale. */
  datatype DailyRecord = DailyRecord(
    date: string,
    crop: string,
    quantity: string,
    unitPrice: string,
    buyer: string,
    notes: Option<string>,
    total: JsNumber)

  /** The converted record: its numbers are whatever `Number` made of the texts. */
  datatype ConvertedRecord = ConvertedRecord(
    id: int,
    date: string,
    crop: string,
    quantity: JsNumber,
    unit: string,
    unitPrice: JsNumber,
    total: JsNumber,
    channel: string,
    notes: Option<string>,
    createdAt: string,
    updatedAt: string)

  /**
   * `convertDailyRecordToSalesRecord(dailyRecord)`, with `Date.now()` as
   * `nowMillis` and the ISO time as `nowIso`.
   */
  function ConvertDailyRecord(d: DailyRecord, toNumber: string -> JsNumber, nowMillis: int, nowIso: string)
    : (r: ConvertedRecord)
    ensures r.unit == "kg" && r.channel == d.buyer && r.id == nowMillis
    ensures r.date == d.date && r.crop == d.crop && r.notes == d.notes
    ensures r.createdAt == nowIso && r.updatedAt == nowIso
    ensures Truthy(d.total) ==> r.total == d.total
    ensures !Truthy(d.total) ==> r.total == Mul(r.quantity, r.unitPrice)
  {
    var quantity := toNumber(d.quantity);
    var unitPrice := toNumber(d.unitPrice);
    ConvertedRecord(
      nowMillis, d.date, d.crop, quantity, "kg", unitPrice,
      if Truthy(d.total) then d.total else Mul(quantity, unitPrice),
      d.buyer, d.notes, nowIso, nowIso)
  }

  /**
   * A daily record without a usable total converts to a record that the
   * consistency check accepts as far as the total is concerned, whenever its
   * quantity and price read as numbers.
   */
  lemma ConvertedTotalConsistent(d: DailyRecord, toNumber: string -> JsNumber, nowMillis: int, nowIso: string)
    requires !Truthy(d.total)
    requires toNumber(d.quantity).Finite? && toNumber(d.unitPrice).Finite?
    ensures var r := ConvertDailyRecord(d, toNumber, nowMillis, nowIso);
      r.total == Finite(r.quantity.value * r.unitPrice.value) && !TotalOff(r.quantity, r.unitPrice, r.total)
  {
  }

  /** A converted record fits the store's record shape once its numbers are finite. */
  function ToStoreRecord(r: ConvertedRecord): (s: DT.SalesRecord)
    requires r.quantity.Finite? && r.unitPrice.Finite? && r.total.Finite?
    ensures s.id == r.id && s.channel == r.channel && s.unit == r.unit && s.total == r.total.value
  {
    DT.SalesRecord(r.id, r.date, r.crop, r.quantity.value, r.unit, r.unitPrice.value, r.total.value,
      r.channel, r.notes, r.createdAt, r.updatedAt)
  }
}
