/** Normalisation of the flat OCR fields into the nested case summary
    (owner, vehicle, deregistration), the fuel-name mapping in both
    directions, the merge of two summaries, the summary validator and the
    small text helpers of the normalisation service. */
module Normalize {
  import opened Js
  import opened Text
  import opened Shapes
  import VR = VehicleRegistration

  // ------------------------------------------------------------ the clock

  /** One reading of `new Date()`: the local calendar fields and the text
      `toISOString()` gives. */
  datatype Clock = Clock(year: int, monthIndex: int, date: int, iso: string)

  /** A reading whose local calendar fields are those of a four-digit year. */
  predicate FourDigitYear(now: Clock) {
    1000 <= now.year <= 9999 && 0 <= now.monthIndex <= 11 && 1 <= now.date <= 31
  }

  /** `formatDate`: the local date as year, zero-padded month (getMonth() + 1)
      and zero-padded day. Never empty; YYYY-MM-DD for a four-digit year. */
  function FormatDate(now: Clock): (r: string)
    ensures r != ""
    ensures FourDigitYear(now) ==> IsoDateShape(r)
  {
    var y := IntToString(now.year);
    var r := IsoDate(y, IntToString(now.monthIndex + 1), IntToString(now.date));
    assert |r| >= |y|;
    r
  }

  // ------------------------------------------------------------ numbers

  /** `Number(v)`: exact for undefined, null, booleans and numbers; the
      conversion of a string, array or object is `convert`. */
  function ToNumber(v: JsValue, convert: JsValue -> JsValue): JsValue {
    match v
    case Undefined => NaN
    case Null => IntNum(0)
    case Bool(b) => IntNum(if b then 1 else 0)
    case Num(_) => v
    case NaN => NaN
    case _ => convert(v)
  }

  /** `safeNumber`: a number >= 0 is kept as it is and anything else becomes
      undefined; nothing is clamped. An absent field reads as undefined. */
  function SafeNumber(v: Option<JsValue>, convert: JsValue -> JsValue): (r: JsValue)
    ensures r.Undefined? || (r.Num? && r.n >= 0.0)
    ensures v.None? ==> r.Undefined?
    ensures v.Some? && v.value.Num? ==> (r == v.value <==> v.value.n >= 0.0)
  {
    var n := ToNumber(if v.Some? then v.value else Undefined, convert);
    if n.Num? && n.n >= 0.0 then n else Undefined
  }

  // ------------------------------------------------------------ fuel

  /** The Korean (and upper-case) fuel names `normalizeFuel` knows. */
  const ToEnglish: map<string, string> := map[
    "휘발유" := "gasoline", "경유" := "diesel", "전기" := "electric", "LPG" := "lpg",
    "하이브리드" := "hybrid", "CNG" := "cng", "수소" := "hydrogen",
    "가솔린" := "gasoline", "디젤" := "diesel"]

  /** The fuel codes `denormalizeFuel` knows. */
  const ToKorean: map<string, string> := map[
    "gasoline" := "휘발유", "diesel" := "경유", "electric" := "전기", "lpg" := "LPG",
    "hybrid" := "하이브리드", "cng" := "CNG", "hydrogen" := "수소"]

  /** An optional string that `!x` finds set. */
  predicate Present(v: Option<string>) {
    v.Some? && v.value != ""
  }

  lemma FuelNamesNonEmpty()
    ensures forall k :: k in ToEnglish ==> ToEnglish[k] != ""
  {
  }

  /** `normalizeFuel`: '' for a missing or empty fuel, the code of a known
      name, and any other name lower-cased. The result is empty exactly when
      the input is. */
  function NormalizeFuel(fuel: Option<string>): (r: string)
    ensures r == "" <==> !Present(fuel)
    ensures Present(fuel) && fuel.value in ToEnglish ==> r == ToEnglish[fuel.value]
    ensures Present(fuel) && fuel.value !in ToEnglish ==> r == ToLower(fuel.value)
  {
    FuelNamesNonEmpty();
    if !Present(fuel) then ""
    else if fuel.value in ToEnglish then ToEnglish[fuel.value]
    else ToLower(fuel.value)
  }

  /** `denormalizeFuel`: '' for a missing or empty fuel, the Korean name of
      a code (matched without regard to case), and any other text unchanged. */
  function DenormalizeFuel(fuel: Option<string>): (r: string)
    ensures r == "" <==> !Present(fuel)
    ensures Present(fuel) && ToLower(fuel.value) in ToKorean ==> r == ToKorean[ToLower(fuel.value)]
    ensures Present(fuel) && ToLower(fuel.value) !in ToKorean ==> r == fuel.value
  {
    if !Present(fuel) then ""
    else if ToLower(fuel.value) in ToKorean then ToKorean[ToLower(fuel.value)]
    else fuel.value
  }

  /** `denormalizeFuel` finds a code only for a text of ASCII letters other
      than 'k' and 'K'. Besides ASCII, only U+212A KELVIN SIGN lower-cases
      to a single ASCII letter, 'k', so the ASCII lower case finds a code
      exactly when JavaScript's full one does. */
  lemma DenormalizeLookupAscii(x: string)
    requires ToLower(x) in ToKorean
    ensures forall i :: 0 <= i < |x| ==> IsAsciiLetter(x[i]) && x[i] != 'k' && x[i] != 'K'
  {
    var l := ToLower(x);
    assert forall i :: 0 <= i < |l| ==> 'a' <= l[i] <= 'z' && l[i] != 'k';
    forall i | 0 <= i < |x|
      ensures IsAsciiLetter(x[i]) && x[i] != 'k' && x[i] != 'K'
    {
      assert l[i] == LowerChar(x[i]);
    }
  }

  /** A text without upper-case ASCII letters is its own lower case. */
  lemma LowerFixed(s: string)
    requires forall i :: 0 <= i < |s| ==> !IsAsciiUpper(s[i])
    ensures ToLower(s) == s
  {
  }

  /** Every code's Korean name maps back to that code. */
  lemma FuelTablesAgree()
    ensures forall k :: k in ToKorean ==> ToKorean[k] in ToEnglish && ToEnglish[ToKorean[k]] == k
  {
  }

  /** Every code `normalizeFuel` can produce is one `denormalizeFuel` knows,
      and in lower case. */
  lemma FuelCodesKnown()
    ensures forall k :: k in ToEnglish ==> ToEnglish[k] in ToKorean && ToLower(ToEnglish[k]) == ToEnglish[k]
  {
    LowerFixed("gasoline");
    LowerFixed("diesel");
    LowerFixed("electric");
    LowerFixed("lpg");
    LowerFixed("hybrid");
    LowerFixed("cng");
    LowerFixed("hydrogen");
  }

  /** Denormalising a fuel code (in any case) and normalising the result
      gives the lower-case code back: gasoline, diesel, electric, lpg,
      hybrid, cng and hydrogen survive the round trip. */
  lemma FuelRoundTrip(code: string)
    requires ToLower(code) in ToKorean
    ensures NormalizeFuel(Some(DenormalizeFuel(Some(code)))) == ToLower(code)
  {
    FuelTablesAgree();
  }

  /** Normalising any known name and denormalising the code gives the
      canonical Korean name of that fuel (가솔린 comes back as 휘발유). */
  lemma FuelCanonical(name: string)
    requires name in ToEnglish
    ensures DenormalizeFuel(Some(NormalizeFuel(Some(name)))) == ToKorean[ToEnglish[name]]
  {
    FuelCodesKnown();
  }

  // ------------------------------------------------------------ the summary

  /** A case summary. The owner, vehicle and deregistration sections are
      plain objects, so that object spread is map union; a section missing
      from a partial summary is the empty object, which spreads the same. */
  datatype CaseSummary = CaseSummary(
    owner: Object,
    vehicle: Object,
    dereg: Object,
    transaction: JsValue,
    additionalNotes: JsValue,
    createdAt: JsValue,
    updatedAt: JsValue)

  /** `x || ''` on an optional string field. */
  function TextOr(v: Option<string>): JsValue {
    Str(if Present(v) then v.value else "")
  }

  lemma TextOrTruthy(v: Option<string>)
    ensures Truthy(TextOr(v)) <==> Present(v)
  {
  }

  /** `a || b || ''` */
  function FirstPresent(a: Option<string>, b: Option<string>): JsValue {
    if Present(a) then Str(a.value) else TextOr(b)
  }

  /** What the validator reads has the declared TypeScript types: the
      checked texts are strings (or absent) and the checked numbers are
      numbers (or absent). */
  predicate Typed(s: CaseSummary) {
    StringOrAbsent(Get(s.vehicle, "plate")) && StringOrAbsent(Get(s.vehicle, "vin"))
    && StringOrAbsent(Get(s.vehicle, "firstRegisteredAt")) && StringOrAbsent(Get(s.dereg, "applicantBirth"))
    && NumberOrAbsent(Get(s.vehicle, "mileageKm")) && NumberOrAbsent(Get(s.vehicle, "weightKg"))
    && NumberOrAbsent(Get(s.vehicle, "displacementCc"))
  }

  function OwnerOf(f: VR.StructuredFields): Object {
    map["name" := TextOr(f.owner_name), "address" := TextOr(f.registered_address),
        "birthDate" := TextOr(f.birth_date), "type" := Str("INDIVIDUAL")]
  }

  /** The vehicle section, from the values of its entries. */
  function VehicleOf(model: JsValue, fuel: JsValue, manufactured: JsValue, engine: JsValue, color: JsValue,
                     mileage: JsValue, weight: JsValue, displacement: JsValue, firstRegistered: JsValue,
                     vin: JsValue, plate: JsValue): Object {
    map["model" := model, "fuel" := fuel, "manufacturingDate" := manufactured,
        "engineNumber" := engine, "color" := color,
        "mileageKm" := mileage, "weightKg" := weight, "displacementCc" := displacement,
        "firstRegisteredAt" := firstRegistered, "vin" := vin, "plate" := plate]
  }

  /** The entries of the vehicle section the validator reads. */
  lemma VehicleReads(model: JsValue, fuel: JsValue, manufactured: JsValue, engine: JsValue, color: JsValue,
                     mileage: JsValue, weight: JsValue, displacement: JsValue, firstRegistered: JsValue,
                     vin: JsValue, plate: JsValue)
    ensures var v := VehicleOf(model, fuel, manufactured, engine, color, mileage, weight, displacement,
                               firstRegistered, vin, plate);
      Get(v, "plate") == plate && Get(v, "vin") == vin && Get(v, "firstRegisteredAt") == firstRegistered
      && Get(v, "mileageKm") == mileage && Get(v, "weightKg") == weight && Get(v, "displacementCc") == displacement
  {
  }

  /** The vehicle section `toCaseSummary` builds. */
  function VehicleFrom(f: VR.StructuredFields, convert: JsValue -> JsValue): Object {
    VehicleOf(TextOr(f.vehicle_model), Str(NormalizeFuel(f.fuel_type)), TextOr(f.manufacturing_date),
              TextOr(f.engine_number), TextOr(f.vehicle_color),
              SafeNumber(f.mileage_km, convert), SafeNumber(f.gross_weight, convert),
              SafeNumber(f.engine_displacement, convert),
              FirstPresent(f.initial_registration_date, f.manufacturing_date),
              TextOr(f.chassis_number), TextOr(f.license_plate))
  }

  function DeregOf(f: VR.StructuredFields, today: string): Object {
    map["reason" := Str("수출예정"), "needCertificate" := Bool(true),
        "applicantBirth" := TextOr(f.birth_date), "applicationDate" := Str(today)]
  }

  /** `toCaseSummary`: the flat fields placed into the three sections, with
      '' for every missing text, owner type INDIVIDUAL, reason 수출예정, a
      certificate needed, today's date as application date, and the clock's
      ISO time as creation and update time. */
  function ToCaseSummary(f: VR.StructuredFields, now: Clock, convert: JsValue -> JsValue): (r: CaseSummary)
    ensures Typed(r)
    ensures Truthy(Get(r.dereg, "applicationDate"))
  {
    VehicleReads(TextOr(f.vehicle_model), Str(NormalizeFuel(f.fuel_type)), TextOr(f.manufacturing_date),
                 TextOr(f.engine_number), TextOr(f.vehicle_color),
                 SafeNumber(f.mileage_km, convert), SafeNumber(f.gross_weight, convert),
                 SafeNumber(f.engine_displacement, convert),
                 FirstPresent(f.initial_registration_date, f.manufacturing_date),
                 TextOr(f.chassis_number), TextOr(f.license_plate));
    CaseSummary(OwnerOf(f), VehicleFrom(f, convert), DeregOf(f, FormatDate(now)),
                Undefined, Undefined, Str(now.iso), Str(now.iso))
  }

  // ------------------------------------------------------------ merging

  /** `{...existing, ...updated}`: every key of `updated` with its value,
      every other key of `existing` with its value, and no other key. */
  function Overlay(existing: Object, updated: Object): (r: Object)
    ensures r.Keys == existing.Keys + updated.Keys
    ensures forall k :: k in updated ==> r[k] == updated[k]
    ensures forall k :: k in existing && k !in updated ==> r[k] == existing[k]
  {
    existing + updated
  }

  /** `mergeCaseSummaries`: each section is the overlay of the updated one
      on the existing one; transaction and notes come from `updated` when
      truthy; the creation time is kept when set, and the update time is
      the clock's. */
  function MergeCaseSummaries(existing: CaseSummary, updated: CaseSummary, nowIso: string): (r: CaseSummary)
    ensures r.owner == Overlay(existing.owner, updated.owner)
    ensures r.vehicle == Overlay(existing.vehicle, updated.vehicle)
    ensures r.dereg == Overlay(existing.dereg, updated.dereg)
    ensures Truthy(updated.transaction) ==> r.transaction == updated.transaction
    ensures !Truthy(updated.transaction) ==> r.transaction == existing.transaction
    ensures Truthy(updated.additionalNotes) ==> r.additionalNotes == updated.additionalNotes
    ensures !Truthy(updated.additionalNotes) ==> r.additionalNotes == existing.additionalNotes
    ensures Truthy(existing.createdAt) ==> r.createdAt == existing.createdAt
    ensures !Truthy(existing.createdAt) ==> r.createdAt == Str(nowIso)
    ensures r.updatedAt == Str(nowIso)
  {
    CaseSummary(
      Overlay(existing.owner, updated.owner),
      Overlay(existing.vehicle, updated.vehicle),
      Overlay(existing.dereg, updated.dereg),
      Or(updated.transaction, existing.transaction),
      Or(updated.additionalNotes, existing.additionalNotes),
      Or(existing.createdAt, Str(nowIso)),
      Str(nowIso))
  }

  /** Overlaying is associative. */
  lemma OverlayAssociative(x: Object, y: Object, z: Object)
    ensures Overlay(Overlay(x, y), z) == Overlay(x, Overlay(y, z))
  {
    var l := Overlay(Overlay(x, y), z);
    var r := Overlay(x, Overlay(y, z));
    assert l.Keys == r.Keys;
    assert forall k :: k in l ==> l[k] == r[k];
  }

  /** Merging is associative: folding a series of updates in either
      grouping gives the same summary. */
  lemma MergeAssociative(a: CaseSummary, b: CaseSummary, c: CaseSummary, nowIso: string)
    ensures MergeCaseSummaries(MergeCaseSummaries(a, b, nowIso), c, nowIso)
         == MergeCaseSummaries(a, MergeCaseSummaries(b, c, nowIso), nowIso)
  {
    var left := MergeCaseSummaries(MergeCaseSummaries(a, b, nowIso), c, nowIso);
    var right := MergeCaseSummaries(a, MergeCaseSummaries(b, c, nowIso), nowIso);
    OverlayAssociative(a.owner, b.owner, c.owner);
    OverlayAssociative(a.vehicle, b.vehicle, c.vehicle);
    OverlayAssociative(a.dereg, b.dereg, c.dereg);
    assert left.transaction == right.transaction;
    assert left.additionalNotes == right.additionalNotes;
    assert left.createdAt == right.createdAt;
  }

  /** An update with empty sections and no transaction or notes changes
      nothing but the timestamps. */
  lemma MergeEmpty(s: CaseSummary, nowIso: string)
    ensures var e := CaseSummary(map[], map[], map[], Undefined, Undefined, Undefined, Undefined);
      var r := MergeCaseSummaries(s, e, nowIso);
      r.owner == s.owner && r.vehicle == s.vehicle && r.dereg == s.dereg
      && r.transaction == s.transaction && r.additionalNotes == s.additionalNotes
  {
    assert s.owner + map[] == s.owner;
    assert s.vehicle + map[] == s.vehicle;
    assert s.dereg + map[] == s.dereg;
  }

  /** Merging two well-typed summaries gives a well-typed one. */
  lemma MergeTyped(a: CaseSummary, b: CaseSummary, nowIso: string)
    requires Typed(a) && Typed(b)
    ensures Typed(MergeCaseSummaries(a, b, nowIso))
  {
  }

  // ------------------------------------------------------------ validation

  /** The checks of `validateCaseSummary`. */
  datatype Check =
    | PlateRequired | OwnerRequired | VinMissing | ApplicationDateRequired
    | PlateFormat | VinFormat | BirthDateFormat | RegistrationDateFormat
    | NegativeMileage | NegativeWeight | NegativeDisplacement

  /** The checks that push an error, in the order they push. */
  const ErrorChecks: seq<Check> := [PlateRequired, OwnerRequired, ApplicationDateRequired]

  /** The checks that push a warning, in the order they push. */
  const WarningChecks: seq<Check> :=
    [VinMissing, PlateFormat, VinFormat, BirthDateFormat, RegistrationDateFormat,
     NegativeMileage, NegativeWeight, NegativeDisplacement]

  /** Only a missing plate, owner name or application date is an error. */
  predicate IsError(c: Check) {
    c.PlateRequired? || c.OwnerRequired? || c.ApplicationDateRequired?
  }

  /** Every check is listed once, among the errors or among the warnings. */
  lemma ChecksListed(c: Check)
    ensures c in ErrorChecks <==> IsError(c)
    ensures c in WarningChecks <==> !IsError(c)
  {
  }

  lemma AllChecksListed()
    ensures forall c :: (c in ErrorChecks <==> IsError(c)) && (c in WarningChecks <==> !IsError(c))
  {
    forall c {
      ChecksListed(c);
    }
  }

  function Message(c: Check): string {
    match c
    case PlateRequired => "Vehicle plate number is required"
    case OwnerRequired => "Owner name is required"
    case VinMissing => "Vehicle VIN is missing"
    case ApplicationDateRequired => "Application date is required"
    case PlateFormat => "License plate format may be invalid"
    case VinFormat => "VIN format may be invalid (should be 17 characters)"
    case BirthDateFormat => "Birth date format should be YYYY-MM-DD"
    case RegistrationDateFormat => "Registration date format should be YYYY-MM-DD"
    case NegativeMileage => "Mileage cannot be negative"
    case NegativeWeight => "Weight cannot be negative"
    case NegativeDisplacement => "Engine displacement cannot be negative"
  }

  /** A non-empty text that does not have the expected shape. */
  predicate Misshapen(v: JsValue, shape: string -> bool) {
    v.Str? && v.s != "" && !shape(v.s)
  }

  /** `v !== undefined && v < 0` on a number. */
  predicate BelowZero(v: JsValue) {
    v.Num? && v.n < 0.0
  }

  /** `^[A-HJ-NPR-Z0-9]{17}$` matched against the upper-cased text. */
  predicate VinAfterUpper(v: string) {
    VinShape(ToUpper(v))
  }

  /** Whether check `c` pushes its message for summary `s`. */
  predicate Fails(s: CaseSummary, c: Check) {
    match c
    case PlateRequired => !Truthy(Get(s.vehicle, "plate"))
    case OwnerRequired => !Truthy(Get(s.owner, "name"))
    case VinMissing => !Truthy(Get(s.vehicle, "vin"))
    case ApplicationDateRequired => !Truthy(Get(s.dereg, "applicationDate"))
    case PlateFormat => Misshapen(Get(s.vehicle, "plate"), PlateRegex)
    case VinFormat => Misshapen(Get(s.vehicle, "vin"), VinAfterUpper)
    case BirthDateFormat => Misshapen(Get(s.dereg, "applicantBirth"), IsoDateShape)
    case RegistrationDateFormat => Misshapen(Get(s.vehicle, "firstRegisteredAt"), IsoDateShape)
    case NegativeMileage => BelowZero(Get(s.vehicle, "mileageKm"))
    case NegativeWeight => BelowZero(Get(s.vehicle, "weightKg"))
    case NegativeDisplacement => BelowZero(Get(s.vehicle, "displacementCc"))
  }

  /** The checks of `checks` that fail, in order. */
  function Failing(s: CaseSummary, checks: seq<Check>): (r: seq<Check>)
    ensures |r| <= |checks|
    ensures forall c :: c in r <==> c in checks && Fails(s, c)
  {
    if checks == [] then []
    else (if Fails(s, checks[0]) then [checks[0]] else []) + Failing(s, checks[1..])
  }

  function Messages(cs: seq<Check>): (r: seq<string>)
    ensures |r| == |cs| && forall i :: 0 <= i < |cs| ==> r[i] == Message(cs[i])
  {
    if cs == [] then [] else [Message(cs[0])] + Messages(cs[1..])
  }

  datatype CaseValidation = CaseValidation(isValid: bool, errors: seq<string>, warnings: seq<string>)

  /** Each message of the failed checks comes from a failed check of the list. */
  lemma MessagesFromFailing(s: CaseSummary, checks: seq<Check>)
    ensures forall i :: 0 <= i < |Messages(Failing(s, checks))| ==>
      exists c :: c in checks && Fails(s, c) && Messages(Failing(s, checks))[i] == Message(c)
    ensures forall c :: c in checks && Fails(s, c) ==> Message(c) in Messages(Failing(s, checks))
  {
    var f := Failing(s, checks);
    var m := Messages(f);
    forall i | 0 <= i < |m|
      ensures exists c :: c in checks && Fails(s, c) && m[i] == Message(c)
    {
      assert f[i] in f;
    }
    FailingGiveMessages(s, checks);
  }

  lemma FailingGiveMessages(s: CaseSummary, checks: seq<Check>)
    ensures forall c :: c in checks && Fails(s, c) ==> Message(c) in Messages(Failing(s, checks))
  {
    var f := Failing(s, checks);
    var m := Messages(f);
    forall c | c in checks && Fails(s, c)
      ensures Message(c) in m
    {
      var i :| 0 <= i < |f| && f[i] == c;
      assert m[i] == Message(c);
    }
  }

  /** No error check fails exactly when plate, owner name and application
      date are all set. */
  lemma NoErrorsIff(s: CaseSummary)
    ensures (forall c :: c in ErrorChecks ==> !Fails(s, c))
        <==> Truthy(Get(s.vehicle, "plate")) && Truthy(Get(s.owner, "name")) && Truthy(Get(s.dereg, "applicationDate"))
  {
    assert PlateRequired in ErrorChecks && OwnerRequired in ErrorChecks && ApplicationDateRequired in ErrorChecks;
    forall c | c in ErrorChecks && Fails(s, c)
      ensures !Truthy(Get(s.vehicle, "plate")) || !Truthy(Get(s.owner, "name")) || !Truthy(Get(s.dereg, "applicationDate"))
    {
      ChecksListed(c);
    }
  }

  /** The report of a validator that pushes, in order, the message of every
      failed check of `errorChecks` as an error and of `warningChecks` as a
      warning. */
  function Report(s: CaseSummary, errorChecks: seq<Check>, warningChecks: seq<Check>): (r: CaseValidation)
    ensures r.isValid <==> r.errors == []
    ensures r.isValid <==> forall c :: c in errorChecks ==> !Fails(s, c)
    ensures |r.errors| <= |errorChecks|
    ensures forall i :: 0 <= i < |r.errors| ==> exists c :: c in errorChecks && Fails(s, c) && r.errors[i] == Message(c)
    ensures forall i :: 0 <= i < |r.warnings| ==> exists c :: c in warningChecks && Fails(s, c) && r.warnings[i] == Message(c)
    ensures forall c :: c in errorChecks && Fails(s, c) ==> Message(c) in r.errors
    ensures forall c :: c in warningChecks && Fails(s, c) ==> Message(c) in r.warnings
  {
    MessagesFromFailing(s, errorChecks);
    MessagesFromFailing(s, warningChecks);
    var failed := Failing(s, errorChecks);
    assert failed != [] ==> failed[0] in failed;
    var errors := Messages(failed);
    CaseValidation(|errors| == 0, errors, Messages(Failing(s, warningChecks)))
  }

  /** `validateCaseSummary`: a missing plate, owner name or application date
      is an error; a missing VIN, a plate, VIN or date of the wrong shape and
      a negative number are warnings; the summary is valid exactly when there
      is no error. */
  function ValidateCaseSummary(s: CaseSummary): (r: CaseValidation)
    requires Typed(s)
    ensures r.isValid <==> r.errors == []
    ensures r.isValid <==>
      Truthy(Get(s.vehicle, "plate")) && Truthy(Get(s.owner, "name")) && Truthy(Get(s.dereg, "applicationDate"))
    ensures |r.errors| <= 3
    ensures forall i :: 0 <= i < |r.errors| ==> exists c :: c in ErrorChecks && Fails(s, c) && r.errors[i] == Message(c)
    ensures forall i :: 0 <= i < |r.warnings| ==> exists c :: c in WarningChecks && Fails(s, c) && r.warnings[i] == Message(c)
    ensures forall c :: c in ErrorChecks && Fails(s, c) ==> Message(c) in r.errors
    ensures forall c :: c in WarningChecks && Fails(s, c) ==> Message(c) in r.warnings
  {
    NoErrorsIff(s);
    Report(s, ErrorChecks, WarningChecks)
  }

  /** What the validator reads from the summary `toCaseSummary` builds. */
  lemma SummaryReads(f: VR.StructuredFields, now: Clock, convert: JsValue -> JsValue)
    ensures var s := ToCaseSummary(f, now, convert);
      Get(s.vehicle, "plate") == TextOr(f.license_plate) && Get(s.owner, "name") == TextOr(f.owner_name)
      && Get(s.vehicle, "vin") == TextOr(f.chassis_number)
      && Get(s.vehicle, "firstRegisteredAt") == FirstPresent(f.initial_registration_date, f.manufacturing_date)
      && Get(s.dereg, "applicantBirth") == TextOr(f.birth_date)
      && Get(s.vehicle, "mileageKm") == SafeNumber(f.mileage_km, convert)
      && Get(s.vehicle, "weightKg") == SafeNumber(f.gross_weight, convert)
      && Get(s.vehicle, "displacementCc") == SafeNumber(f.engine_displacement, convert)
  {
    VehicleReads(TextOr(f.vehicle_model), Str(NormalizeFuel(f.fuel_type)), TextOr(f.manufacturing_date),
                 TextOr(f.engine_number), TextOr(f.vehicle_color),
                 SafeNumber(f.mileage_km, convert), SafeNumber(f.gross_weight, convert),
                 SafeNumber(f.engine_displacement, convert),
                 FirstPresent(f.initial_registration_date, f.manufacturing_date),
                 TextOr(f.chassis_number), TextOr(f.license_plate));
  }
  /** The entries `toCaseSummary` fills in on its own: the owner is an
      individual, the deregistration is for export with a certificate and
      dated today, the fuel is normalised, the remaining texts are the
      recognised ones or '', and both time stamps are the current instant. */
  lemma SummaryDefaults(f: VR.StructuredFields, now: Clock, convert: JsValue -> JsValue)
    ensures var s := ToCaseSummary(f, now, convert);
      Get(s.owner, "type") == Str("INDIVIDUAL")
      && Get(s.owner, "address") == TextOr(f.registered_address) && Get(s.owner, "birthDate") == TextOr(f.birth_date)
      && Get(s.dereg, "reason") == Str("수출예정") && Get(s.dereg, "needCertificate") == Bool(true)
      && Get(s.dereg, "applicationDate") == Str(FormatDate(now))
      && s.createdAt == Str(now.iso) && s.updatedAt == Str(now.iso)
    ensures var s := ToCaseSummary(f, now, convert);
      Get(s.vehicle, "fuel") == Str(NormalizeFuel(f.fuel_type))
      && Get(s.vehicle, "model") == TextOr(f.vehicle_model)
      && Get(s.vehicle, "manufacturingDate") == TextOr(f.manufacturing_date)
      && Get(s.vehicle, "engineNumber") == TextOr(f.engine_number)
      && Get(s.vehicle, "color") == TextOr(f.vehicle_color)
  {
    var s := ToCaseSummary(f, now, convert);
    assert s.owner == OwnerOf(f) && s.dereg == DeregOf(f, FormatDate(now)) && s.vehicle == VehicleFrom(f, convert);
    OwnerReads(f);
    DeregReads(f, FormatDate(now));
    VehicleTexts(TextOr(f.vehicle_model), Str(NormalizeFuel(f.fuel_type)), TextOr(f.manufacturing_date),
                 TextOr(f.engine_number), TextOr(f.vehicle_color),
                 SafeNumber(f.mileage_km, convert), SafeNumber(f.gross_weight, convert),
                 SafeNumber(f.engine_displacement, convert),
                 FirstPresent(f.initial_registration_date, f.manufacturing_date),
                 TextOr(f.chassis_number), TextOr(f.license_plate));
  }

  lemma OwnerReads(f: VR.StructuredFields)
    ensures Get(OwnerOf(f), "type") == Str("INDIVIDUAL")
    ensures Get(OwnerOf(f), "address") == TextOr(f.registered_address)
    ensures Get(OwnerOf(f), "birthDate") == TextOr(f.birth_date)
  {
  }

  lemma DeregReads(f: VR.StructuredFields, today: string)
    ensures Get(DeregOf(f, today), "reason") == Str("수출예정")
    ensures Get(DeregOf(f, today), "needCertificate") == Bool(true)
    ensures Get(DeregOf(f, today), "applicationDate") == Str(today)
  {
  }

  /** The text entries of the vehicle section. */
  lemma VehicleTexts(model: JsValue, fuel: JsValue, manufactured: JsValue, engine: JsValue, color: JsValue,
                     mileage: JsValue, weight: JsValue, displacement: JsValue, firstRegistered: JsValue,
                     vin: JsValue, plate: JsValue)
    ensures var v := VehicleOf(model, fuel, manufactured, engine, color, mileage, weight, displacement,
                               firstRegistered, vin, plate);
      Get(v, "model") == model && Get(v, "fuel") == fuel && Get(v, "manufacturingDate") == manufactured
      && Get(v, "engineNumber") == engine && Get(v, "color") == color
  {
  }


  /** `toCaseSummary` always fills in the application date, so its summary
      is valid exactly when the plate and the owner name are non-empty. */
  lemma SummaryValid(f: VR.StructuredFields, now: Clock, convert: JsValue -> JsValue)
    ensures ValidateCaseSummary(ToCaseSummary(f, now, convert)).isValid
        <==> Present(f.license_plate) && Present(f.owner_name)
  {
    SummaryReads(f, now, convert);
    TextOrTruthy(f.license_plate);
    TextOrTruthy(f.owner_name);
  }

  /** A text field whose value, when present, has the shape the validator
      tests is never reported as misshapen. */
  lemma ShapedText(v: Option<string>, shape: string -> bool)
    requires v.Some? ==> shape(v.value)
    ensures !Misshapen(TextOr(v), shape)
  {
  }

  /** A summary whose plate, VIN and dates have the checked shapes and whose
      numbers are not negative warns at most about a missing VIN. */
  lemma OnlyVinWarning(s: CaseSummary)
    requires Typed(s)
    requires !Misshapen(Get(s.vehicle, "plate"), PlateRegex) && !Misshapen(Get(s.vehicle, "vin"), VinAfterUpper)
    requires !Misshapen(Get(s.dereg, "applicantBirth"), IsoDateShape)
    requires !Misshapen(Get(s.vehicle, "firstRegisteredAt"), IsoDateShape)
    requires !BelowZero(Get(s.vehicle, "mileageKm")) && !BelowZero(Get(s.vehicle, "weightKg"))
    requires !BelowZero(Get(s.vehicle, "displacementCc"))
    ensures forall i :: 0 <= i < |ValidateCaseSummary(s).warnings| ==>
      ValidateCaseSummary(s).warnings[i] == Message(VinMissing)
  {
    var r := ValidateCaseSummary(s);
    forall i | 0 <= i < |r.warnings|
      ensures r.warnings[i] == Message(VinMissing)
    {
      var c :| c in WarningChecks && Fails(s, c) && r.warnings[i] == Message(c);
      ChecksListed(c);
      if c != VinMissing {
        ShapedPasses(s, c);
      }
    }
  }

  /** No warning other than the missing VIN fails on such a summary. */
  lemma ShapedPasses(s: CaseSummary, c: Check)
    requires !IsError(c) && c != VinMissing
    requires !Misshapen(Get(s.vehicle, "plate"), PlateRegex) && !Misshapen(Get(s.vehicle, "vin"), VinAfterUpper)
    requires !Misshapen(Get(s.dereg, "applicantBirth"), IsoDateShape)
    requires !Misshapen(Get(s.vehicle, "firstRegisteredAt"), IsoDateShape)
    requires !BelowZero(Get(s.vehicle, "mileageKm")) && !BelowZero(Get(s.vehicle, "weightKg"))
    requires !BelowZero(Get(s.vehicle, "displacementCc"))
    ensures !Fails(s, c)
  {
  }

  /** The summary of fields with the shapes the vehicle-registration parser
      guarantees has plates, VINs and dates of the checked shapes, and
      `safeNumber` lets no negative number through. */
  lemma ShapedSummary(f: VR.StructuredFields, now: Clock, convert: JsValue -> JsValue)
    requires VR.ParsedShape(f)
    ensures var s := ToCaseSummary(f, now, convert);
      !Misshapen(Get(s.vehicle, "plate"), PlateRegex) && !Misshapen(Get(s.vehicle, "vin"), VinAfterUpper)
      && !Misshapen(Get(s.dereg, "applicantBirth"), IsoDateShape)
      && !Misshapen(Get(s.vehicle, "firstRegisteredAt"), IsoDateShape)
      && !BelowZero(Get(s.vehicle, "mileageKm")) && !BelowZero(Get(s.vehicle, "weightKg"))
      && !BelowZero(Get(s.vehicle, "displacementCc"))
  {
    SummaryReads(f, now, convert);
    if f.license_plate.Some? {
      PlateRegexIsShape(f.license_plate.value);
    }
    if f.chassis_number.Some? {
      VR.VinUpper(f.chassis_number.value);
    }
    ShapedText(f.license_plate, PlateRegex);
    ShapedText(f.chassis_number, VinAfterUpper);
    ShapedText(f.birth_date, IsoDateShape);
    ShapedFirst(f.initial_registration_date, f.manufacturing_date, IsoDateShape);
  }

  lemma ShapedFirst(a: Option<string>, b: Option<string>, shape: string -> bool)
    requires a.Some? ==> shape(a.value)
    requires b.Some? ==> shape(b.value)
    ensures !Misshapen(FirstPresent(a, b), shape)
  {
  }

  /** So the summary of the vehicle-registration parser's output warns at
      most about a missing VIN. */
  lemma ParsedSummaryWarnings(textLines: seq<string>, now: Clock, convert: JsValue -> JsValue)
    ensures var r := ValidateCaseSummary(ToCaseSummary(VR.Parse(textLines), now, convert));
      forall i :: 0 <= i < |r.warnings| ==> r.warnings[i] == Message(VinMissing)
  {
    VR.ParseShape(textLines);
    ShapedSummary(VR.Parse(textLines), now, convert);
    OnlyVinWarning(ToCaseSummary(VR.Parse(textLines), now, convert));
  }

  // ------------------------------------------------------------ cleanupText

  /** The zero-width characters U+200B to U+200D and U+FEFF. */
  predicate IsZeroWidth(c: char) {
    '\U{200B}' <= c <= '\U{200D}' || c == '\U{FEFF}'
  }

  /** No character of `s` satisfies `p`. */
  predicate NoneWhere(s: string, p: char -> bool) {
    forall i :: 0 <= i < |s| ==> !p(s[i])
  }

  /** No two neighbouring characters are both white space. */
  predicate SingleSpaced(s: string) {
    forall i :: 0 <= i < |s| - 1 ==> !(IsSpace(s[i]) && IsSpace(s[i + 1]))
  }

  /** Every white-space character is a plain space. */
  predicate PlainSpaces(s: string) {
    forall i :: 0 <= i < |s| && IsSpace(s[i]) ==> s[i] == ' '
  }

  /** Neither end is white space. */
  predicate Trimmed(s: string) {
    s != [] ==> !IsSpace(s[0]) && !IsSpace(s[|s| - 1])
  }

  /** `s.replace(/\s+/g, ' ')`, continuing a run of white space when
      `inRun`: every maximal run of white space becomes one space. */
  function CollapseSpaces(s: string, inRun: bool): (r: string)
    ensures SingleSpaced(r) && PlainSpaces(r)
    ensures inRun && r != [] ==> !IsSpace(r[0])
    decreases |s|
  {
    if s == [] then []
    else if IsSpace(s[0]) then
      var rest := CollapseSpaces(s[1..], true);
      var r := (if inRun then [] else " ") + rest;
      assert !inRun ==> forall i :: 1 <= i < |r| ==> r[i] == rest[i - 1];
      r
    else
      var rest := CollapseSpaces(s[1..], false);
      var r := [s[0]] + rest;
      assert forall i :: 1 <= i < |r| ==> r[i] == rest[i - 1];
      r
  }

  /** Collapsing keeps every character that is not white space, in order. */
  lemma {:induction false} CollapseKeepsText(s: string, inRun: bool)
    ensures RemoveWhere(CollapseSpaces(s, inRun), IsSpace) == RemoveWhere(s, IsSpace)
    decreases |s|
  {
    if s != [] {
      CollapseKeepsText(s[1..], IsSpace(s[0]));
      var rest := CollapseSpaces(s[1..], IsSpace(s[0]));
      if IsSpace(s[0]) {
        RemoveWhereAppend(if inRun then [] else " ", rest, IsSpace);
      } else {
        RemoveWhereAppend([s[0]], rest, IsSpace);
      }
    }
  }

  /** Collapsing adds no character but the space. */
  lemma {:induction false} CollapseAvoids(s: string, inRun: bool, p: char -> bool)
    requires !p(' ') && NoneWhere(s, p)
    ensures NoneWhere(CollapseSpaces(s, inRun), p)
    decreases |s|
  {
    if s != [] {
      CollapseAvoids(s[1..], IsSpace(s[0]), p);
      var rest := CollapseSpaces(s[1..], IsSpace(s[0]));
      var r := CollapseSpaces(s, inRun);
      assert forall i :: 0 <= i < |r| ==> r[i] == ' ' || r[i] == s[0] || r[i] in rest;
    }
  }

  /** Removing characters adds none. */
  lemma {:induction false} RemoveAvoids(s: string, drop: char -> bool, p: char -> bool)
    requires NoneWhere(s, p)
    ensures NoneWhere(RemoveWhere(s, drop), p)
    decreases |s|
  {
    if s != [] {
      RemoveAvoids(s[1..], drop, p);
      var rest := RemoveWhere(s[1..], drop);
      var r := RemoveWhere(s, drop);
      assert forall i :: 0 <= i < |r| ==> r[i] == s[0] || r[i] in rest;
    }
  }

  /** Removing characters keeps every white-space character a plain space. */
  lemma {:induction false} RemoveKeepsPlain(s: string, drop: char -> bool)
    requires PlainSpaces(s)
    ensures PlainSpaces(RemoveWhere(s, drop))
    decreases |s|
  {
    if s != [] {
      RemoveKeepsPlain(s[1..], drop);
      var rest := RemoveWhere(s[1..], drop);
      var r := RemoveWhere(s, drop);
      assert forall i :: 0 <= i < |r| ==> r[i] == s[0] || r[i] in rest;
    }
  }

  /** Trimming keeps a contiguous part, so it keeps these properties. */
  lemma TrimKeeps(s: string)
    ensures Trimmed(Trim(s))
    ensures PlainSpaces(s) ==> PlainSpaces(Trim(s))
    ensures SingleSpaced(s) ==> SingleSpaced(Trim(s))
    ensures NoneWhere(s, IsZeroWidth) ==> NoneWhere(Trim(s), IsZeroWidth)
  {
    TrimSlice(s);
    var i, j :| 0 <= i <= j <= |s| && Trim(s) == s[i..j];
    var t := Trim(s);
    assert forall k :: 0 <= k < |t| ==> t[k] == s[i + k];
  }

  /** `cleanupText` as written: runs of white space become one space, then
      zero-width characters are removed, then the ends are trimmed. The
      result has no zero-width character, no white space but the plain
      space, and no white space at either end. */
  function CleanupText(s: string): (r: string)
    ensures NoneWhere(r, IsZeroWidth) && PlainSpaces(r) && Trimmed(r)
  {
    var c := CollapseSpaces(s, false);
    var d := RemoveWhere(c, IsZeroWidth);
    RemoveWhereDrops(c, IsZeroWidth);
    RemoveKeepsPlain(c, IsZeroWidth);
    TrimKeeps(d);
    Trim(d)
  }

  /** A zero-width space between two single spaces leaves two spaces side by
      side: the collapsing runs before the zero-width characters are gone. */
  lemma CleanupLeavesDoubleSpace()
    ensures CleanupText("a \U{200B} b") == "a  b"
    ensures !SingleSpaced(CleanupText("a \U{200B} b"))
  {
    CollapseExample();
    RemoveExample();
    TrimUnchanged("a  b");
    assert "a  b"[1] == ' ' && "a  b"[2] == ' ';
  }

  lemma CollapseExample()
    ensures CollapseSpaces("a \U{200B} b", false) == "a \U{200B} b"
  {
    var s := "a \U{200B} b";
    assert CollapseSpaces(s[4..], true) == "b";
    assert CollapseSpaces(s[3..], false) == " b";
    assert CollapseSpaces(s[2..], true) == "\U{200B} b";
    assert CollapseSpaces(s[1..], false) == " \U{200B} b";
  }

  lemma RemoveExample()
    ensures RemoveWhere("a \U{200B} b", IsZeroWidth) == "a  b"
  {
    var s := "a \U{200B} b";
    assert RemoveWhere(s[4..], IsZeroWidth) == "b";
    assert RemoveWhere(s[3..], IsZeroWidth) == " b";
    assert RemoveWhere(s[2..], IsZeroWidth) == " b";
    assert RemoveWhere(s[1..], IsZeroWidth) == "  b";
  }

  /** `cleanupText` with the zero-width characters removed first: then the
      result is also single-spaced. */
  function CleanupTextFixed(s: string): (r: string)
    ensures NoneWhere(r, IsZeroWidth) && PlainSpaces(r) && Trimmed(r) && SingleSpaced(r)
  {
    var d := RemoveWhere(s, IsZeroWidth);
    var c := CollapseSpaces(d, false);
    RemoveWhereDrops(s, IsZeroWidth);
    CollapseAvoids(d, false, IsZeroWidth);
    TrimKeeps(c);
    Trim(c)
  }

  /** On text without zero-width characters the two orders agree. */
  lemma CleanupAgrees(s: string)
    requires NoneWhere(s, IsZeroWidth)
    ensures CleanupText(s) == CleanupTextFixed(s)
  {
    RemoveWhereKeeps(s, IsZeroWidth);
    CollapseAvoids(s, false, IsZeroWidth);
    RemoveWhereKeeps(CollapseSpaces(s, false), IsZeroWidth);
  }

  // --------------------------------------------------------- extractNumbers

  /** `text.match(/\d+/g)`: the maximal runs of decimal digits, left to right. */
  function DigitRuns(s: string): (r: seq<string>)
    ensures forall k :: 0 <= k < |r| ==> r[k] != "" && AllDigits(r[k])
    decreases |s|
  {
    if s == [] then []
    else if !IsDigit(s[0]) then DigitRuns(s[1..])
    else
      var d := DigitPrefix(s);
      [d] + DigitRuns(s[|d|..])
  }

  /** `matches.map(n => parseInt(n, 10))`. */
  function ParseAll(runs: seq<string>): (r: seq<int>)
    requires forall k :: 0 <= k < |runs| ==> runs[k] != "" && AllDigits(runs[k])
    ensures |r| == |runs|
    ensures forall k :: 0 <= k < |r| ==> r[k] == DigitsValue(runs[k])
  {
    if runs == [] then []
    else
      var v := match ParseInt(runs[0]) case Some(n) => n case None => 0;
      [v] + ParseAll(runs[1..])
  }

  /** `extractNumbers`: the value of every digit run, in order. Every run is
      all digits, so `parseInt` never yields NaN and the filter drops
      nothing. */
  function ExtractNumbers(s: string): (r: seq<int>)
    ensures |r| == |DigitRuns(s)|
    ensures forall k :: 0 <= k < |r| ==> r[k] >= 0 && r[k] == DigitsValue(DigitRuns(s)[k])
  {
    ParseAll(DigitRuns(s))
  }

  /** The decimal texts of a list of numbers. */
  function NumberTexts(ns: seq<nat>): (r: seq<string>)
    ensures |r| == |ns| && forall k :: 0 <= k < |ns| ==> r[k] == NatToString(ns[k])
  {
    seq(|ns|, k requires 0 <= k < |ns| => NatToString(ns[k]))
  }

  /** The digit prefix of digits followed by a non-digit is those digits. */
  lemma DigitPrefixStops(w: string, t: string)
    requires AllDigits(w) && (t == [] || !IsDigit(t[0]))
    ensures DigitPrefix(w + t) == w
  {
    assert (w + t)[..|w|] == w;
  }

  /** Numbers written out separated by spaces are read back by
      `extractNumbers`. */
  lemma {:induction false} ExtractNumbersRoundTrip(ns: seq<nat>)
    ensures ExtractNumbers(Join(NumberTexts(ns), " ")) == ns
  {
    DigitRunsOfJoin(ns);
    var r := ExtractNumbers(Join(NumberTexts(ns), " "));
    forall k | 0 <= k < |ns|
      ensures r[k] == ns[k]
    {
      NatToStringRoundTrip(ns[k]);
    }
  }

  /** A run of digits followed by a space starts the list of runs. */
  lemma DigitRunsCons(w: string, t: string)
    requires w != [] && AllDigits(w)
    ensures DigitRuns(w + " " + t) == [w] + DigitRuns(t)
  {
    var s := w + " " + t;
    DigitPrefixStops(w, " " + t);
    assert w + (" " + t) == s;
    assert s[|w|..] == " " + t;
    assert (" " + t)[1..] == t;
  }

  /** A lone run of digits is the only run. */
  lemma DigitRunsOne(w: string)
    requires w != [] && AllDigits(w)
    ensures DigitRuns(w) == [w]
  {
    DigitPrefixStops(w, "");
    assert w + "" == w;
    assert w[|w|..] == [];
  }

  lemma {:induction false} DigitRunsOfJoin(ns: seq<nat>)
    ensures DigitRuns(Join(NumberTexts(ns), " ")) == NumberTexts(ns)
    decreases |ns|
  {
    if |ns| == 1 {
      DigitRunsOne(NatToString(ns[0]));
    } else if |ns| > 1 {
      var w := NatToString(ns[0]);
      var t := Join(NumberTexts(ns[1..]), " ");
      assert NumberTexts(ns) == [w] + NumberTexts(ns[1..]);
      assert Join(NumberTexts(ns), " ") == w + " " + t;
      DigitRunsCons(w, t);
      DigitRunsOfJoin(ns[1..]);
    }
  }

  // ---------------------------------------------------------- Korean dates

  /** `formatKoreanDate`: "YYYY년 M월 D일" with unpadded numbers. */
  function FormatKoreanDate(year: int, month: int, day: int): string {
    Written(IntToString(year), IntToString(month), IntToString(day))
  }

  /** `parseKoreanDate`: the first "YYYY년 M월 D일" date, as `YYYY-MM-DD`
      with month and day padded to two digits, or none when there is no such
      date anywhere in the text. */
  function ParseKoreanDate(s: string): (r: Option<string>)
    ensures r.Some? ==> IsoDateShape(r.value)
    ensures r.None? <==> forall i :: 0 <= i <= |s| ==> KoreanDateAt(s, i).None?
  {
    match FindKoreanDate(s)
    case Some(k) => Some(IsoDate(k.year, k.month, k.day))
    case None => None
  }

  /** A greedy digit run over exactly `n` digits followed by a non-digit. */
  lemma {:induction false} DigitRunExact(s: string, i: nat, max: nat, n: nat)
    requires i + n < |s| && AllDigits(s[i..i + n]) && !IsDigit(s[i + n]) && n <= max
    ensures DigitRun(s, i, max) == n
    decreases n
  {
    if n > 0 {
      assert s[i + 1..i + n] == s[i..i + n][1..];
      assert IsDigit(s[i..i + n][0]);
      DigitRunExact(s, i + 1, max - 1, n - 1);
    }
  }

  /** One group of a written date: digits `w` after `pre`, then the
      syllable `lit`, then either the end or one space before the next
      group. */
  lemma GroupAt(s: string, pre: string, w: string, lit: char, rest: string, min: nat, max: nat)
    requires s == pre + w + [lit] + rest
    requires AllDigits(w) && min <= |w| <= max && !IsDigit(lit) && !IsSpace(lit)
    requires rest == [] || (|rest| > 1 && rest[0] == ' ' && !IsSpace(rest[1]))
    ensures rest != [] ==> DigitsThen(s, |pre|, min, max, lit) == Some((w, |pre| + |w| + 2))
    ensures DigitsThen(s, |pre|, min, max, lit).Some? && DigitsThen(s, |pre|, min, max, lit).value.0 == w
  {
    var i := |pre|;
    assert s[i..i + |w|] == w && s[i + |w|] == lit;
    DigitRunExact(s, i, max, |w|);
    if rest != [] {
      assert s[i + |w| + 1] == ' ' && s[i + |w| + 2] == rest[1];
    }
  }

  /** The year, month and day groups in the layout `formatKoreanDate`
      writes. */
  function Written(y: string, m: string, d: string): string {
    y + "년 " + m + "월 " + d + "일"
  }

  predicate DateGroups(y: string, m: string, d: string) {
    |y| == 4 && AllDigits(y) && 1 <= |m| <= 2 && AllDigits(m) && 1 <= |d| <= 2 && AllDigits(d)
  }

  lemma YearGroup(y: string, m: string, d: string)
    requires DateGroups(y, m, d)
    ensures DigitsThen(Written(y, m, d), 0, 4, 4, '년') == Some((y, 6))
  {
    var r := " " + m + "월 " + d + "일";
    assert Written(y, m, d) == [] + y + ['년'] + r;
    GroupAt(Written(y, m, d), [], y, '년', r, 4, 4);
  }

  lemma MonthGroup(y: string, m: string, d: string)
    requires DateGroups(y, m, d)
    ensures DigitsThen(Written(y, m, d), 6, 1, 2, '월') == Some((m, 8 + |m|))
  {
    var r := " " + d + "일";
    assert Written(y, m, d) == y + "년 " + m + ['월'] + r;
    GroupAt(Written(y, m, d), y + "년 ", m, '월', r, 1, 2);
  }

  lemma DayGroup(y: string, m: string, d: string)
    requires DateGroups(y, m, d)
    ensures DigitsThen(Written(y, m, d), 8 + |m|, 1, 2, '일').Some?
    ensures DigitsThen(Written(y, m, d), 8 + |m|, 1, 2, '일').value.0 == d
  {
    var pre := y + "년 " + m + "월 ";
    assert "일" == ['일'];
    assert Written(y, m, d) == pre + d + ['일'];
    assert pre + d + ['일'] + [] == pre + d + ['일'];
    GroupAt(Written(y, m, d), pre, d, '일', [], 1, 2);
  }

  /** A date written with a four-digit year and one- or two-digit month and
      day is read back as the padded ISO date. */
  lemma WrittenDateParses(y: string, m: string, d: string)
    requires DateGroups(y, m, d)
    ensures ParseKoreanDate(Written(y, m, d)) == Some(IsoDate(y, m, d))
  {
    YearGroup(y, m, d);
    MonthGroup(y, m, d);
    DayGroup(y, m, d);
    DateAtStart(Written(y, m, d), y, m, d, 6, 8 + |m|);
  }

  /** What `formatKoreanDate` writes for a four-digit year and a month and
      day below 100, `parseKoreanDate` reads back as the padded ISO date. */
  lemma KoreanDateRoundTrip(year: int, month: int, day: int)
    requires 1000 <= year <= 9999 && 0 <= month <= 99 && 0 <= day <= 99
    ensures ParseKoreanDate(FormatKoreanDate(year, month, day))
      == Some(IsoDate(NatToString(year), NatToString(month), NatToString(day)))
  {
    WrittenDateParses(NatToString(year), NatToString(month), NatToString(day));
  }

  /** The three groups found in turn from the start make the first date. */
  lemma DateAtStart(s: string, y: string, m: string, d: string, b: nat, e: nat)
    requires DigitsThen(s, 0, 4, 4, '년') == Some((y, b)) && b <= |s|
    requires DigitsThen(s, b, 1, 2, '월') == Some((m, e)) && e <= |s|
    requires DigitsThen(s, e, 1, 2, '일').Some? && DigitsThen(s, e, 1, 2, '일').value.0 == d
    ensures ParseKoreanDate(s) == Some(IsoDate(y, m, d))
  {
    assert KoreanDateAt(s, 0) == Some(KDate(y, m, d));
  }
}
