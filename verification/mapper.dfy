/** The gap-filling field mapper: structured fields supplied by an OCR
    engine are kept, and each field that is still empty is looked for in the
    raw text, one guarded rule at a time, per document type. */
module Mapper {
  import opened Js
  import opened Text
  import opened Shapes
  import PlateRecognizer

  // ------------------------------------------------------------ fields

  /** The fields the mapper's rules fill, across the four documents. */
  datatype Field =
    | ManufacturingDate | FuelType | VehicleModel | ChassisNumber | OwnerName
    | RegisteredAddress | Mileage | GrossWeight | EngineDisplacement
    | Name | BirthDate | Address
    | Delegator | Delegate | Purpose | VehicleNumber | DelegationDate
    | CompanyName | Item | Amount | IssueDate

  /** `text.match(re)` for the pattern of each field: `capture` gives the
      single group of the leftmost match, `date` the year, month and day
      groups of a date pattern. The registered address and the card
      address share one pattern, indexed by `Address`. */
  datatype Matchers = Matchers(
    capture: (Field, string) -> Option<string>,
    date: (Field, string) -> Option<(string, string, string)>)

  // ------------------------------------------------------------ filling

  /** One guarded rule: when `fields[key]` is falsy and the rule found a
      value, the value is assigned. */
  function FillGap(fields: Object, key: string, found: Option<JsValue>): Object {
    if !Truthy(Get(fields, key)) && found.Some? then fields[key := found.value] else fields
  }

  /** `{...fields, document_type, processed_at, confidence}` */
  function Stamp(fields: Object, docType: string, now: string, confidence: string): Object {
    fields["document_type" := Str(docType)]["processed_at" := Str(now)]["confidence" := Str(confidence)]
  }

  // ------------------------------------------------------------ values

  /** `match[1].trim()` */
  function Trimmed(g: Option<string>): Option<JsValue> {
    match g
    case Some(s) => Some(Str(Trim(s)))
    case None => None
  }

  /** `parseInt(match[1].replace(/,/g, ''), 10)` */
  function Number(g: Option<string>): Option<JsValue> {
    match g
    case Some(s) => Some(ParseIntValue(RemoveCommas(s)))
    case None => None
  }

  /** `${year}-${month.padStart(2, '0')}-${day.padStart(2, '0')}` */
  function Dated(g: Option<(string, string, string)>): Option<JsValue> {
    match g
    case Some((y, m, d)) => Some(Str(IsoDate(y, m, d)))
    case None => None
  }

  /** A confidence kept in thousandths, as the fraction the mapper writes. */
  function Thousandths(c: nat): real {
    c as real / 1000.0
  }

  /** The plate rule of a registration: when the plate is empty and
      `plateRecognizer.extract` found one, its plate, confidence (from
      thousandths) and source are assigned. */
  function PlateGap(fields: Object, p: Option<PlateRecognizer.PlateResult>): Object {
    if !Truthy(Get(fields, "license_plate")) && p.Some? then
      fields["license_plate" := Str(p.value.plate)]
            ["license_plate_confidence" := Num(Thousandths(p.value.confidence))]
            ["license_plate_source" := match p.value.source case Some(s) => Str(s) case None => Undefined]
    else fields
  }

  /** An empty plate takes the recognised plate, its confidence and its
      source. */
  lemma PlateGapFills(fields: Object, p: Option<PlateRecognizer.PlateResult>)
    requires !Truthy(Get(fields, "license_plate")) && p.Some?
    ensures Get(PlateGap(fields, p), "license_plate") == Str(p.value.plate)
    ensures Get(PlateGap(fields, p), "license_plate_confidence") == Num(Thousandths(p.value.confidence))
    ensures p.value.source.Some? ==> Get(PlateGap(fields, p), "license_plate_source") == Str(p.value.source.value)
  {
  }

  /** The plate of `plateRecognizer.extractFromText`. */
  function TextPlate(text: string): Option<JsValue> {
    PlateText(PlateRecognizer.TextResult(Str(text)))
  }

  /** The plate string of a recognizer result, when there is one. */
  function PlateText(p: Option<PlateRecognizer.PlateResult>): Option<JsValue> {
    if p.Some? then Some(Str(p.value.plate)) else None
  }

  /** The `filename = ''` default of an omitted argument. */
  function FilenameArg(filename: JsValue): JsValue {
    if filename.Undefined? then Str("") else filename
  }

  /** `s.substring(a, b)`: the characters between the smaller and the
      larger index, both clamped to the text. */
  function Substring(s: string, a: nat, b: nat): (r: string)
    ensures |r| <= if a <= b then b - a else a - b
  {
    var lo := if a <= b then a else b;
    var hi := if a <= b then b else a;
    var end := if hi < |s| then hi else |s|;
    var start := if lo < end then lo else end;
    s[start..end]
  }

  /** Which characters `substring` keeps: the indexes may come in either
      order; inside the text it is the slice between them, past the end it
      stops at the end, and wholly past the end it is empty. */
  lemma SubstringSlice(s: string, a: nat, b: nat)
    ensures Substring(s, a, b) == Substring(s, b, a)
    ensures a <= b <= |s| ==> Substring(s, a, b) == s[a..b]
    ensures a <= |s| <= b ==> Substring(s, a, b) == s[a..]
    ensures |s| <= a <= b ==> Substring(s, a, b) == ""
  {
  }

  /** The year written for a two-digit resident-number prefix: 19YY above
      50, 20YY otherwise; `NaN` when the prefix has no digits. */
  function BirthYear(yy: Option<int>): string {
    match yy
    case Some(y) => IntToString(if y > 50 then 1900 + y else 2000 + y)
    case None => "NaN"
  }

  /** The birth date built from the six digits of a resident number. */
  function ResidentBirthDate(prefix: string): string {
    BirthYear(ParseInt(Substring(prefix, 0, 2))) + "-" + Substring(prefix, 2, 4) + "-" + Substring(prefix, 4, 6)
  }

  /** From six digits YYMMDD the birth date is YYYY-MM-DD, in the 1900s when
      YY is above 50 and in the 2000s otherwise. */
  lemma BirthDateCentury(prefix: string)
    requires |prefix| == 6 && AllDigits(prefix)
    ensures IsoDateShape(ResidentBirthDate(prefix))
    ensures DigitsValue(ResidentBirthDate(prefix)[..4])
      == (if DigitsValue(prefix[..2]) > 50 then 1900 else 2000) + DigitsValue(prefix[..2])
    ensures ResidentBirthDate(prefix)[5..] == prefix[2..4] + "-" + prefix[4..]
  {
    var yy := prefix[..2];
    SubstringSlice(prefix, 0, 2);
    SubstringSlice(prefix, 2, 4);
    SubstringSlice(prefix, 4, 6);
    assert Substring(prefix, 0, 2) == yy;
    assert yy[..1][..0] == [];
    assert DigitsValue(yy[..1]) == DigitValue(yy[0]);
    var y := DigitsValue(yy);
    assert y == DigitValue(yy[0]) * 10 + DigitValue(yy[1]);
    var full: nat := if y > 50 then 1900 + y else 2000 + y;
    assert ParseInt(yy) == Some(y);
    var ys := NatToString(full);
    assert BirthYear(ParseInt(yy)) == ys;
    NatToStringRoundTrip(full);
    var mm := prefix[2..4];
    var dd := prefix[4..];
    assert Substring(prefix, 2, 4) == mm && Substring(prefix, 4, 6) == dd;
    var r := ResidentBirthDate(prefix);
    assert r == ys + "-" + mm + "-" + dd;
    assert |ys| == 4;
    DateParts(ys, mm, dd);
  }

  /** Where the parts of a date joined with '-' lie. */
  lemma DateParts(ys: string, mm: string, dd: string)
    requires |ys| == 4 && |mm| == 2
    ensures var r := ys + "-" + mm + "-" + dd;
      r[..4] == ys && r[5..7] == mm && r[8..] == dd && r[5..] == mm + "-" + dd
  {
    var r := ys + "-" + mm + "-" + dd;
    assert r[..4] == ys;
    assert r[5..] == mm + "-" + dd;
  }

  // ------------------------------------------------------------ rules

  /** The registration's date and descriptive rules, in order. */
  function Described(fields: Object, text: string, m: Matchers): Object {
    var f1 := FillGap(fields, "manufacturing_date", Dated(m.date(ManufacturingDate, text)));
    var f2 := FillGap(f1, "fuel_type", Trimmed(m.capture(FuelType, text)));
    var f3 := FillGap(f2, "vehicle_model", Trimmed(m.capture(VehicleModel, text)));
    var f4 := FillGap(f3, "chassis_number", Trimmed(m.capture(ChassisNumber, text)));
    var f5 := FillGap(f4, "owner_name", Trimmed(m.capture(OwnerName, text)));
    FillGap(f5, "registered_address", Trimmed(m.capture(Address, text)))
  }

  /** The registration's numeric rules, in order. */
  function Measured(fields: Object, text: string, m: Matchers): Object {
    var f1 := FillGap(fields, "mileage", Number(m.capture(Mileage, text)));
    var f2 := FillGap(f1, "gross_weight", Number(m.capture(GrossWeight, text)));
    FillGap(f2, "engine_displacement", Number(m.capture(EngineDisplacement, text)))
  }

  /** The ID card's rules, in order. */
  function CardFilled(fields: Object, text: string, m: Matchers): Object {
    var f1 := FillGap(fields, "name", Trimmed(m.capture(Name, text)));
    var f2 := FillGap(f1, "birth_date", Birth(m.capture(BirthDate, text)));
    FillGap(f2, "address", Trimmed(m.capture(Address, text)))
  }

  /** The delegation form's rules, in order; `tp` is what
      `plateRecognizer.extractFromText` gives the vehicle number rule. */
  function DelegationFilled(fields: Object, text: string, m: Matchers, tp: Option<JsValue>): Object {
    var f1 := FillGap(fields, "delegator", Trimmed(m.capture(Delegator, text)));
    var f2 := FillGap(f1, "delegate", Trimmed(m.capture(Delegate, text)));
    var f3 := FillGap(f2, "purpose", Trimmed(m.capture(Purpose, text)));
    var f4 := FillGap(f3, "vehicle_number", tp);
    FillGap(f4, "delegation_date", Dated(m.date(DelegationDate, text)))
  }

  /** The invoice's rules, in order, with the same plate rule. */
  function InvoiceFilled(fields: Object, text: string, m: Matchers, tp: Option<JsValue>): Object {
    var f1 := FillGap(fields, "company_name", Trimmed(m.capture(CompanyName, text)));
    var f2 := FillGap(f1, "item", Trimmed(m.capture(Item, text)));
    var f3 := FillGap(f2, "amount", Number(m.capture(Amount, text)));
    var f4 := FillGap(f3, "vehicle_number", tp);
    FillGap(f4, "issue_date", Dated(m.date(IssueDate, text)))
  }

  /** The birth date of the resident-number rule. */
  function Birth(g: Option<string>): Option<JsValue> {
    match g
    case Some(p) => Some(Str(ResidentBirthDate(p)))
    case None => None
  }

  // ------------------------------------------------------------ rule methods

  /** `if (!fields[key]) { const m = text.match(re); if (m) fields[key] = m[1].trim(); }` */
  method TrimmedRule(fields: Object, key: string, g: Option<string>) returns (r: Object)
    ensures r == FillGap(fields, key, Trimmed(g))
  {
    r := fields;
    if !Truthy(Get(fields, key)) && g.Some? {
      r := fields[key := Str(Trim(g.value))];
    }
  }

  /** The same rule with `parseInt(m[1].replace(/,/g, ''), 10)`. */
  method NumberRule(fields: Object, key: string, g: Option<string>) returns (r: Object)
    ensures r == FillGap(fields, key, Number(g))
  {
    r := fields;
    if !Truthy(Get(fields, key)) && g.Some? {
      r := fields[key := ParseIntValue(RemoveCommas(g.value))];
    }
  }

  /** The same rule with the zero-padded date of the year, month and day groups. */
  method DateRule(fields: Object, key: string, g: Option<(string, string, string)>) returns (r: Object)
    ensures r == FillGap(fields, key, Dated(g))
  {
    r := fields;
    if !Truthy(Get(fields, key)) && g.Some? {
      r := fields[key := Str(IsoDate(g.value.0, g.value.1, g.value.2))];
    }
  }

  /** The same rule with the plate `plateRecognizer.extractFromText` finds. */
  method TextPlateRule(fields: Object, key: string, text: string) returns (r: Object)
    ensures r == FillGap(fields, key, TextPlate(text))
  {
    r := fields;
    if !Truthy(Get(fields, key)) {
      var plate := PlateRecognizer.ExtractFromText(Str(text));
      if plate.Some? {
        r := fields[key := Str(plate.value.plate)];
      }
    }
  }

  /** The keys the plate rule assigns besides the plate itself. */
  const PlateCompanions: set<string> := {"license_plate_confidence", "license_plate_source"}

  /** The keys every typed result is stamped with. */
  const Stamped: set<string> := {"document_type", "processed_at", "confidence"}

  // ------------------------------------------------------------ vehicle registration

  /** The registration built around the plate `plateRecognizer.extract`
      returns for the text and the file name. */
  function VehicleRegistrationFields(text: string, structured: Object, plate: Option<PlateRecognizer.PlateResult>, m: Matchers, now: string): Object {
    Stamp(Measured(Described(PlateGap(structured, plate), text, m), text, m), "VEHICLE_REGISTRATION", now, "high")
  }

  /** `mapVehicleRegistrationFields`: each rule runs only while its field is
      empty; a missing plate comes from the plate recognizer, with its
      confidence and source. */
  method MapVehicleRegistrationFields(text: string, structured: Object, filename: JsValue, m: Matchers, now: string)
    returns (r: Object)
    ensures r == VehicleRegistrationFields(text, structured, PlateRecognizer.Combined(Str(text), filename), m, now)
  {
    var fields := PlateRule(structured, text, filename);
    fields := DescriptionRules(fields, text, m);
    fields := MeasureRules(fields, text, m);
    r := fields["document_type" := Str("VEHICLE_REGISTRATION")]["processed_at" := Str(now)]["confidence" := Str("high")];
  }

  /** The plate rule of a registration. */
  method PlateRule(fields: Object, text: string, filename: JsValue) returns (r: Object)
    ensures r == PlateGap(fields, PlateRecognizer.Combined(Str(text), filename))
  {
    r := fields;
    if !Truthy(Get(fields, "license_plate")) {
      var plate := PlateRecognizer.Extract(Str(text), filename);
      if plate.Some? {
        r := fields["license_plate" := Str(plate.value.plate)]
                   ["license_plate_confidence" := Num(Thousandths(plate.value.confidence))]
                   ["license_plate_source" := match plate.value.source case Some(s) => Str(s) case None => Undefined];
      }
    }
  }

  /** The date and the five descriptive fields of a registration. */
  method DescriptionRules(plated: Object, text: string, m: Matchers) returns (r: Object)
    ensures r == Described(plated, text, m)
  {
    r := DateRule(plated, "manufacturing_date", m.date(ManufacturingDate, text));
    r := TrimmedRule(r, "fuel_type", m.capture(FuelType, text));
    r := TrimmedRule(r, "vehicle_model", m.capture(VehicleModel, text));
    r := TrimmedRule(r, "chassis_number", m.capture(ChassisNumber, text));
    r := TrimmedRule(r, "owner_name", m.capture(OwnerName, text));
    r := TrimmedRule(r, "registered_address", m.capture(Address, text));
  }

  /** The three numeric fields of a registration, commas removed. */
  method MeasureRules(described: Object, text: string, m: Matchers) returns (r: Object)
    ensures r == Measured(described, text, m)
  {
    r := NumberRule(described, "mileage", m.capture(Mileage, text));
    r := NumberRule(r, "gross_weight", m.capture(GrossWeight, text));
    r := NumberRule(r, "engine_displacement", m.capture(EngineDisplacement, text));
  }

  /** The properties the registration's text rules fill. */
  const RegistrationKeys: set<string> := {
    "manufacturing_date", "fuel_type", "vehicle_model", "chassis_number", "owner_name",
    "registered_address", "mileage", "gross_weight", "engine_displacement"}

  /** What a rule leaves of a property: a truthy value stays, and a
      property it does not fill keeps whatever it had. */
  predicate Preserves(before: Object, after: Object, k: string, filled: set<string>) {
    (k in before && Truthy(before[k]) ==> k in after && after[k] == before[k])
    && (k !in filled ==> Get(after, k) == Get(before, k))
  }

  lemma FillGapPreserves(fields: Object, key: string, found: Option<JsValue>, k: string)
    ensures Preserves(fields, FillGap(fields, key, found), k, {key})
  {
  }

  lemma PreservesChain(a: Object, b: Object, c: Object, k: string, s: set<string>, t: set<string>)
    requires Preserves(a, b, k, s) && Preserves(b, c, k, t)
    ensures Preserves(a, c, k, s + t)
  {
  }

  /** The registration's text rules never overwrite a truthy value and
      touch no property but their own. */
  lemma {:induction false} DescribedPreserves(fields: Object, text: string, m: Matchers, k: string)
    ensures Preserves(fields, Described(fields, text, m), k,
      {"manufacturing_date", "fuel_type", "vehicle_model", "chassis_number", "owner_name", "registered_address"})
  {
    var f1 := FillGap(fields, "manufacturing_date", Dated(m.date(ManufacturingDate, text)));
    var f2 := FillGap(f1, "fuel_type", Trimmed(m.capture(FuelType, text)));
    var f3 := FillGap(f2, "vehicle_model", Trimmed(m.capture(VehicleModel, text)));
    var f4 := FillGap(f3, "chassis_number", Trimmed(m.capture(ChassisNumber, text)));
    var f5 := FillGap(f4, "owner_name", Trimmed(m.capture(OwnerName, text)));
    var f6 := FillGap(f5, "registered_address", Trimmed(m.capture(Address, text)));
    FillGapPreserves(fields, "manufacturing_date", Dated(m.date(ManufacturingDate, text)), k);
    FillGapPreserves(f1, "fuel_type", Trimmed(m.capture(FuelType, text)), k);
    PreservesChain(fields, f1, f2, k, {"manufacturing_date"}, {"fuel_type"});
    FillGapPreserves(f2, "vehicle_model", Trimmed(m.capture(VehicleModel, text)), k);
    PreservesChain(fields, f2, f3, k, {"manufacturing_date", "fuel_type"}, {"vehicle_model"});
    FillGapPreserves(f3, "chassis_number", Trimmed(m.capture(ChassisNumber, text)), k);
    PreservesChain(fields, f3, f4, k, {"manufacturing_date", "fuel_type", "vehicle_model"}, {"chassis_number"});
    FillGapPreserves(f4, "owner_name", Trimmed(m.capture(OwnerName, text)), k);
    PreservesChain(fields, f4, f5, k, {"manufacturing_date", "fuel_type", "vehicle_model", "chassis_number"}, {"owner_name"});
    FillGapPreserves(f5, "registered_address", Trimmed(m.capture(Address, text)), k);
    PreservesChain(fields, f5, f6, k, {"manufacturing_date", "fuel_type", "vehicle_model", "chassis_number", "owner_name"}, {"registered_address"});
  }

  lemma {:induction false} MeasuredPreserves(fields: Object, text: string, m: Matchers, k: string)
    ensures Preserves(fields, Measured(fields, text, m), k, {"mileage", "gross_weight", "engine_displacement"})
  {
    var f1 := FillGap(fields, "mileage", Number(m.capture(Mileage, text)));
    var f2 := FillGap(f1, "gross_weight", Number(m.capture(GrossWeight, text)));
    var f3 := FillGap(f2, "engine_displacement", Number(m.capture(EngineDisplacement, text)));
    FillGapPreserves(fields, "mileage", Number(m.capture(Mileage, text)), k);
    FillGapPreserves(f1, "gross_weight", Number(m.capture(GrossWeight, text)), k);
    PreservesChain(fields, f1, f2, k, {"mileage"}, {"gross_weight"});
    FillGapPreserves(f2, "engine_displacement", Number(m.capture(EngineDisplacement, text)), k);
    PreservesChain(fields, f2, f3, k, {"mileage", "gross_weight"}, {"engine_displacement"});
  }

  /** An empty manufacturing date takes the date the rule found. */
  lemma DescribedDate(fields: Object, text: string, m: Matchers)
    requires !Truthy(Get(fields, "manufacturing_date")) && m.date(ManufacturingDate, text).Some?
    ensures Some(Get(Described(fields, text, m), "manufacturing_date")) == Dated(m.date(ManufacturingDate, text))
  {
    var k := "manufacturing_date";
    var f1 := FillGap(fields, "manufacturing_date", Dated(m.date(ManufacturingDate, text)));
    var f2 := FillGap(f1, "fuel_type", Trimmed(m.capture(FuelType, text)));
    var f3 := FillGap(f2, "vehicle_model", Trimmed(m.capture(VehicleModel, text)));
    var f4 := FillGap(f3, "chassis_number", Trimmed(m.capture(ChassisNumber, text)));
    var f5 := FillGap(f4, "owner_name", Trimmed(m.capture(OwnerName, text)));
    FillGapPreserves(f1, "fuel_type", Trimmed(m.capture(FuelType, text)), k);
    FillGapPreserves(f2, "vehicle_model", Trimmed(m.capture(VehicleModel, text)), k);
    FillGapPreserves(f3, "chassis_number", Trimmed(m.capture(ChassisNumber, text)), k);
    FillGapPreserves(f4, "owner_name", Trimmed(m.capture(OwnerName, text)), k);
    FillGapPreserves(f5, "registered_address", Trimmed(m.capture(Address, text)), k);
  }

  /** Stamping leaves every other property alone. */
  lemma StampPreserves(fields: Object, docType: string, now: string, confidence: string, k: string)
    ensures k !in Stamped ==> Preserves(fields, Stamp(fields, docType, now, confidence), k, {})
  {
  }

  /** A truthy property survives a guarded assignment. */
  lemma FillGapKeeps(fields: Object, key: string, found: Option<JsValue>, k: string)
    requires k in fields && Truthy(fields[k])
    ensures k in FillGap(fields, key, found) && FillGap(fields, key, found)[k] == fields[k]
  {
  }

  /** What the stamp writes. */
  lemma StampReads(fields: Object, docType: string, now: string, confidence: string)
    ensures Get(Stamp(fields, docType, now, confidence), "document_type") == Str(docType)
    ensures Get(Stamp(fields, docType, now, confidence), "processed_at") == Str(now)
    ensures Get(Stamp(fields, docType, now, confidence), "confidence") == Str(confidence)
  {
  }

  /** Both halves together fill exactly the registration's nine text keys. */
  lemma RegistrationRulesFrame(fields: Object, text: string, m: Matchers, k: string)
    ensures Preserves(fields, Measured(Described(fields, text, m), text, m), k, RegistrationKeys)
  {
    var d := Described(fields, text, m);
    DescribedPreserves(fields, text, m, k);
    MeasuredPreserves(d, text, m, k);
    PreservesChain(fields, d, Measured(d, text, m), k,
      {"manufacturing_date", "fuel_type", "vehicle_model", "chassis_number", "owner_name", "registered_address"},
      {"mileage", "gross_weight", "engine_displacement"});
  }

  /** The plate rule's keys are none of the text rules' keys nor the stamped ones. */
  lemma PlateKeysApart()
    ensures "license_plate" !in RegistrationKeys && "license_plate" !in Stamped
    ensures PlateCompanions !! RegistrationKeys && PlateCompanions !! Stamped
  {
  }

  /** A truthy structured field is never overwritten, except the two plate
      companions, which the plate rule assigns together with the plate, and
      the three stamped keys. */
  lemma VehicleRegistrationKeeps(text: string, structured: Object, plate: Option<PlateRecognizer.PlateResult>, m: Matchers, now: string, k: string)
    requires k in structured && Truthy(structured[k]) && k !in PlateCompanions && k !in Stamped
    ensures k in VehicleRegistrationFields(text, structured, plate, m, now)
    ensures VehicleRegistrationFields(text, structured, plate, m, now)[k] == structured[k]
  {
    var plated := PlateGap(structured, plate);
    assert k in plated && plated[k] == structured[k];
    RegistrationRulesFrame(plated, text, m, k);
  }

  /** The result carries the document type, the processing time and 'high'
      confidence. */
  lemma VehicleRegistrationStamped(text: string, structured: Object, plate: Option<PlateRecognizer.PlateResult>, m: Matchers, now: string)
    ensures Get(VehicleRegistrationFields(text, structured, plate, m, now), "document_type") == Str("VEHICLE_REGISTRATION")
    ensures Get(VehicleRegistrationFields(text, structured, plate, m, now), "processed_at") == Str(now)
    ensures Get(VehicleRegistrationFields(text, structured, plate, m, now), "confidence") == Str("high")
  {
  }

  /** A missing plate is taken from the plate recognizer, with its confidence
      (as a fraction of the thousandths) and its source. */
  lemma VehicleRegistrationPlate(text: string, structured: Object, plate: Option<PlateRecognizer.PlateResult>, m: Matchers, now: string)
    requires !Truthy(Get(structured, "license_plate")) && plate.Some?
    ensures Get(VehicleRegistrationFields(text, structured, plate, m, now), "license_plate") == Str(plate.value.plate)
    ensures Get(VehicleRegistrationFields(text, structured, plate, m, now), "license_plate_confidence")
      == Num(Thousandths(plate.value.confidence))
    ensures plate.value.source.Some? ==>
      Get(VehicleRegistrationFields(text, structured, plate, m, now), "license_plate_source") == Str(plate.value.source.value)
  {
    var plated := PlateGap(structured, plate);
    PlateGapFills(structured, plate);
    PlateKeysApart();
    var filled := Measured(Described(plated, text, m), text, m);
    RegistrationRulesFrame(plated, text, m, "license_plate");
    RegistrationRulesFrame(plated, text, m, "license_plate_confidence");
    RegistrationRulesFrame(plated, text, m, "license_plate_source");
    StampPreserves(filled, "VEHICLE_REGISTRATION", now, "high", "license_plate");
    StampPreserves(filled, "VEHICLE_REGISTRATION", now, "high", "license_plate_confidence");
    StampPreserves(filled, "VEHICLE_REGISTRATION", now, "high", "license_plate_source");
  }

  /** A manufacturing date found in the text is written YYYY-MM-DD when the
      groups are digits of the pattern's lengths. */
  lemma VehicleRegistrationDate(text: string, structured: Object, plate: Option<PlateRecognizer.PlateResult>, m: Matchers, now: string)
    requires !Truthy(Get(structured, "manufacturing_date"))
    requires m.date(ManufacturingDate, text).Some?
    requires |m.date(ManufacturingDate, text).value.0| == 4 && AllDigits(m.date(ManufacturingDate, text).value.0)
    requires 1 <= |m.date(ManufacturingDate, text).value.1| <= 2 && AllDigits(m.date(ManufacturingDate, text).value.1)
    requires 1 <= |m.date(ManufacturingDate, text).value.2| <= 2 && AllDigits(m.date(ManufacturingDate, text).value.2)
    ensures Get(VehicleRegistrationFields(text, structured, plate, m, now), "manufacturing_date").Str?
    ensures IsoDateShape(Get(VehicleRegistrationFields(text, structured, plate, m, now), "manufacturing_date").s)
  {
    var plated := PlateGap(structured, plate);
    DescribedDate(plated, text, m);
    var d := Described(plated, text, m);
    MeasuredPreserves(d, text, m, "manufacturing_date");
    StampPreserves(Measured(d, text, m), "VEHICLE_REGISTRATION", now, "high", "manufacturing_date");
  }

  // ------------------------------------------------------------ ID card

  function IdCardFields(text: string, structured: Object, m: Matchers, now: string): Object {
    Stamp(CardFilled(structured, text, m), "ID_CARD", now, "medium")
  }

  /** `mapIdCardFields` */
  method MapIdCardFields(text: string, structured: Object, m: Matchers, now: string) returns (r: Object)
    ensures r == IdCardFields(text, structured, m, now)
  {
    var fields := TrimmedRule(structured, "name", m.capture(Name, text));
    if !Truthy(Get(fields, "birth_date")) {
      var g := m.capture(BirthDate, text);
      if g.Some? {
        fields := fields["birth_date" := Str(ResidentBirthDate(g.value))];
      }
    }
    fields := TrimmedRule(fields, "address", m.capture(Address, text));
    r := fields["document_type" := Str("ID_CARD")]["processed_at" := Str(now)]["confidence" := Str("medium")];
  }

  /** A truthy structured field survives. */
  lemma IdCardKeeps(text: string, structured: Object, m: Matchers, now: string, k: string)
    requires k in structured && Truthy(structured[k]) && k !in Stamped
    ensures k in IdCardFields(text, structured, m, now) && IdCardFields(text, structured, m, now)[k] == structured[k]
  {
  }

  /** An empty birth date is built from the resident-number prefix with the
      century rule, and the card is stamped with 'medium' confidence. */
  lemma IdCardBirthDate(text: string, structured: Object, m: Matchers, now: string)
    requires !Truthy(Get(structured, "birth_date"))
    requires m.capture(BirthDate, text).Some?
    ensures Get(IdCardFields(text, structured, m, now), "birth_date") == Str(ResidentBirthDate(m.capture(BirthDate, text).value))
    ensures Get(IdCardFields(text, structured, m, now), "confidence") == Str("medium")
  {
  }

  // ------------------------------------------------------------ delegation form

  function DelegationFormFields(text: string, structured: Object, m: Matchers, tp: Option<JsValue>, now: string): Object {
    Stamp(DelegationFilled(structured, text, m, tp), "DELEGATION_FORM", now, "medium")
  }

  /** `mapDelegationFormFields` */
  method MapDelegationFormFields(text: string, structured: Object, m: Matchers, now: string) returns (r: Object)
    ensures r == DelegationFormFields(text, structured, m, TextPlate(text), now)
  {
    var fields := TrimmedRule(structured, "delegator", m.capture(Delegator, text));
    fields := TrimmedRule(fields, "delegate", m.capture(Delegate, text));
    fields := TrimmedRule(fields, "purpose", m.capture(Purpose, text));
    fields := TextPlateRule(fields, "vehicle_number", text);
    fields := DateRule(fields, "delegation_date", m.date(DelegationDate, text));
    r := fields["document_type" := Str("DELEGATION_FORM")]["processed_at" := Str(now)]["confidence" := Str("medium")];
  }

  /** A truthy structured field survives. */
  lemma DelegationFormKeeps(text: string, structured: Object, m: Matchers, tp: Option<JsValue>, now: string, k: string)
    requires k in structured && Truthy(structured[k]) && k !in Stamped
    ensures k in DelegationFormFields(text, structured, m, tp, now)
    ensures DelegationFormFields(text, structured, m, tp, now)[k] == structured[k]
  {
    var f1 := FillGap(structured, "delegator", Trimmed(m.capture(Delegator, text)));
    var f2 := FillGap(f1, "delegate", Trimmed(m.capture(Delegate, text)));
    var f3 := FillGap(f2, "purpose", Trimmed(m.capture(Purpose, text)));
    var f4 := FillGap(f3, "vehicle_number", tp);
    FillGapKeeps(structured, "delegator", Trimmed(m.capture(Delegator, text)), k);
    FillGapKeeps(f1, "delegate", Trimmed(m.capture(Delegate, text)), k);
    FillGapKeeps(f2, "purpose", Trimmed(m.capture(Purpose, text)), k);
    FillGapKeeps(f3, "vehicle_number", tp, k);
    FillGapKeeps(f4, "delegation_date", Dated(m.date(DelegationDate, text)), k);
    StampPreserves(DelegationFilled(structured, text, m, tp), "DELEGATION_FORM", now, "medium", k);
  }

  /** An empty vehicle number becomes a valid plate recognised in the text
      when there is one. */
  lemma DelegationFormPlate(text: string, structured: Object, m: Matchers, now: string)
    requires !Truthy(Get(structured, "vehicle_number"))
    requires PlateRecognizer.TextResult(Str(text)).Some?
    ensures Get(DelegationFormFields(text, structured, m, TextPlate(text), now), "vehicle_number").Str?
    ensures PlateRecognizer.IsValidPlate(Get(DelegationFormFields(text, structured, m, TextPlate(text), now), "vehicle_number").s)
  {
    PlateRecognizer.TextResultValid(Str(text));
    DelegationPlateFilled(text, structured, m, TextPlate(text), now);
  }

  /** A gap in `vehicle_number` takes whatever plate the text rule found. */
  lemma DelegationPlateFilled(text: string, structured: Object, m: Matchers, tp: Option<JsValue>, now: string)
    requires !Truthy(Get(structured, "vehicle_number")) && tp.Some?
    ensures Get(DelegationFormFields(text, structured, m, tp, now), "vehicle_number") == tp.value
  {
    var f1 := FillGap(structured, "delegator", Trimmed(m.capture(Delegator, text)));
    var f2 := FillGap(f1, "delegate", Trimmed(m.capture(Delegate, text)));
    var f3 := FillGap(f2, "purpose", Trimmed(m.capture(Purpose, text)));
    var f4 := FillGap(f3, "vehicle_number", tp);
    var f5 := FillGap(f4, "delegation_date", Dated(m.date(DelegationDate, text)));
    assert Get(f3, "vehicle_number") == Get(structured, "vehicle_number");
    assert Get(f5, "vehicle_number") == tp.value;
    StampPreserves(f5, "DELEGATION_FORM", now, "medium", "vehicle_number");
  }

  // ------------------------------------------------------------ invoice

  function InvoiceFields(text: string, structured: Object, m: Matchers, tp: Option<JsValue>, now: string): Object {
    Stamp(InvoiceFilled(structured, text, m, tp), "INVOICE", now, "medium")
  }

  /** `mapInvoiceFields` */
  method MapInvoiceFields(text: string, structured: Object, m: Matchers, now: string) returns (r: Object)
    ensures r == InvoiceFields(text, structured, m, TextPlate(text), now)
  {
    var fields := TrimmedRule(structured, "company_name", m.capture(CompanyName, text));
    fields := TrimmedRule(fields, "item", m.capture(Item, text));
    fields := NumberRule(fields, "amount", m.capture(Amount, text));
    fields := TextPlateRule(fields, "vehicle_number", text);
    fields := DateRule(fields, "issue_date", m.date(IssueDate, text));
    r := fields["document_type" := Str("INVOICE")]["processed_at" := Str(now)]["confidence" := Str("medium")];
  }

  /** A truthy structured field survives. */
  lemma InvoiceKeeps(text: string, structured: Object, m: Matchers, tp: Option<JsValue>, now: string, k: string)
    requires k in structured && Truthy(structured[k]) && k !in Stamped
    ensures k in InvoiceFields(text, structured, m, tp, now) && InvoiceFields(text, structured, m, tp, now)[k] == structured[k]
  {
    var f1 := FillGap(structured, "company_name", Trimmed(m.capture(CompanyName, text)));
    var f2 := FillGap(f1, "item", Trimmed(m.capture(Item, text)));
    var f3 := FillGap(f2, "amount", Number(m.capture(Amount, text)));
    var f4 := FillGap(f3, "vehicle_number", tp);
    FillGapKeeps(structured, "company_name", Trimmed(m.capture(CompanyName, text)), k);
    FillGapKeeps(f1, "item", Trimmed(m.capture(Item, text)), k);
    FillGapKeeps(f2, "amount", Number(m.capture(Amount, text)), k);
    FillGapKeeps(f3, "vehicle_number", tp, k);
    FillGapKeeps(f4, "issue_date", Dated(m.date(IssueDate, text)), k);
    StampPreserves(InvoiceFilled(structured, text, m, tp), "INVOICE", now, "medium", k);
  }

  /** An empty amount takes the value of the captured digits without
      thousands separators. */
  lemma InvoiceAmount(text: string, structured: Object, m: Matchers, tp: Option<JsValue>, now: string)
    requires !Truthy(Get(structured, "amount"))
    requires m.capture(Amount, text).Some?
    ensures Get(InvoiceFields(text, structured, m, tp, now), "amount") == ParseIntValue(RemoveCommas(m.capture(Amount, text).value))
  {
  }

  // ------------------------------------------------------------ dispatch

  /** The input shapes the mapper is written for: an object whose `text` is
      a string when truthy and whose `structured_fields` is an object when
      truthy, or a string, or anything else (read as no text). */
  predicate InputShape(ocr: JsValue) {
    ocr.Obj? ==>
      (Truthy(Get(ocr.props, "text")) ==> Get(ocr.props, "text").Str?)
      && (Truthy(Get(ocr.props, "structured_fields")) ==> Get(ocr.props, "structured_fields").Obj?)
  }

  /** `ocrResult.text || ''` for an object, the string itself, or ''. */
  function TextOf(ocr: JsValue): (r: string)
    requires InputShape(ocr)
    ensures ocr.Str? ==> r == ocr.s
    ensures !ocr.Str? && !ocr.Obj? ==> r == ""
    ensures ocr.Obj? ==> r == (if Truthy(Get(ocr.props, "text")) then Get(ocr.props, "text").s else "")
  {
    match ocr
    case Obj(o) => if Truthy(Get(o, "text")) then Get(o, "text").s else ""
    case Str(s) => s
    case _ => ""
  }

  /** `ocrResult.structured_fields || {}` for an object, `{}` otherwise. */
  function StructuredOf(ocr: JsValue): (r: Object)
    requires InputShape(ocr)
    ensures !ocr.Obj? ==> r == map[]
    ensures ocr.Obj? && !Truthy(Get(ocr.props, "structured_fields")) ==> r == map[]
    ensures ocr.Obj? && Truthy(Get(ocr.props, "structured_fields")) ==> r == Get(ocr.props, "structured_fields").props
  {
    match ocr
    case Obj(o) => if Truthy(Get(o, "structured_fields")) then Get(o, "structured_fields").props else map[]
    case _ => map[]
  }

  /** The text and the structured fields of an OCR result. */
  method SplitInput(ocr: JsValue) returns (text: string, structured: Object)
    requires InputShape(ocr)
    ensures text == TextOf(ocr) && structured == StructuredOf(ocr)
  {
    text := "";
    structured := map[];
    if ocr.Obj? {
      var t := Get(ocr.props, "text");
      text := if Truthy(t) then t.s else "";
      var sf := Get(ocr.props, "structured_fields");
      structured := if Truthy(sf) then sf.props else map[];
    } else if ocr.Str? {
      text := ocr.s;
    }
  }

  /** What `mapFieldsByDocumentType` returns for a document type. */
  function DocumentFields(docType: string, text: string, structured: Object, filename: JsValue, m: Matchers, now: string): Object {
    if docType == "VEHICLE_REGISTRATION" then VehicleRegistrationFields(text, structured, PlateRecognizer.Combined(Str(text), FilenameArg(filename)), m, now)
    else if docType == "ID_CARD" then IdCardFields(text, structured, m, now)
    else if docType == "DELEGATION_FORM" then DelegationFormFields(text, structured, m, TextPlate(text), now)
    else if docType == "INVOICE" then InvoiceFields(text, structured, m, TextPlate(text), now)
    else map["raw_text" := Str(text), "document_type" := Str(docType), "processed_at" := Str(now)]
  }

  /** `mapFieldsByDocumentType`: splits the input into text and structured
      fields and dispatches on the document type. */
  method MapFieldsByDocumentType(docType: string, ocr: JsValue, filename: JsValue, m: Matchers, now: string) returns (r: Object)
    requires InputShape(ocr)
    ensures r == DocumentFields(docType, TextOf(ocr), StructuredOf(ocr), filename, m, now)
  {
    var text, structured := SplitInput(ocr);
    if docType == "VEHICLE_REGISTRATION" {
      r := MapVehicleRegistrationFields(text, structured, FilenameArg(filename), m, now);
    } else if docType == "ID_CARD" {
      r := MapIdCardFields(text, structured, m, now);
    } else if docType == "DELEGATION_FORM" {
      r := MapDelegationFormFields(text, structured, m, now);
    } else if docType == "INVOICE" {
      r := MapInvoiceFields(text, structured, m, now);
    } else {
      r := map["raw_text" := Str(text), "document_type" := Str(docType), "processed_at" := Str(now)];
    }
  }

  /** Every known document type yields its own type, the processing time and
      its confidence: 'high' for a registration, 'medium' otherwise. An
      unknown type yields exactly the raw text, the type and the time. */
  lemma DocumentStamped(docType: string, text: string, structured: Object, filename: JsValue, m: Matchers, now: string)
    ensures Get(DocumentFields(docType, text, structured, filename, m, now), "document_type") == Str(docType)
    ensures Get(DocumentFields(docType, text, structured, filename, m, now), "processed_at") == Str(now)
    ensures docType in {"VEHICLE_REGISTRATION", "ID_CARD", "DELEGATION_FORM", "INVOICE"} ==>
      Get(DocumentFields(docType, text, structured, filename, m, now), "confidence")
        == Str(if docType == "VEHICLE_REGISTRATION" then "high" else "medium")
    ensures docType !in {"VEHICLE_REGISTRATION", "ID_CARD", "DELEGATION_FORM", "INVOICE"} ==>
      DocumentFields(docType, text, structured, filename, m, now).Keys == {"raw_text", "document_type", "processed_at"}
      && Get(DocumentFields(docType, text, structured, filename, m, now), "raw_text") == Str(text)
  {
    if docType == "VEHICLE_REGISTRATION" {
      var plate := PlateRecognizer.Combined(Str(text), FilenameArg(filename));
      StampReads(Measured(Described(PlateGap(structured, plate), text, m), text, m), docType, now, "high");
    } else if docType == "ID_CARD" {
      StampReads(CardFilled(structured, text, m), docType, now, "medium");
    } else if docType == "DELEGATION_FORM" {
      StampReads(DelegationFilled(structured, text, m, TextPlate(text)), docType, now, "medium");
    } else if docType == "INVOICE" {
      StampReads(InvoiceFilled(structured, text, m, TextPlate(text)), docType, now, "medium");
    }
  }
}
