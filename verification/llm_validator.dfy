/** The rule-based side of the LLM validator: the quality checks on mapped
    vehicle-registration fields (errors and warnings), the high/medium/low
    confidence grade, reading the model's JSON verdict back onto the fields,
    and choosing which locally installed model to ask. The model round-trip
    itself is not part of this module. */
module LlmValidator {
  import opened Js
  import opened Text
  import opened Shapes
  import Normalize

  const VehicleDocument := "VEHICLE_REGISTRATION"

  /** What the checks take from outside the fields: the current local year,
      the local year `new Date(v).getFullYear()` gives for a field value
      (none for an invalid date), and the text `String(n)` gives for a
      non-integral number. */
  datatype Env = Env(currentYear: int, yearOf: JsValue -> Option<int>, numText: real -> string)

  // ------------------------------------------------------------ the checks

  /** One check of `validateExtractedFields`. */
  datatype Issue =
    | PlateFormat
    | ManufacturingDate
    | VinLength
    | OwnerNameFormat
    | MissingRequired
    | VinCharacters
    | BirthDateRange
    | MileageRange
    | WeightRange
    | DisplacementRange
    | FuelType

  /** The checks that push onto `errors`; the others push onto `warnings`. */
  predicate IsErrorCheck(i: Issue) {
    i.PlateFormat? || i.ManufacturingDate? || i.VinLength? || i.OwnerNameFormat? || i.MissingRequired?
  }

  const RequiredFields: seq<string> := ["license_plate", "owner_name"]

  const ValidFuels: seq<string> := ["휘발유", "경유", "LPG", "전기", "하이브리드", "CNG"]

  /** `v.length`: strings and arrays have one, an object may carry one,
      anything else reads `undefined`. */
  function LengthOf(v: JsValue): JsValue {
    match v
    case Str(s) => IntNum(|s|)
    case Arr(items) => IntNum(|items|)
    case Obj(m) => Get(m, "length")
    case _ => Undefined
  }

  /** `/^[가-힣]{2,5}$/`: two to five Hangul syllables. */
  predicate HangulName(s: string) {
    2 <= |s| <= 5 && AllHangul(s)
  }

  /** `parseInt(v)`, without a radix, is NaN or lies outside [lo, hi]. */
  predicate OutOfRange(v: JsValue, env: Env, lo: int, hi: int) {
    match ParseIntAuto(ToJsString(v, env.numText))
    case None => true
    case Some(n) => n < lo || n > hi
  }

  /** `new Date(v)` is invalid or its year lies outside [lo, hi]. */
  predicate YearOutside(v: JsValue, env: Env, lo: int, hi: int) {
    match env.yearOf(v)
    case None => true
    case Some(y) => y < lo || y > hi
  }

  /** `keys.filter(field => !fields[field])`: the keys whose value is falsy,
      in order. */
  function Missing(fields: Object, keys: seq<string>): (r: seq<string>)
    ensures |r| <= |keys|
    ensures forall k :: k in r <==> k in keys && !Truthy(Get(fields, k))
  {
    if keys == [] then []
    else (if Truthy(Get(fields, keys[0])) then [] else [keys[0]]) + Missing(fields, keys[1..])
  }

  /** `fields.license_plate.replace(...)` needs a string whenever the plate
      is set. */
  predicate PlateIsText(fields: Object) {
    Truthy(Get(fields, "license_plate")) ==> Get(fields, "license_plate").Str?
  }

  // Each check's condition, as the source states it.

  /** The plate, with white space removed, is not digits-syllable-digits. */
  predicate PlateBad(fields: Object) {
    var p := Get(fields, "license_plate");
    Truthy(p) && p.Str? && !PlateShape(StripSpaces(p.s))
  }

  /** The manufacturing date is invalid or its year is before 1980 or after
      the current year. */
  predicate MadeBad(fields: Object, env: Env) {
    var m := Get(fields, "manufacturing_date");
    Truthy(m) && YearOutside(m, env, 1980, env.currentYear)
  }

  /** The chassis number does not have 17 characters. */
  predicate VinWrongLength(fields: Object) {
    var c := Get(fields, "chassis_number");
    Truthy(c) && LengthOf(c) != IntNum(17)
  }

  /** The owner name is not two to five Hangul syllables. */
  predicate NameBad(fields: Object, env: Env) {
    var o := Get(fields, "owner_name");
    Truthy(o) && !HangulName(ToJsString(o, env.numText))
  }

  predicate RequiredMissing(fields: Object) {
    Missing(fields, RequiredFields) != []
  }

  /** The chassis number has 17 characters, not all of the VIN alphabet. */
  predicate VinOddChars(fields: Object, env: Env) {
    var c := Get(fields, "chassis_number");
    Truthy(c) && LengthOf(c) == IntNum(17) && !VinShape(ToJsString(c, env.numText))
  }

  /** The birth date is invalid or gives an age, by calendar year, under 18
      or over 100. */
  predicate BirthOdd(fields: Object, env: Env) {
    var b := Get(fields, "birth_date");
    Truthy(b) && YearOutside(b, env, env.currentYear - 100, env.currentYear - 18)
  }

  predicate MileageOdd(fields: Object, env: Env) {
    var v := Get(fields, "mileage");
    Truthy(v) && OutOfRange(v, env, 0, 1000000)
  }

  predicate WeightOdd(fields: Object, env: Env) {
    var v := Get(fields, "gross_weight");
    Truthy(v) && OutOfRange(v, env, 500, 50000)
  }

  predicate DisplacementOdd(fields: Object, env: Env) {
    var v := Get(fields, "engine_displacement");
    Truthy(v) && OutOfRange(v, env, 50, 8000)
  }

  /** The fuel is set but is not one of the six standard names. */
  predicate FuelOdd(fields: Object) {
    var f := Get(fields, "fuel_type");
    Truthy(f) && !(f.Str? && f.s in ValidFuels)
  }

  /** Whether a check fires on the fields. */
  predicate Raised(fields: Object, env: Env, i: Issue) {
    match i
    case PlateFormat => PlateBad(fields)
    case ManufacturingDate => MadeBad(fields, env)
    case VinLength => VinWrongLength(fields)
    case OwnerNameFormat => NameBad(fields, env)
    case MissingRequired => RequiredMissing(fields)
    case VinCharacters => VinOddChars(fields, env)
    case BirthDateRange => BirthOdd(fields, env)
    case MileageRange => MileageOdd(fields, env)
    case WeightRange => WeightOdd(fields, env)
    case DisplacementRange => DisplacementOdd(fields, env)
    case FuelType => FuelOdd(fields)
  }

  const MissingPrefix := "필수 필드가 누락됨: "

  /** The text a check pushes. */
  function Message(fields: Object, i: Issue): string {
    match i
    case PlateFormat => "차량번호 형식이 올바르지 않습니다"
    case ManufacturingDate => "제조연일이 올바르지 않습니다"
    case VinLength => "차대번호는 17자리여야 합니다"
    case OwnerNameFormat => "성명은 2-5자의 한글이어야 합니다"
    case MissingRequired => MissingPrefix + Join(Missing(fields, RequiredFields), ", ")
    case VinCharacters => "차대번호에 유효하지 않은 문자가 포함되어 있을 수 있습니다"
    case BirthDateRange => "생년월일이 일반적인 범위를 벗어납니다"
    case MileageRange => "주행거리가 일반적인 범위를 벗어납니다"
    case WeightRange => "총중량이 일반적인 범위를 벗어납니다"
    case DisplacementRange => "배기량이 일반적인 범위를 벗어납니다"
    case FuelType => "연료 타입을 표준 형식으로 확인해주세요"
  }

  /** `i` when `fires`, nothing otherwise. */
  function Raise(fires: bool, i: Issue): seq<Issue> {
    if fires then [i] else []
  }

  /** The error checks that fire for a document, in the order they run. */
  function ErrorIssues(fields: Object, documentType: string, env: Env): seq<Issue> {
    if documentType != VehicleDocument then []
    else
      Raise(PlateBad(fields), PlateFormat) + Raise(MadeBad(fields, env), ManufacturingDate)
      + Raise(VinWrongLength(fields), VinLength) + Raise(NameBad(fields, env), OwnerNameFormat)
      + Raise(RequiredMissing(fields), MissingRequired)
  }

  /** The warning checks that fire for a document, in the order they run. */
  function WarningIssues(fields: Object, documentType: string, env: Env): seq<Issue> {
    if documentType != VehicleDocument then []
    else
      Raise(VinOddChars(fields, env), VinCharacters) + Raise(BirthOdd(fields, env), BirthDateRange)
      + Raise(MileageOdd(fields, env), MileageRange) + Raise(WeightOdd(fields, env), WeightRange)
      + Raise(DisplacementOdd(fields, env), DisplacementRange) + Raise(FuelOdd(fields), FuelType)
  }

  /** A vehicle registration raises exactly the error checks whose condition
      holds; any other document raises none. */
  lemma ErrorsExactly(fields: Object, documentType: string, env: Env, i: Issue)
    ensures i in ErrorIssues(fields, documentType, env)
      <==> documentType == VehicleDocument && IsErrorCheck(i) && Raised(fields, env, i)
  {
    if documentType == VehicleDocument {
      var a, b, c, d, e := Raise(PlateBad(fields), PlateFormat), Raise(MadeBad(fields, env), ManufacturingDate),
        Raise(VinWrongLength(fields), VinLength), Raise(NameBad(fields, env), OwnerNameFormat),
        Raise(RequiredMissing(fields), MissingRequired);
      assert i in a + b + c + d + e <==> i in a || i in b || i in c || i in d || i in e;
    }
  }

  /** A vehicle registration raises exactly the warning checks whose
      condition holds; any other document raises none. */
  lemma WarningsExactly(fields: Object, documentType: string, env: Env, i: Issue)
    ensures i in WarningIssues(fields, documentType, env)
      <==> documentType == VehicleDocument && !IsErrorCheck(i) && Raised(fields, env, i)
  {
    if documentType == VehicleDocument {
      var a, b, c, d, e, f := Raise(VinOddChars(fields, env), VinCharacters), Raise(BirthOdd(fields, env), BirthDateRange),
        Raise(MileageOdd(fields, env), MileageRange), Raise(WeightOdd(fields, env), WeightRange),
        Raise(DisplacementOdd(fields, env), DisplacementRange), Raise(FuelOdd(fields), FuelType);
      assert i in a + b + c + d + e + f <==> i in a || i in b || i in c || i in d || i in e || i in f;
    }
  }

  /** The missing-field error, when it fires, is the last error and the only
      one of its kind. */
  lemma MissingRequiredOnce(fields: Object, env: Env)
    requires RequiredMissing(fields)
    ensures var r := ErrorIssues(fields, VehicleDocument, env);
      |r| > 0 && r[|r| - 1] == MissingRequired && MissingRequired !in r[..|r| - 1]
  {
    var r := ErrorIssues(fields, VehicleDocument, env);
    var p := Raise(PlateBad(fields), PlateFormat) + Raise(MadeBad(fields, env), ManufacturingDate)
             + Raise(VinWrongLength(fields), VinLength) + Raise(NameBad(fields, env), OwnerNameFormat);
    assert r == p + [MissingRequired];
    assert r[..|r| - 1] == p;
  }

  function Messages(fields: Object, issues: seq<Issue>): (r: seq<string>)
    ensures |r| == |issues| && forall k :: 0 <= k < |r| ==> r[k] == Message(fields, issues[k])
  {
    seq(|issues|, k requires 0 <= k < |issues| => Message(fields, issues[k]))
  }

  lemma MessagesAppend(fields: Object, a: seq<Issue>, b: seq<Issue>)
    ensures Messages(fields, a + b) == Messages(fields, a) + Messages(fields, b)
  {
  }

  /** `msg` when `fires`, nothing otherwise. */
  function Say(fires: bool, msg: string): seq<string> {
    if fires then [msg] else []
  }

  lemma MessagesOfRaise(fields: Object, fires: bool, i: Issue)
    ensures Messages(fields, Raise(fires, i)) == Say(fires, Message(fields, i))
  {
  }

  lemma MessagesOfFive(fields: Object, a: seq<Issue>, b: seq<Issue>, c: seq<Issue>, d: seq<Issue>, e: seq<Issue>)
    ensures Messages(fields, a + b + c + d + e)
      == Messages(fields, a) + Messages(fields, b) + Messages(fields, c) + Messages(fields, d) + Messages(fields, e)
  {
    MessagesAppend(fields, a + b + c + d, e);
    MessagesAppend(fields, a + b + c, d);
    MessagesAppend(fields, a + b, c);
    MessagesAppend(fields, a, b);
  }

  lemma MessagesOfSix(fields: Object, a: seq<Issue>, b: seq<Issue>, c: seq<Issue>, d: seq<Issue>, e: seq<Issue>,
                      f: seq<Issue>)
    ensures Messages(fields, a + b + c + d + e + f)
      == Messages(fields, a) + Messages(fields, b) + Messages(fields, c) + Messages(fields, d) + Messages(fields, e)
         + Messages(fields, f)
  {
    MessagesAppend(fields, a + b + c + d + e, f);
    MessagesOfFive(fields, a, b, c, d, e);
  }

  lemma ErrorsInTurn(fields: Object, env: Env)
    ensures Messages(fields, ErrorIssues(fields, VehicleDocument, env))
      == Say(PlateBad(fields), "차량번호 형식이 올바르지 않습니다")
         + Say(MadeBad(fields, env), "제조연일이 올바르지 않습니다")
         + Say(VinWrongLength(fields), "차대번호는 17자리여야 합니다")
         + Say(NameBad(fields, env), "성명은 2-5자의 한글이어야 합니다")
         + Say(RequiredMissing(fields), MissingPrefix + Join(Missing(fields, RequiredFields), ", "))
  {
    var a, b, c, d, e := Raise(PlateBad(fields), PlateFormat), Raise(MadeBad(fields, env), ManufacturingDate),
      Raise(VinWrongLength(fields), VinLength), Raise(NameBad(fields, env), OwnerNameFormat),
      Raise(RequiredMissing(fields), MissingRequired);
    MessagesOfFive(fields, a, b, c, d, e);
    MessagesOfRaise(fields, PlateBad(fields), PlateFormat);
    MessagesOfRaise(fields, MadeBad(fields, env), ManufacturingDate);
    MessagesOfRaise(fields, VinWrongLength(fields), VinLength);
    MessagesOfRaise(fields, NameBad(fields, env), OwnerNameFormat);
    MessagesOfRaise(fields, RequiredMissing(fields), MissingRequired);
  }

  lemma WarningTexts(fields: Object, a: bool, b: bool, c: bool, d: bool, e: bool, f: bool)
    ensures Messages(fields, Raise(a, VinCharacters) + Raise(b, BirthDateRange) + Raise(c, MileageRange)
                             + Raise(d, WeightRange) + Raise(e, DisplacementRange) + Raise(f, FuelType))
      == Say(a, "차대번호에 유효하지 않은 문자가 포함되어 있을 수 있습니다")
         + Say(b, "생년월일이 일반적인 범위를 벗어납니다")
         + Say(c, "주행거리가 일반적인 범위를 벗어납니다")
         + Say(d, "총중량이 일반적인 범위를 벗어납니다")
         + Say(e, "배기량이 일반적인 범위를 벗어납니다")
         + Say(f, "연료 타입을 표준 형식으로 확인해주세요")
  {
    MessagesOfSix(fields, Raise(a, VinCharacters), Raise(b, BirthDateRange), Raise(c, MileageRange),
                  Raise(d, WeightRange), Raise(e, DisplacementRange), Raise(f, FuelType));
    MessagesOfRaise(fields, a, VinCharacters);
    MessagesOfRaise(fields, b, BirthDateRange);
    MessagesOfRaise(fields, c, MileageRange);
    MessagesOfRaise(fields, d, WeightRange);
    MessagesOfRaise(fields, e, DisplacementRange);
    MessagesOfRaise(fields, f, FuelType);
  }

  lemma WarningsInTurn(fields: Object, env: Env)
    ensures Messages(fields, WarningIssues(fields, VehicleDocument, env))
      == Say(VinOddChars(fields, env), "차대번호에 유효하지 않은 문자가 포함되어 있을 수 있습니다")
         + Say(BirthOdd(fields, env), "생년월일이 일반적인 범위를 벗어납니다")
         + Say(MileageOdd(fields, env), "주행거리가 일반적인 범위를 벗어납니다")
         + Say(WeightOdd(fields, env), "총중량이 일반적인 범위를 벗어납니다")
         + Say(DisplacementOdd(fields, env), "배기량이 일반적인 범위를 벗어납니다")
         + Say(FuelOdd(fields), "연료 타입을 표준 형식으로 확인해주세요")
  {
    WarningTexts(fields, VinOddChars(fields, env), BirthOdd(fields, env), MileageOdd(fields, env),
                 WeightOdd(fields, env), DisplacementOdd(fields, env), FuelOdd(fields));
  }

  /** `validateExtractedFields`: for a vehicle registration, the error
      checks push their messages onto `errors` and the warning checks onto
      `warnings`, each in turn; any other document gets neither. */
  method ValidateExtractedFields(fields: Object, documentType: string, env: Env)
    returns (errors: seq<string>, warnings: seq<string>)
    requires PlateIsText(fields)
    ensures errors == Messages(fields, ErrorIssues(fields, documentType, env))
    ensures warnings == Messages(fields, WarningIssues(fields, documentType, env))
    ensures documentType != VehicleDocument ==> errors == [] && warnings == []
  {
    errors := [];
    warnings := [];
    if documentType == VehicleDocument {
      errors := CheckPlate(fields, errors);
      ghost var e1 := errors;
      errors := CheckManufacturingDate(fields, env, errors);
      ghost var e2 := errors;
      errors, warnings := CheckChassis(fields, env, errors, warnings);
      ghost var e3, w1 := errors, warnings;
      errors := CheckOwnerName(fields, env, errors);
      ghost var e4 := errors;
      warnings := CheckBirthDate(fields, env, warnings);
      ghost var w2 := warnings;
      warnings := CheckRange(Get(fields, "mileage"), env, 0, 1000000, "주행거리가 일반적인 범위를 벗어납니다", warnings);
      ghost var w3 := warnings;
      warnings := CheckRange(Get(fields, "gross_weight"), env, 500, 50000, "총중량이 일반적인 범위를 벗어납니다", warnings);
      ghost var w4 := warnings;
      warnings := CheckRange(Get(fields, "engine_displacement"), env, 50, 8000, "배기량이 일반적인 범위를 벗어납니다", warnings);
      ghost var w5 := warnings;
      warnings := CheckFuel(fields, warnings);
      errors := CheckRequired(fields, errors);
      assert e1 == Say(PlateBad(fields), "차량번호 형식이 올바르지 않습니다");
      assert w1 == Say(VinOddChars(fields, env), "차대번호에 유효하지 않은 문자가 포함되어 있을 수 있습니다");
      ErrorsInTurn(fields, env);
      WarningsInTurn(fields, env);
    }
  }

  // One method per numbered check of `validateExtractedFields`.

  method CheckPlate(fields: Object, errors: seq<string>) returns (r: seq<string>)
    requires PlateIsText(fields)
    ensures r == errors + Say(PlateBad(fields), "차량번호 형식이 올바르지 않습니다")
  {
    r := errors;
    var plate := Get(fields, "license_plate");
    if Truthy(plate) {
      if !PlateShape(StripSpaces(plate.s)) {
        r := r + ["차량번호 형식이 올바르지 않습니다"];
      }
    }
  }

  method CheckManufacturingDate(fields: Object, env: Env, errors: seq<string>) returns (r: seq<string>)
    ensures r == errors + Say(MadeBad(fields, env), "제조연일이 올바르지 않습니다")
  {
    r := errors;
    var made := Get(fields, "manufacturing_date");
    if Truthy(made) {
      var year := env.yearOf(made);
      if year.None? || year.value < 1980 || year.value > env.currentYear {
        r := r + ["제조연일이 올바르지 않습니다"];
      }
    }
  }

  method CheckChassis(fields: Object, env: Env, errors: seq<string>, warnings: seq<string>)
    returns (e: seq<string>, w: seq<string>)
    ensures e == errors + Say(VinWrongLength(fields), "차대번호는 17자리여야 합니다")
    ensures w == warnings + Say(VinOddChars(fields, env), "차대번호에 유효하지 않은 문자가 포함되어 있을 수 있습니다")
  {
    e, w := errors, warnings;
    var chassis := Get(fields, "chassis_number");
    if Truthy(chassis) {
      if LengthOf(chassis) != IntNum(17) {
        e := e + ["차대번호는 17자리여야 합니다"];
      } else if !VinShape(ToJsString(chassis, env.numText)) {
        w := w + ["차대번호에 유효하지 않은 문자가 포함되어 있을 수 있습니다"];
      }
    }
  }

  method CheckOwnerName(fields: Object, env: Env, errors: seq<string>) returns (r: seq<string>)
    ensures r == errors + Say(NameBad(fields, env), "성명은 2-5자의 한글이어야 합니다")
  {
    r := errors;
    var owner := Get(fields, "owner_name");
    if Truthy(owner) {
      if !HangulName(ToJsString(owner, env.numText)) {
        r := r + ["성명은 2-5자의 한글이어야 합니다"];
      }
    }
  }

  method CheckBirthDate(fields: Object, env: Env, warnings: seq<string>) returns (r: seq<string>)
    ensures r == warnings + Say(BirthOdd(fields, env), "생년월일이 일반적인 범위를 벗어납니다")
  {
    r := warnings;
    var birth := Get(fields, "birth_date");
    if Truthy(birth) {
      var year := env.yearOf(birth);
      if year.None? || env.currentYear - year.value < 18 || env.currentYear - year.value > 100 {
        r := r + ["생년월일이 일반적인 범위를 벗어납니다"];
      }
    }
  }

  /** The mileage, weight and displacement checks: `parseInt` of the value
      must be a number within [lo, hi]. */
  method CheckRange(v: JsValue, env: Env, lo: int, hi: int, msg: string, warnings: seq<string>)
    returns (r: seq<string>)
    ensures r == warnings + Say(Truthy(v) && OutOfRange(v, env, lo, hi), msg)
  {
    r := warnings;
    if Truthy(v) {
      var n := ParseIntAuto(ToJsString(v, env.numText));
      if n.None? || n.value < lo || n.value > hi {
        r := r + [msg];
      }
    }
  }

  /** A mileage written in hexadecimal is read as such: "0x2000000" is
      33554432 km and draws the warning, where a decimal reading would see
      0 and stay silent. */
  lemma HexMileageWarns(env: Env)
    ensures OutOfRange(Str("0x2000000"), env, 0, 1000000)
    ensures !(match ParseInt("0x2000000") case None => true case Some(n) => n < 0 || n > 1000000)
  {
    var h := "2000000";
    assert "0x2000000" == "0x" + h;
    HexDigitsOfTwo(h);
    HexLiteralRead(h);
    assert ToJsString(Str("0x2000000"), env.numText) == "0x2000000";
    assert ParseIntAuto("0x2000000") == Some(33554432);
  }

  /** The hexadecimal digits "2000000" stand for 2 * 16^6. */
  lemma HexDigitsOfTwo(h: string)
    requires h == "2000000"
    ensures AllHexDigits(h) && HexValue(h) == 33554432
  {
    assert "2"[..0] == "";
    assert HexValue("2") == 2;
    assert "20"[..1] == "2";
    assert HexValue("20") == 32;
    assert "200"[..2] == "20";
    assert HexValue("200") == 512;
    assert "2000"[..3] == "200";
    assert HexValue("2000") == 8192;
    assert "20000"[..4] == "2000";
    assert HexValue("20000") == 131072;
    assert "200000"[..5] == "20000";
    assert HexValue("200000") == 2097152;
    assert h[..6] == "200000";
  }

  method CheckFuel(fields: Object, warnings: seq<string>) returns (r: seq<string>)
    ensures r == warnings + Say(FuelOdd(fields), "연료 타입을 표준 형식으로 확인해주세요")
  {
    r := warnings;
    var fuel := Get(fields, "fuel_type");
    if Truthy(fuel) {
      if !(fuel.Str? && fuel.s in ValidFuels) {
        r := r + ["연료 타입을 표준 형식으로 확인해주세요"];
      }
    }
  }

  method CheckRequired(fields: Object, errors: seq<string>) returns (r: seq<string>)
    ensures r == errors + Say(RequiredMissing(fields), MissingPrefix + Join(Missing(fields, RequiredFields), ", "))
  {
    r := errors;
    var missing := Missing(fields, RequiredFields);
    if |missing| > 0 {
      r := r + [MissingPrefix + Join(missing, ", ")];
    }
  }

  // ------------------------------------------------------------ confidence

  const ExpectedFields: seq<string> := [
    "license_plate", "vehicle_model", "manufacturing_date", "chassis_number",
    "registered_address", "owner_name", "birth_date", "mileage",
    "gross_weight", "engine_displacement", "fuel_type"
  ]

  const NoInfo := "정보없음"

  /** A field counts as extracted when it is truthy and not the "no
      information" placeholder. */
  predicate Extracted(fields: Object, k: string) {
    Truthy(Get(fields, k)) && Get(fields, k) != Str(NoInfo)
  }

  /** `keys.filter(field => fields[field] && fields[field] !== '정보없음')` */
  function ExtractedKeys(fields: Object, keys: seq<string>): (r: seq<string>)
    ensures |r| <= |keys|
    ensures forall k :: k in r <==> k in keys && Extracted(fields, k)
  {
    if keys == [] then []
    else (if Extracted(fields, keys[0]) then [keys[0]] else []) + ExtractedKeys(fields, keys[1..])
  }

  /** How many of the eleven expected fields were extracted. */
  function ExtractedCount(fields: Object): (n: nat)
    ensures n <= |ExpectedFields|
  {
    |ExtractedKeys(fields, ExpectedFields)|
  }

  /** `calculateConfidence`: for a vehicle registration, "high" takes eight
      extracted fields and no error, "medium" five fields and at most one
      error, anything less is "low"; other documents are "medium". */
  function Confidence(fields: Object, documentType: string, errors: seq<string>): (r: string)
    ensures documentType != VehicleDocument ==> r == "medium"
    ensures documentType == VehicleDocument ==>
      && (r == "high" <==> ExtractedCount(fields) >= 8 && |errors| == 0)
      && (r == "medium" <==> ExtractedCount(fields) >= 5 && |errors| <= 1
                             && !(ExtractedCount(fields) >= 8 && |errors| == 0))
      && (r == "low" <==> ExtractedCount(fields) < 5 || |errors| > 1)
  {
    if documentType == VehicleDocument then
      var extractedCount := ExtractedCount(fields);
      var errorCount := |errors|;
      if extractedCount >= 8 && errorCount == 0 then "high"
      else if extractedCount >= 5 && errorCount <= 1 then "medium"
      else "low"
    else "medium"
  }

  /** The grades in order: low, medium, high. */
  function Rank(grade: string): nat {
    if grade == "high" then 2 else if grade == "medium" then 1 else 0
  }

  /** More errors never raise the grade. */
  lemma ConfidenceFallsWithErrors(fields: Object, documentType: string, fewer: seq<string>, more: seq<string>)
    requires |fewer| <= |more|
    ensures Rank(Confidence(fields, documentType, more)) <= Rank(Confidence(fields, documentType, fewer))
  {
  }

  /** Whatever one set of fields has extracted, a richer one has too, so
      it counts at least as many. */
  lemma {:induction false} ExtractedGrows(fewer: Object, more: Object, keys: seq<string>)
    requires forall k :: Extracted(fewer, k) ==> Extracted(more, k)
    ensures |ExtractedKeys(fewer, keys)| <= |ExtractedKeys(more, keys)|
  {
    if keys != [] {
      ExtractedGrows(fewer, more, keys[1..]);
    }
  }

  /** Extracting more fields never lowers the grade. */
  lemma ConfidenceRisesWithFields(fewer: Object, more: Object, documentType: string, errors: seq<string>)
    requires forall k :: Extracted(fewer, k) ==> Extracted(more, k)
    ensures Rank(Confidence(fewer, documentType, errors)) <= Rank(Confidence(more, documentType, errors))
  {
    ExtractedGrows(fewer, more, ExpectedFields);
  }

  /** A plate or owner-name error from the rule checks rules out a "high"
      grade. */
  lemma ErrorForbidsHigh(fields: Object, env: Env)
    requires PlateBad(fields) || NameBad(fields, env)
    ensures Confidence(fields, VehicleDocument, Messages(fields, ErrorIssues(fields, VehicleDocument, env))) != "high"
  {
    ErrorsExactly(fields, VehicleDocument, env, if PlateBad(fields) then PlateFormat else OwnerNameFormat);
  }

  // ---------------------------------------------------- the model's verdict

  /** What the validator hands back: the verdict, the grade, the fields,
      the errors and the model's corrections. */
  datatype ValidationResult = ValidationResult(
    validated: JsValue,
    confidence: JsValue,
    fields: Object,
    errors: JsValue,
    enhancedFields: JsValue)

  const ParseFailure := "Failed to parse LLM response"

  /** `getDefaultValidationResult(mappedFields, errors = [])`: not
      validated, low confidence, the fields as given, no corrections. */
  function DefaultValidationResult(mappedFields: Object, errors: JsValue): (r: ValidationResult)
    ensures !Truthy(r.validated) && r.confidence == Str("low")
    ensures r.fields == mappedFields && r.enhancedFields == Obj(map[])
    ensures errors.Undefined? ==> r.errors == Arr([])
    ensures !errors.Undefined? ==> r.errors == errors
  {
    ValidationResult(Bool(false), Str("low"), mappedFields, if errors.Undefined? then Arr([]) else errors, Obj(map[]))
  }

  /** The index of the first `c` in `s`. */
  function FirstOf(s: string, c: char): (r: Option<nat>)
    ensures r.Some? ==> r.value < |s| && s[r.value] == c && forall j :: 0 <= j < r.value ==> s[j] != c
    ensures r.None? ==> forall j :: 0 <= j < |s| ==> s[j] != c
  {
    if s == [] then None
    else if s[0] == c then Some(0)
    else match FirstOf(s[1..], c)
      case None => None
      case Some(i) => Some(i + 1)
  }

  /** The index of the last `c` in `s`. */
  function LastOf(s: string, c: char): (r: Option<nat>)
    ensures r.Some? ==> r.value < |s| && s[r.value] == c && forall j :: r.value < j < |s| ==> s[j] != c
    ensures r.None? ==> forall j :: 0 <= j < |s| ==> s[j] != c
  {
    if s == [] then None
    else if s[|s| - 1] == c then Some(|s| - 1)
    else LastOf(s[..|s| - 1], c)
  }

  /** `response.match(/\{[\s\S]*\}/)`: there is a match exactly when some
      `{` comes before some `}`, and it runs from the first `{` to the last
      `}`. */
  function JsonSpan(s: string): (r: Option<string>)
    ensures r.Some? <==> exists i, j :: 0 <= i < j < |s| && s[i] == '{' && s[j] == '}'
    ensures r.Some? ==> exists i, j :: (0 <= i < j < |s| && s[i] == '{' && s[j] == '}' && r.value == s[i..j + 1]
                                       && (forall k :: 0 <= k < i ==> s[k] != '{')
                                       && (forall k :: j < k < |s| ==> s[k] != '}'))
  {
    match FirstOf(s, '{')
    case None => None
    case Some(i) =>
      match LastOf(s, '}')
      case None => None
      case Some(j) => if i < j then Some(s[i..j + 1]) else None
  }

  /** The result built from a parsed verdict: the corrections are laid over
      the original fields, and the verdict's own values stand in for the
      defaults when they are truthy. */
  function FromVerdict(parsed: Object, original: Object): (r: ValidationResult)
    ensures Truthy(r.validated) <==> Truthy(Get(parsed, "validated"))
    ensures Truthy(r.confidence)
    ensures r.fields == Normalize.Overlay(original, Spread(Get(parsed, "corrected_fields")))
    ensures !Truthy(Get(parsed, "errors")) ==> r.errors == Arr([])
    ensures Truthy(r.enhancedFields)
  {
    ValidationResult(
      Or(Get(parsed, "validated"), Bool(false)),
      Or(Get(parsed, "confidence"), Str("low")),
      Normalize.Overlay(original, Spread(Get(parsed, "corrected_fields"))),
      Or(Get(parsed, "errors"), Arr([])),
      Or(Get(parsed, "corrected_fields"), Obj(map[])))
  }

  /** `parseValidationResponse`, with `JSON.parse` as `parse` (none where it
      throws): a verdict that can be found and parsed gives `FromVerdict`;
      anything else gives the default result with the one parse-failure
      error. */
  function ParseValidationResponse(response: string, parse: string -> Option<Object>, original: Object)
    : (r: ValidationResult)
    ensures JsonSpan(response).None? ==> r == DefaultValidationResult(original, Arr([Str(ParseFailure)]))
    ensures JsonSpan(response).Some? && parse(JsonSpan(response).value).None?
            ==> r == DefaultValidationResult(original, Arr([Str(ParseFailure)]))
    ensures r.fields.Keys >= original.Keys
  {
    match JsonSpan(response)
    case None => ValidationResult(Bool(false), Str("low"), original, Arr([Str(ParseFailure)]), Obj(map[]))
    case Some(text) =>
      match parse(text)
      case None => ValidationResult(Bool(false), Str("low"), original, Arr([Str(ParseFailure)]), Obj(map[]))
      case Some(parsed) => FromVerdict(parsed, original)
  }

  /** Every corrected field takes the model's value; every other original
      field keeps its own; nothing else appears. */
  lemma CorrectionsWin(response: string, parse: string -> Option<Object>, original: Object, k: string)
    requires JsonSpan(response).Some? && parse(JsonSpan(response).value).Some?
    ensures var corrected := Spread(Get(parse(JsonSpan(response).value).value, "corrected_fields"));
      var r := ParseValidationResponse(response, parse, original);
      && (k in corrected ==> Get(r.fields, k) == corrected[k])
      && (k !in corrected ==> Get(r.fields, k) == Get(original, k))
  {
  }

  /** Laying the same corrections over the result again changes nothing. */
  lemma CorrectionsIdempotent(parsed: Object, original: Object)
    ensures FromVerdict(parsed, FromVerdict(parsed, original).fields) == FromVerdict(parsed, original)
  {
    var c := Spread(Get(parsed, "corrected_fields"));
    assert Normalize.Overlay(Normalize.Overlay(original, c), c) == Normalize.Overlay(original, c);
  }

  // ------------------------------------------------------------ model choice

  /** The installed models to try, best first. */
  const PreferredModels: seq<string> := ["qwen2.5:7b", "qwen2.5:3b", "llama3.2:3b", "gemma2:2b", "phi3:mini"]

  /** `preferred.split(':')[0]` */
  function Family(preferred: string): string {
    SplitOn(preferred, c => c == ':')[0]
  }

  /** `names.find(name => name.includes(family))` */
  function FirstWith(names: seq<string>, family: string): (r: Option<string>)
    ensures r.Some? ==> exists i :: (0 <= i < |names| && names[i] == r.value && Contains(names[i], family)
                                     && forall j :: 0 <= j < i ==> !Contains(names[j], family))
    ensures r.None? ==> forall i :: 0 <= i < |names| ==> !Contains(names[i], family)
  {
    if names == [] then None
    else if Contains(names[0], family) then Some(names[0])
    else
      var r := FirstWith(names[1..], family);
      assert r.Some? ==> exists i :: (0 <= i < |names[1..]| && names[1..][i] == r.value && Contains(names[1..][i], family)
                                      && forall j :: 0 <= j < i ==> !Contains(names[1..][j], family));
      r
  }

  /** The choice `findBestAvailableModel` makes among the installed `names`
      (none when the list is missing): a model of the earliest preferred
      family that is installed, else the first model when its name is not
      empty, else none. */
  function BestModel(names: Option<seq<string>>, prefs: seq<string>): Option<string> {
    match names
    case None => None
    case Some(ns) =>
      if prefs == [] then (if |ns| > 0 && ns[0] != "" then Some(ns[0]) else None)
      else
        match FirstWith(ns, Family(prefs[0]))
        case Some(n) => Some(n)
        case None => BestModel(names, prefs[1..])
  }

  /** The loop of `findBestAvailableModel` over the preference list
      `prefs`, followed by the first-model fallback. */
  method PickModel(names: seq<string>, prefs: seq<string>) returns (r: Option<string>)
    ensures r == BestModel(Some(names), prefs)
  {
    var p := 0;
    while p < |prefs|
      invariant 0 <= p <= |prefs|
      invariant BestModel(Some(names), prefs) == BestModel(Some(names), prefs[p..])
    {
      var found := FirstWith(names, Family(prefs[p]));
      if found.Some? {
        return found;
      }
      assert prefs[p..][1..] == prefs[p + 1..];
      p := p + 1;
    }
    if |names| > 0 && names[0] != "" {
      return Some(names[0]);
    }
    return None;
  }

  /** `findBestAvailableModel`: walks the preferences in order and, for
      each, looks for the first installed model of its family. */
  method FindBestAvailableModel(models: Option<seq<string>>) returns (r: Option<string>)
    ensures r == BestModel(models, PreferredModels)
  {
    if models.None? {
      return None;
    }
    r := PickModel(models.value, PreferredModels);
  }

  /** The chosen model is installed. */
  lemma {:induction false} BestModelInstalled(names: Option<seq<string>>, prefs: seq<string>)
    requires BestModel(names, prefs).Some?
    ensures names.Some? && BestModel(names, prefs).value in names.value
    decreases |prefs|
  {
    if prefs != [] && FirstWith(names.value, Family(prefs[0])).None? {
      BestModelInstalled(names, prefs[1..]);
    }
  }

  /** When the preference at `q` is the earliest one with an installed
      model of its family, the choice is the first installed model of that
      family. */
  lemma {:induction false} BestModelPrefers(names: seq<string>, prefs: seq<string>, q: nat)
    requires q < |prefs| && FirstWith(names, Family(prefs[q])).Some?
    requires forall p :: 0 <= p < q ==> FirstWith(names, Family(prefs[p])).None?
    ensures BestModel(Some(names), prefs) == FirstWith(names, Family(prefs[q]))
    decreases q
  {
    if q > 0 {
      assert FirstWith(names, Family(prefs[0])).None?;
      BestModelPrefers(names, prefs[1..], q - 1);
    }
  }

  /** With no preferred family installed, the choice is the first model,
      if it has a name. */
  lemma {:induction false} BestModelFallsBack(names: seq<string>, prefs: seq<string>)
    requires forall p :: 0 <= p < |prefs| ==> FirstWith(names, Family(prefs[p])).None?
    ensures BestModel(Some(names), prefs) == if |names| > 0 && names[0] != "" then Some(names[0]) else None
    decreases |prefs|
  {
    if prefs != [] {
      assert FirstWith(names, Family(prefs[0])).None?;
      BestModelFallsBack(names, prefs[1..]);
    }
  }
}
