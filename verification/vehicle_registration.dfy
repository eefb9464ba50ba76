/** The line-by-line parser of a Korean vehicle registration certificate
    and the format check of its output. Each trimmed line is offered to
    every field rule in turn; plate, chassis number and fuel keep the first
    line that matches, most other fields the last, the address the longest,
    and the mileage is the largest "N km" seen. */
module VehicleRegistration {
  import opened Js
  import opened Text
  import opened Shapes

  /** The fields the parser may fill; an absent field is None. */
  datatype StructuredFields = StructuredFields(
    license_plate: Option<string>,
    vehicle_model: Option<string>,
    chassis_number: Option<string>,
    owner_name: Option<string>,
    registered_address: Option<string>,
    birth_date: Option<string>,
    initial_registration_date: Option<string>,
    manufacturing_date: Option<string>,
    engine_displacement: Option<JsValue>,
    gross_weight: Option<JsValue>,
    fuel_type: Option<string>,
    mileage_km: Option<JsValue>,
    engine_number: Option<string>,
    vehicle_color: Option<string>)

  const NoFields: StructuredFields :=
    StructuredFields(None, None, None, None, None, None, None, None, None, None, None, None, None, None)

  /** A string field that `!out.x` finds set. */
  predicate IsSet(v: Option<string>) {
    v.Some? && v.value != ""
  }

  // ------------------------------------------------------------ line rules

  /** `\b([A-HJ-NPR-Z0-9]{17})\b` at `k`. The first character is a word
      character, so the leading `\b` asks for a non-word character (or the
      start) before it. */
  function VinAt(s: string, k: nat): (r: Option<string>)
    ensures r.Some? ==> VinShape(r.value)
  {
    if k + 17 <= |s| && (forall m :: k <= m < k + 17 ==> IsVinChar(s[m]))
       && (k == 0 || !IsWordChar(s[k - 1])) && (k + 17 == |s| || !IsWordChar(s[k + 17]))
    then Some(s[k..k + 17])
    else None
  }

  function VinIn(line: string): (r: Option<string>)
    ensures r.Some? ==> VinShape(r.value)
  {
    Exec(line, (k: nat) => VinAt(line, k))
  }

  /** `lit` (lower-case ASCII) at `i`, ignoring the case of ASCII letters:
      what the `i` flag does to `cc`, `kg` and `km`. */
  predicate LiteralAtIgnoringCase(s: string, i: nat, lit: string) {
    i + |lit| <= |s| && forall m :: 0 <= m < |lit| ==> LowerChar(s[i + m]) == lit[m]
  }

  /** `(\d{2,5})\s*cc` at `i`, case-insensitive: the value of the digits.
      Only the longest digit run can be followed by `cc`. */
  function DisplacementAt(s: string, i: nat): Option<nat> {
    if i > |s| then None
    else
      var n := DigitRun(s, i, 5);
      if n >= 2 && LiteralAtIgnoringCase(s, SkipSpaces(s, i + n), "cc") then Some(DigitsValue(s[i..i + n])) else None
  }

  /** `parseInt(dispMatch[1], 10)` of the first displacement on the line. */
  function DisplacementIn(line: string): (r: Option<JsValue>)
    ensures r.Some? ==> exists n: nat :: r.value == IntNum(n)
  {
    match Exec(line, (i: nat) => DisplacementAt(line, i))
    case Some(n) => Some(IntNum(n))
    case None => None
  }

  /** The class `[\d,]`. */
  predicate IsDigitOrComma(c: char) {
    IsDigit(c) || c == ','
  }

  /** `총중량\s*:?\s*([\d,]+)\s*kg` at `i`, case-insensitive: the number group.
      No backtracking helps: a shorter `\s*` leaves a space where a colon or
      a digit is needed, and a shorter `[\d,]+` leaves a digit or comma
      where white space or `k` is needed. */
  function WeightAt(s: string, i: nat): (r: Option<string>)
    ensures r.Some? ==> r.value != "" && forall j :: 0 <= j < |r.value| ==> IsDigitOrComma(r.value[j])
  {
    if !OccursAt(s, "총중량", i) then None
    else
      var a := SkipSpaces(s, i + 3);
      var b := if a < |s| && s[a] == ':' then a + 1 else a;
      var c := SkipSpaces(s, b);
      var n := ClassRun(s, c, |s| - c, IsDigitOrComma);
      if n >= 1 && LiteralAtIgnoringCase(s, SkipSpaces(s, c + n), "kg") then Some(s[c..c + n]) else None
  }

  /** `parseInt(weightMatch[1].replace(/,/g, ''), 10)`: a whole number, or NaN
      when the group is only commas. */
  function WeightIn(line: string): (r: Option<JsValue>)
    ensures r.Some? ==> r.value == NaN || exists n: nat :: r.value == IntNum(n)
  {
    match Exec(line, (i: nat) => WeightAt(line, i))
    case Some(g) =>
      assert exists i :: WeightAt(line, i) == Some(g);
      Some(GroupedNumber(g))
    case None => None
  }

  /** `parseInt(g.replace(/,/g, ''), 10)` on a run of digits and commas. */
  function GroupedNumber(g: string): (r: JsValue)
    requires forall j :: 0 <= j < |g| ==> IsDigitOrComma(g[j])
    ensures r == NaN || exists n: nat :: r == IntNum(n)
  {
    CommasRemoved(g);
    var d := RemoveCommas(g);
    assert d != [] ==> ParseInt(d) == Some(DigitsValue(d));
    ParseIntValue(d)
  }

  /** Digits and commas without the commas are digits. */
  lemma {:induction false} CommasRemoved(g: string)
    requires forall j :: 0 <= j < |g| ==> IsDigitOrComma(g[j])
    ensures AllDigits(RemoveCommas(g))
    decreases |g|
  {
    if g != [] {
      CommasRemoved(g[1..]);
      assert RemoveCommas(g) == (if g[0] == ',' then [] else [g[0]]) + RemoveCommas(g[1..]);
    }
  }

  /** `([\d,]+)\s*km` at `i`, case-insensitive: the number group. */
  function MileageAt(s: string, i: nat): (r: Option<string>)
    ensures r.Some? ==> r.value != "" && forall j :: 0 <= j < |r.value| ==> IsDigitOrComma(r.value[j])
  {
    if i > |s| then None
    else
      var n := ClassRun(s, i, |s| - i, IsDigitOrComma);
      if n >= 1 && LiteralAtIgnoringCase(s, SkipSpaces(s, i + n), "km") then Some(s[i..i + n]) else None
  }

  /** The mileage candidate of a line: its first "N km" when `parseInt` of
      the number without commas is a positive number. */
  function MileageIn(line: string): (r: Option<int>)
    ensures r.Some? ==> r.value > 0
  {
    match Exec(line, (i: nat) => MileageAt(line, i))
    case Some(g) =>
      var km := ParseInt(RemoveCommas(g));
      if km.Some? && km.value > 0 then km else None
    case None => None
  }

  /** The fuels in the order `fuels.find` tries them. */
  const Fuels: seq<string> := ["휘발유", "경유", "전기", "LPG", "하이브리드", "CNG", "수소"]

  /** The first of `names` the line contains. */
  function FirstContained(line: string, names: seq<string>): (r: Option<string>)
    ensures r.Some? ==> r.value in names && Contains(line, r.value)
    ensures r.None? ==> forall j :: 0 <= j < |names| ==> !Contains(line, names[j])
  {
    if names == [] then None
    else if Contains(line, names[0]) then Some(names[0])
    else
      var r := FirstContained(line, names[1..]);
      assert forall j :: 1 <= j < |names| ==> names[j] == names[1..][j - 1];
      r
  }

  function FuelIn(line: string): (r: Option<string>)
    ensures r.Some? ==> r.value in Fuels && Contains(line, r.value) && IsSet(r)
    ensures r.None? ==> forall j :: 0 <= j < |Fuels| ==> !Contains(line, Fuels[j])
  {
    FirstContained(line, Fuels)
  }

  /** The class `[:：]`. */
  predicate IsColon(c: char) {
    c == ':' || c == '：'
  }

  /** `parts[1]` of `line.split(/[:：]/)`, when it is a non-empty string. */
  function SecondPart(line: string): Option<string> {
    var parts := SplitOn(line, IsColon);
    if |parts| > 1 && parts[1] != "" then Some(parts[1]) else None
  }

  /** `parts[1].trim()` on a line that carries one of two labels. */
  function LabelledValue(line: string, a: string, b: string): Option<string> {
    if Contains(line, a) || Contains(line, b) then
      match SecondPart(line)
      case Some(p) => Some(Trim(p))
      case None => None
    else None
  }

  function ModelIn(line: string): Option<string> {
    LabelledValue(line, "차명", "차종")
  }

  function EngineNumberIn(line: string): Option<string> {
    LabelledValue(line, "원동기형식", "엔진번호")
  }

  function ColorIn(line: string): Option<string> {
    LabelledValue(line, "색상", "차량색")
  }

  /** The address candidate of a line: on a line about an address, the
      trimmed text after the first colon when the line holds ':', else the
      whole line; kept only when non-empty. */
  function AddressIn(line: string): (r: Option<string>)
    ensures r.Some? ==> r.value != ""
  {
    if Contains(line, "주소") || Contains(line, "사용본거지") || (Contains(line, "시") && Contains(line, "구")) then
      var v :=
        if Contains(line, ":") then
          var parts := SplitOn(line, IsColon);
          if |parts| > 1 then Trim(parts[1]) else ""
        else line;
      if v != "" then Some(v) else None
    else None
  }

  /** A line of two to five syllables and nothing else: `/^[가-힣]{2,5}$/`. */
  predicate BareName(line: string) {
    2 <= |line| <= 5 && AllHangul(line)
  }

  predicate OwnerLabelled(line: string) {
    Contains(line, "성명") || Contains(line, "소유자")
  }

  /** A date "YYYY년 M월 D일" on a line carrying one of the labels, as
      YYYY-MM-DD with month and day padded by `pad2`. */
  function DateIn(line: string, labelled: bool): (r: Option<string>)
    ensures r.Some? ==> IsoDateShape(r.value)
  {
    if labelled then
      match FindKoreanDate(line)
      case Some(k) => Some(IsoDate(k.year, k.month, k.day))
      case None => None
    else None
  }

  function BirthIn(line: string): (r: Option<string>)
    ensures r.Some? ==> IsoDateShape(r.value)
  {
    DateIn(line, Contains(line, "생년월일"))
  }

  function RegistrationIn(line: string): (r: Option<string>)
    ensures r.Some? ==> IsoDateShape(r.value)
  {
    DateIn(line, Contains(line, "최초등록") || Contains(line, "등록일"))
  }

  function ManufactureIn(line: string): (r: Option<string>)
    ensures r.Some? ==> IsoDateShape(r.value)
  {
    DateIn(line, Contains(line, "제조") || Contains(line, "제작") || Contains(line, "제장"))
  }

  // ------------------------------------------------------------ field updates

  /** `if (m && !out.x) out.x = m`: the first value stays. */
  function KeepFirst(prev: Option<string>, found: Option<string>): Option<string> {
    if found.Some? && !IsSet(prev) then found else prev
  }

  /** `if (m) out.x = m`: the last value wins. */
  function Overwrite<T>(prev: Option<T>, found: Option<T>): Option<T> {
    if found.Some? then found else prev
  }

  /** The address is replaced only by a longer candidate. */
  function LongerAddress(prev: Option<string>, found: Option<string>): Option<string> {
    if found.Some? && (!IsSet(prev) || |found.value| > |prev.value|) then found else prev
  }

  /** A labelled line overwrites the owner when it has text after a colon;
      an unlabelled bare name is taken only while no owner is set. */
  function OwnerUpdate(prev: Option<string>, labelled: bool, part: Option<string>, bare: bool, line: string): Option<string> {
    if labelled then
      match part
      case Some(p) => Some(Trim(p))
      case None => prev
    else if !IsSet(prev) && bare then Some(line)
    else prev
  }

  function OwnerStep(prev: Option<string>, line: string): Option<string> {
    OwnerUpdate(prev, OwnerLabelled(line), SecondPart(line), BareName(line), line)
  }

  /** What the rules find on one line, before any field is assigned. */
  datatype Findings = Findings(
    plate: Option<string>, vin: Option<string>, model: Option<string>, address: Option<string>,
    ownerLabelled: bool, ownerPart: Option<string>, bareName: bool,
    birth: Option<string>, registration: Option<string>, manufacture: Option<string>,
    displacement: Option<JsValue>, weight: Option<JsValue>, fuel: Option<string>,
    engine: Option<string>, color: Option<string>)

  function FindingsOf(line: string): Findings {
    Findings(FindPlate(line), VinIn(line), ModelIn(line), AddressIn(line),
             OwnerLabelled(line), SecondPart(line), BareName(line),
             BirthIn(line), RegistrationIn(line), ManufactureIn(line),
             DisplacementIn(line), WeightIn(line), FuelIn(line),
             EngineNumberIn(line), ColorIn(line))
  }

  /** The assignments the findings of `line` cause. */
  function Apply(out: StructuredFields, f: Findings, line: string): StructuredFields {
    StructuredFields(
      KeepFirst(out.license_plate, f.plate),
      Overwrite(out.vehicle_model, f.model),
      KeepFirst(out.chassis_number, f.vin),
      OwnerUpdate(out.owner_name, f.ownerLabelled, f.ownerPart, f.bareName, line),
      LongerAddress(out.registered_address, f.address),
      Overwrite(out.birth_date, f.birth),
      Overwrite(out.initial_registration_date, f.registration),
      Overwrite(out.manufacturing_date, f.manufacture),
      Overwrite(out.engine_displacement, f.displacement),
      Overwrite(out.gross_weight, f.weight),
      KeepFirst(out.fuel_type, f.fuel),
      out.mileage_km,
      Overwrite(out.engine_number, f.engine),
      Overwrite(out.vehicle_color, f.color))
  }

  /** One turn of the loop body on the trimmed `line`. */
  function LineStep(out: StructuredFields, line: string): StructuredFields {
    Apply(out, FindingsOf(line), line)
  }

  // ------------------------------------------------------------ the whole scan

  /** A field kept from its first line, folded over `lines`. */
  function KeepFirstFold(lines: seq<string>, found: string -> Option<string>): Option<string> {
    if lines == [] then None else KeepFirst(KeepFirstFold(lines[..|lines| - 1], found), found(lines[|lines| - 1]))
  }

  /** A field overwritten by each matching line, folded over `lines`. */
  function OverwriteFold<T>(lines: seq<string>, found: string -> Option<T>): Option<T> {
    if lines == [] then None else Overwrite(OverwriteFold(lines[..|lines| - 1], found), found(lines[|lines| - 1]))
  }

  /** A field replaced only by a longer value, folded over `lines`. */
  function LongestFold(lines: seq<string>, found: string -> Option<string>): Option<string> {
    if lines == [] then None else LongerAddress(LongestFold(lines[..|lines| - 1], found), found(lines[|lines| - 1]))
  }

  function OwnerFold(lines: seq<string>): Option<string> {
    if lines == [] then None else OwnerStep(OwnerFold(lines[..|lines| - 1]), lines[|lines| - 1])
  }

  /** The fields after the loop has seen `lines`: one loop body per line. */
  function Scan(lines: seq<string>): StructuredFields {
    if lines == [] then NoFields else LineStep(Scan(lines[..|lines| - 1]), lines[|lines| - 1])
  }

  /** What `if (v) xs.push(v)` pushes. */
  function Pushed(v: Option<int>): seq<int> {
    match v
    case Some(x) => [x]
    case None => []
  }

  /** What the pushes of the lines in order leave in the list. */
  function Collected(lines: seq<string>, found: string -> Option<int>): seq<int> {
    if lines == [] then [] else Collected(lines[..|lines| - 1], found) + Pushed(found(lines[|lines| - 1]))
  }

  /** The mileage candidates the loop has pushed after `lines`. */
  function Candidates(lines: seq<string>): seq<int> {
    Collected(lines, MileageIn)
  }

  /** `Math.max(...xs)` */
  function MaxOf(xs: seq<int>): (m: int)
    requires |xs| > 0
    ensures m in xs && forall j :: 0 <= j < |xs| ==> xs[j] <= m
  {
    if |xs| == 1 then xs[0]
    else
      var rest := MaxOf(xs[1..]);
      assert forall j :: 1 <= j < |xs| ==> xs[j] == xs[1..][j - 1];
      if xs[0] >= rest then xs[0] else rest
  }

  /** `textLines.map(s => s.trim())` */
  function TrimAll(textLines: seq<string>): (r: seq<string>)
    ensures |r| == |textLines| && forall j :: 0 <= j < |r| ==> r[j] == Trim(textLines[j])
  {
    seq(|textLines|, j requires 0 <= j < |textLines| => Trim(textLines[j]))
  }

  /** What `parseVehicleRegistration` returns. */
  function Parse(textLines: seq<string>): StructuredFields {
    var lines := TrimAll(textLines);
    Scan(lines).(mileage_km := MaxMileage(Candidates(lines)))
  }

  /** `Math.max(...mileageCandidates)` when there is a candidate. */
  function MaxMileage(c: seq<int>): Option<JsValue> {
    if |c| > 0 then Some(IntNum(MaxOf(c))) else None
  }

  /** The plate is a fold of its own rule that keeps the first value set;
      so are the chassis number and the fuel. */
  lemma {:induction false} ScanPlateFold(lines: seq<string>)
    ensures Scan(lines).license_plate == KeepFirstFold(lines, FindPlate)
    decreases |lines|
  {
    if lines != [] {
      ScanPlateFold(lines[..|lines| - 1]);
    }
  }

  lemma {:induction false} ScanVinFold(lines: seq<string>)
    ensures Scan(lines).chassis_number == KeepFirstFold(lines, VinIn)
    decreases |lines|
  {
    if lines != [] {
      ScanVinFold(lines[..|lines| - 1]);
    }
  }

  lemma {:induction false} ScanFuelFold(lines: seq<string>)
    ensures Scan(lines).fuel_type == KeepFirstFold(lines, FuelIn)
    decreases |lines|
  {
    if lines != [] {
      ScanFuelFold(lines[..|lines| - 1]);
    }
  }

  /** The fields the last finding overwrites: each a fold of its own rule. */
  lemma {:induction false} ScanLasts(lines: seq<string>)
    ensures Scan(lines).vehicle_model == OverwriteFold(lines, ModelIn)
    ensures Scan(lines).birth_date == OverwriteFold(lines, BirthIn)
    ensures Scan(lines).initial_registration_date == OverwriteFold(lines, RegistrationIn)
    ensures Scan(lines).manufacturing_date == OverwriteFold(lines, ManufactureIn)
    ensures Scan(lines).engine_displacement == OverwriteFold(lines, DisplacementIn)
    ensures Scan(lines).gross_weight == OverwriteFold(lines, WeightIn)
    ensures Scan(lines).engine_number == OverwriteFold(lines, EngineNumberIn)
    ensures Scan(lines).vehicle_color == OverwriteFold(lines, ColorIn)
    decreases |lines|
  {
    if lines != [] {
      ScanLasts(lines[..|lines| - 1]);
    }
  }

  /** The owner and the address are folds of their own rules. */
  lemma {:induction false} ScanOwnerFold(lines: seq<string>)
    ensures Scan(lines).owner_name == OwnerFold(lines)
    decreases |lines|
  {
    if lines != [] {
      ScanOwnerFold(lines[..|lines| - 1]);
    }
  }

  lemma {:induction false} ScanAddressFold(lines: seq<string>)
    ensures Scan(lines).registered_address == LongestFold(lines, AddressIn)
    decreases |lines|
  {
    if lines != [] {
      ScanAddressFold(lines[..|lines| - 1]);
    }
  }

  /** Turn `i` of the loop: the scan and the mileage candidates of the
      first `i + 1` lines from those of the first `i`. */
  lemma LoopStep(lines: seq<string>, i: nat)
    requires i < |lines|
    ensures Scan(lines[..i + 1]) == LineStep(Scan(lines[..i]), lines[i])
    ensures Candidates(lines[..i + 1])
      == Candidates(lines[..i]) + Pushed(MileageIn(lines[i]))
  {
    assert lines[..i + 1][..i] == lines[..i];
  }

  // ------------------------------------------------------------ the parser

  /** The loop body for one trimmed line: the rules' matches, then the
      assignments they cause. */
  method ScanLine(out: StructuredFields, candidates: seq<int>, line: string)
    returns (next: StructuredFields, nextCandidates: seq<int>)
    ensures next == LineStep(out, line) && next.mileage_km == out.mileage_km
    ensures nextCandidates == candidates + Pushed(MileageIn(line))
  {
    var f := FindingsOf(line);
    next := ApplyFindings(out, f, line);
    nextCandidates := candidates;
    var km := MileageIn(line);
    if km.Some? {
      nextCandidates := nextCandidates + [km.value];
    }
  }

  /** The `if (…) out.x = …` statements of the loop body. */
  method ApplyFindings(out: StructuredFields, f: Findings, line: string) returns (next: StructuredFields)
    ensures next == Apply(out, f, line)
  {
    var plate, vin, model, address, owner := out.license_plate, out.chassis_number, out.vehicle_model, out.registered_address, out.owner_name;
    if f.plate.Some? && !IsSet(plate) {
      plate := f.plate;
    }
    assert plate == KeepFirst(out.license_plate, f.plate);
    if f.vin.Some? && !IsSet(vin) {
      vin := f.vin;
    }
    assert vin == KeepFirst(out.chassis_number, f.vin);
    if f.model.Some? {
      model := f.model;
    }
    assert model == Overwrite(out.vehicle_model, f.model);
    if f.address.Some? && (!IsSet(address) || |f.address.value| > |address.value|) {
      address := f.address;
    }
    assert address == LongerAddress(out.registered_address, f.address);
    if f.ownerLabelled {
      if f.ownerPart.Some? {
        owner := Some(Trim(f.ownerPart.value));
      }
    } else if !IsSet(owner) && f.bareName {
      owner := Some(line);
    }
    assert owner == OwnerUpdate(out.owner_name, f.ownerLabelled, f.ownerPart, f.bareName, line);
    var birth, registration, manufacture := out.birth_date, out.initial_registration_date, out.manufacturing_date;
    if f.birth.Some? {
      birth := f.birth;
    }
    assert birth == Overwrite(out.birth_date, f.birth);
    if f.registration.Some? {
      registration := f.registration;
    }
    assert registration == Overwrite(out.initial_registration_date, f.registration);
    if f.manufacture.Some? {
      manufacture := f.manufacture;
    }
    assert manufacture == Overwrite(out.manufacturing_date, f.manufacture);
    var displacement, weight, fuel, engine, color := out.engine_displacement, out.gross_weight, out.fuel_type, out.engine_number, out.vehicle_color;
    if f.displacement.Some? {
      displacement := f.displacement;
    }
    assert displacement == Overwrite(out.engine_displacement, f.displacement);
    if f.weight.Some? {
      weight := f.weight;
    }
    assert weight == Overwrite(out.gross_weight, f.weight);
    if f.fuel.Some? && !IsSet(fuel) {
      fuel := f.fuel;
    }
    assert fuel == KeepFirst(out.fuel_type, f.fuel);
    if f.engine.Some? {
      engine := f.engine;
    }
    assert engine == Overwrite(out.engine_number, f.engine);
    if f.color.Some? {
      color := f.color;
    }
    assert color == Overwrite(out.vehicle_color, f.color);
    next := StructuredFields(plate, model, vin, owner, address, birth, registration, manufacture,
                             displacement, weight, fuel, out.mileage_km, engine, color);
    assert Apply(out, f, line) == StructuredFields(
      KeepFirst(out.license_plate, f.plate),
      Overwrite(out.vehicle_model, f.model),
      KeepFirst(out.chassis_number, f.vin),
      OwnerUpdate(out.owner_name, f.ownerLabelled, f.ownerPart, f.bareName, line),
      LongerAddress(out.registered_address, f.address),
      Overwrite(out.birth_date, f.birth),
      Overwrite(out.initial_registration_date, f.registration),
      Overwrite(out.manufacturing_date, f.manufacture),
      Overwrite(out.engine_displacement, f.displacement),
      Overwrite(out.gross_weight, f.weight),
      KeepFirst(out.fuel_type, f.fuel),
      out.mileage_km,
      Overwrite(out.engine_number, f.engine),
      Overwrite(out.vehicle_color, f.color));
  }

  /** `parseVehicleRegistration`: one pass over the trimmed lines, then the
      largest mileage candidate. */
  method ParseVehicleRegistration(textLines: seq<string>) returns (out: StructuredFields)
    ensures out == Parse(textLines)
  {
    var lines := TrimAll(textLines);
    var mileageCandidates;
    out, mileageCandidates := ScanLines(lines);
    if |mileageCandidates| > 0 {
      out := out.(mileage_km := Some(IntNum(MaxOf(mileageCandidates))));
    }
  }

  /** The `for` loop of `parseVehicleRegistration`, from the empty object
      and the empty candidate list. */
  method ScanLines(lines: seq<string>) returns (out: StructuredFields, mileageCandidates: seq<int>)
    ensures out == Scan(lines) && out.mileage_km.None?
    ensures mileageCandidates == Candidates(lines)
  {
    out := NoFields;
    mileageCandidates := [];
    for i := 0 to |lines|
      invariant out == Scan(lines[..i])
      invariant mileageCandidates == Candidates(lines[..i])
      invariant out.mileage_km.None?
    {
      LoopStep(lines, i);
      out, mileageCandidates := ScanLine(out, mileageCandidates, lines[i]);
    }
    assert lines[..|lines|] == lines;
  }

  // ------------------------------------------------------------ what the scan keeps

  /** `r` is what the first line with a finding finds, and None when no
      line has one. */
  predicate FirstOf<T(==)>(lines: seq<string>, found: string -> Option<T>, r: Option<T>) {
    (r.None? <==> forall j :: 0 <= j < |lines| ==> found(lines[j]).None?)
    && (r.Some? ==> exists i :: 0 <= i < |lines| && r == found(lines[i]) && forall j :: 0 <= j < i ==> found(lines[j]).None?)
  }

  /** `r` is what the last line with a finding finds, and None when no line
      has one. */
  predicate LastOf<T(==)>(lines: seq<string>, found: string -> Option<T>, r: Option<T>) {
    (r.None? <==> forall j :: 0 <= j < |lines| ==> found(lines[j]).None?)
    && (r.Some? ==> exists i :: 0 <= i < |lines| && r == found(lines[i]) && forall j :: i < j < |lines| ==> found(lines[j]).None?)
  }

  /** When no rule ever finds an empty string, keeping the first value set
      keeps the first value found. */
  lemma {:induction false} KeepFirstFoldFirst(lines: seq<string>, found: string -> Option<string>)
    requires forall j :: 0 <= j < |lines| ==> IsSet(found(lines[j])) || found(lines[j]).None?
    ensures FirstOf(lines, found, KeepFirstFold(lines, found))
    decreases |lines|
  {
    if lines != [] {
      var init := lines[..|lines| - 1];
      assert forall j :: 0 <= j < |init| ==> init[j] == lines[j];
      KeepFirstFoldFirst(init, found);
      var prev := KeepFirstFold(init, found);
      if prev.Some? {
        var i :| 0 <= i < |init| && prev == found(init[i]) && forall j :: 0 <= j < i ==> found(init[j]).None?;
        assert lines[i] == init[i];
      } else if found(lines[|lines| - 1]).Some? {
        assert forall j :: 0 <= j < |lines| - 1 ==> found(lines[j]).None?;
      }
    }
  }

  lemma {:induction false} OverwriteFoldLast<T>(lines: seq<string>, found: string -> Option<T>)
    ensures LastOf(lines, found, OverwriteFold(lines, found))
    decreases |lines|
  {
    if lines != [] {
      var n := |lines| - 1;
      var init := lines[..n];
      var last := found(lines[n]);
      assert forall j :: 0 <= j < n ==> init[j] == lines[j];
      OverwriteFoldLast(init, found);
      var prev := OverwriteFold(init, found);
      var r := OverwriteFold(lines, found);
      assert r == Overwrite(prev, last);
      if last.Some? {
        assert r == found(lines[n]);
      } else if prev.Some? {
        var i :| 0 <= i < n && prev == found(init[i]) && forall j :: i < j < n ==> found(init[j]).None?;
        assert r == found(lines[i]) && forall j :: i < j < |lines| ==> found(lines[j]).None?;
      } else {
        assert forall j :: 0 <= j < |lines| ==> found(lines[j]).None?;
      }
    }
  }

  /** The plate comes from the first line that has one. */
  lemma ScanPlate(lines: seq<string>)
    ensures FirstOf(lines, FindPlate, Scan(lines).license_plate)
  {
    ScanPlateFold(lines);
    forall j | 0 <= j < |lines|
      ensures IsSet(FindPlate(lines[j])) || FindPlate(lines[j]).None?
    {
      PlateSet(lines[j]);
    }
    KeepFirstFoldFirst(lines, FindPlate);
  }

  /** A plate found is never the empty string. */
  lemma PlateSet(line: string)
    ensures IsSet(FindPlate(line)) || FindPlate(line).None?
  {
  }

  /** The chassis number comes from the first line that has one. */
  lemma ScanVin(lines: seq<string>)
    ensures FirstOf(lines, VinIn, Scan(lines).chassis_number)
  {
    ScanVinFold(lines);
    KeepFirstFoldFirst(lines, VinIn);
  }

  /** The fuel is the first fuel name found, on the first line that has one. */
  lemma ScanFuel(lines: seq<string>)
    ensures FirstOf(lines, FuelIn, Scan(lines).fuel_type)
  {
    ScanFuelFold(lines);
    KeepFirstFoldFirst(lines, FuelIn);
  }

  /** Model, the three dates, displacement, weight, engine number and colour
      come from the last line that has one. */
  lemma ScanKeepsLast(lines: seq<string>)
    ensures LastOf(lines, ModelIn, Scan(lines).vehicle_model)
    ensures LastOf(lines, BirthIn, Scan(lines).birth_date)
    ensures LastOf(lines, RegistrationIn, Scan(lines).initial_registration_date)
    ensures LastOf(lines, ManufactureIn, Scan(lines).manufacturing_date)
    ensures LastOf(lines, DisplacementIn, Scan(lines).engine_displacement)
    ensures LastOf(lines, WeightIn, Scan(lines).gross_weight)
    ensures LastOf(lines, EngineNumberIn, Scan(lines).engine_number)
    ensures LastOf(lines, ColorIn, Scan(lines).vehicle_color)
  {
    ScanLasts(lines);
    OverwriteFoldLast(lines, ModelIn);
    OverwriteFoldLast(lines, BirthIn);
    OverwriteFoldLast(lines, RegistrationIn);
    OverwriteFoldLast(lines, ManufactureIn);
    OverwriteFoldLast(lines, DisplacementIn);
    OverwriteFoldLast(lines, WeightIn);
    OverwriteFoldLast(lines, EngineNumberIn);
    OverwriteFoldLast(lines, ColorIn);
  }

  /** `r` is the first of the longest values found, and None when no line
      has one. */
  predicate LongestOf(lines: seq<string>, found: string -> Option<string>, r: Option<string>) {
    (r.None? <==> forall j :: 0 <= j < |lines| ==> found(lines[j]).None?)
    && (r.Some? ==> exists i :: 0 <= i < |lines| && LongestAt(lines, found, r, i))
  }

  /** Line `i` finds `r`, every earlier finding is shorter and no later one
      is longer. */
  predicate LongestAt(lines: seq<string>, found: string -> Option<string>, r: Option<string>, i: nat)
    requires i < |lines|
  {
    r.Some? && r == found(lines[i])
    && (forall j :: 0 <= j < i && found(lines[j]).Some? ==> |found(lines[j]).value| < |r.value|)
    && (forall j :: i < j < |lines| && found(lines[j]).Some? ==> |found(lines[j]).value| <= |r.value|)
  }

  lemma {:induction false} LongestFoldLongest(lines: seq<string>, found: string -> Option<string>)
    requires forall j :: 0 <= j < |lines| ==> IsSet(found(lines[j])) || found(lines[j]).None?
    ensures LongestOf(lines, found, LongestFold(lines, found))
    decreases |lines|
  {
    if lines != [] {
      var n := |lines| - 1;
      var init := lines[..n];
      var last := found(lines[n]);
      assert forall j :: 0 <= j < n ==> init[j] == lines[j];
      LongestFoldLongest(init, found);
      var prev := LongestFold(init, found);
      var r := LongestFold(lines, found);
      assert r == LongerAddress(prev, last);
      if prev.Some? {
        var i :| 0 <= i < n && LongestAt(init, found, prev, i);
        if last.Some? && |last.value| > |prev.value| {
          assert LongestAt(lines, found, r, n);
        } else {
          assert LongestAt(lines, found, r, i);
        }
      } else if last.Some? {
        assert LongestAt(lines, found, r, n);
      } else {
        assert forall j :: 0 <= j < |lines| ==> found(lines[j]).None?;
      }
    }
  }

  /** The address is the first of the longest address candidates. */
  lemma ScanAddress(lines: seq<string>)
    ensures LongestOf(lines, AddressIn, Scan(lines).registered_address)
  {
    ScanAddressFold(lines);
    LongestFoldLongest(lines, AddressIn);
  }

  /** A line that names the owner after a colon. */
  predicate OwnerPartOn(line: string) {
    OwnerLabelled(line) && SecondPart(line).Some?
  }

  /** The name a line of the owner rule states: the text after the colon. */
  function OwnerPart(line: string): string
    requires OwnerPartOn(line)
  {
    Trim(SecondPart(line).value)
  }

  /** A bare name on a line without an owner label. */
  function BareOwner(line: string): (r: Option<string>)
    ensures r.Some? ==> IsSet(r)
  {
    if !OwnerLabelled(line) && BareName(line) then Some(line) else None
  }

  /** After the last labelled line with a non-blank name, that name stays:
      later labelled lines have no name and bare names no longer apply. */
  lemma {:induction false} OwnerLastLabelled(lines: seq<string>, i: nat)
    requires i < |lines| && OwnerPartOn(lines[i]) && OwnerPart(lines[i]) != ""
    requires forall j :: i < j < |lines| ==> !OwnerPartOn(lines[j])
    ensures Scan(lines).owner_name == Some(OwnerPart(lines[i]))
    decreases |lines|
  {
    ScanOwnerFold(lines);
    OwnerFoldLastLabelled(lines, i);
  }

  lemma {:induction false} OwnerFoldLastLabelled(lines: seq<string>, i: nat)
    requires i < |lines| && OwnerPartOn(lines[i]) && OwnerPart(lines[i]) != ""
    requires forall j :: i < j < |lines| ==> !OwnerPartOn(lines[j])
    ensures OwnerFold(lines) == Some(OwnerPart(lines[i]))
    decreases |lines|
  {
    var init := lines[..|lines| - 1];
    if i < |lines| - 1 {
      assert forall j :: 0 <= j < |init| ==> init[j] == lines[j];
      OwnerFoldLastLabelled(init, i);
      assert !OwnerPartOn(lines[|lines| - 1]);
    }
  }

  /** Without any labelled name, the owner is the first bare name on an
      unlabelled line. */
  lemma {:induction false} OwnerFoldBare(lines: seq<string>)
    requires forall j :: 0 <= j < |lines| ==> !OwnerPartOn(lines[j])
    ensures OwnerFold(lines) == KeepFirstFold(lines, BareOwner)
    decreases |lines|
  {
    if lines != [] {
      var init := lines[..|lines| - 1];
      assert forall j :: 0 <= j < |init| ==> init[j] == lines[j];
      OwnerFoldBare(init);
    }
  }

  lemma OwnerBareName(lines: seq<string>)
    requires forall j :: 0 <= j < |lines| ==> !OwnerPartOn(lines[j])
    ensures FirstOf(lines, BareOwner, Scan(lines).owner_name)
  {
    ScanOwnerFold(lines);
    OwnerFoldBare(lines);
    KeepFirstFoldFirst(lines, BareOwner);
  }

  /** The list holds exactly the values found. */
  lemma {:induction false} CollectedAre(lines: seq<string>, found: string -> Option<int>, x: int)
    ensures x in Collected(lines, found) <==> exists i :: 0 <= i < |lines| && found(lines[i]) == Some(x)
    decreases |lines|
  {
    if lines != [] {
      var init := lines[..|lines| - 1];
      assert forall j :: 0 <= j < |init| ==> init[j] == lines[j];
      CollectedAre(init, found, x);
      if x in Collected(lines, found) && x !in Collected(init, found) {
        assert found(lines[|lines| - 1]) == Some(x);
      }
    }
  }

  /** The largest value collected is the largest value found. */
  lemma MaxCollected(lines: seq<string>, found: string -> Option<int>)
    ensures Collected(lines, found) == [] <==> forall j :: 0 <= j < |lines| ==> found(lines[j]).None?
    ensures Collected(lines, found) != [] ==>
      exists i :: 0 <= i < |lines| && found(lines[i]) == Some(MaxOf(Collected(lines, found)))
        && forall j :: 0 <= j < |lines| && found(lines[j]).Some? ==> found(lines[j]).value <= MaxOf(Collected(lines, found))
  {
    var c := Collected(lines, found);
    forall j | 0 <= j < |lines| && found(lines[j]).Some?
      ensures found(lines[j]).value in c
    {
      CollectedAre(lines, found, found(lines[j]).value);
    }
    if c != [] {
      CollectedAre(lines, found, MaxOf(c));
    }
  }

  /** The mileage is the largest of the lines' "N km" values, and absent
      when no line has one. */
  lemma ParseMileage(textLines: seq<string>)
    ensures var lines := TrimAll(textLines);
      (Parse(textLines).mileage_km.None? <==> forall j :: 0 <= j < |lines| ==> MileageIn(lines[j]).None?)
      && (Parse(textLines).mileage_km.Some? ==>
            exists i :: 0 <= i < |lines| && MileageIn(lines[i]).Some? && Parse(textLines).mileage_km == Some(IntNum(MileageIn(lines[i]).value))
              && forall j :: 0 <= j < |lines| && MileageIn(lines[j]).Some? ==> MileageIn(lines[j]).value <= MileageIn(lines[i]).value)
  {
    MaxCollected(TrimAll(textLines), MileageIn);
  }

  // ------------------------------------------------------------ validation

  /** The result of `validateStructuredFields`. */
  datatype Validation = Validation(isValid: bool, errors: seq<string>)

  /** `x && x < 0` on a numeric field. */
  predicate Negative(v: Option<JsValue>) {
    v.Some? && Truthy(v.value) && v.value.Num? && v.value.n < 0.0
  }

  predicate BadPlate(f: StructuredFields) {
    IsSet(f.license_plate) && !PlateShape(f.license_plate.value)
  }

  predicate BadVin(f: StructuredFields) {
    IsSet(f.chassis_number) && !VinShape(ToUpper(f.chassis_number.value))
  }

  predicate BadDate(d: Option<string>) {
    IsSet(d) && !IsoDateShape(d.value)
  }

  /** The checks of `validateStructuredFields`, in the order it runs them. */
  datatype Problem =
    | PlateFormat | VinFormat | BirthDateFormat | RegistrationDateFormat
    | ManufacturingDateFormat | NegativeMileage | NegativeWeight | NegativeDisplacement

  const CheckOrder: seq<Problem> := [
    PlateFormat, VinFormat, BirthDateFormat, RegistrationDateFormat,
    ManufacturingDateFormat, NegativeMileage, NegativeWeight, NegativeDisplacement]

  /** Every check is run. */
  lemma Checked(p: Problem)
    ensures p in CheckOrder
  {
  }

  /** The message each failed check pushes. */
  function Message(p: Problem): string {
    match p
    case PlateFormat => "Invalid license plate format"
    case VinFormat => "Invalid VIN format (must be 17 alphanumeric characters, no I/O/Q)"
    case BirthDateFormat => "Invalid birth date format"
    case RegistrationDateFormat => "Invalid registration date format"
    case ManufacturingDateFormat => "Invalid manufacturing date format"
    case NegativeMileage => "Invalid mileage (cannot be negative)"
    case NegativeWeight => "Invalid weight (cannot be negative)"
    case NegativeDisplacement => "Invalid engine displacement (cannot be negative)"
  }

  /** The condition under which a check fails. */
  predicate Fails(f: StructuredFields, p: Problem) {
    match p
    case PlateFormat => BadPlate(f)
    case VinFormat => BadVin(f)
    case BirthDateFormat => BadDate(f.birth_date)
    case RegistrationDateFormat => BadDate(f.initial_registration_date)
    case ManufacturingDateFormat => BadDate(f.manufacturing_date)
    case NegativeMileage => Negative(f.mileage_km)
    case NegativeWeight => Negative(f.gross_weight)
    case NegativeDisplacement => Negative(f.engine_displacement)
  }

  /** The checks of `checks` that fail, in order. */
  function Failing(f: StructuredFields, checks: seq<Problem>): (r: seq<Problem>)
    ensures |r| <= |checks|
    ensures forall p :: p in r <==> p in checks && Fails(f, p)
  {
    if checks == [] then []
    else (if Fails(f, checks[0]) then [checks[0]] else []) + Failing(f, checks[1..])
  }

  /** The messages of the failed checks: what the `errors.push` calls leave. */
  function Messages(ps: seq<Problem>): (r: seq<string>)
    ensures |r| == |ps| && forall i :: 0 <= i < |ps| ==> r[i] == Message(ps[i])
  {
    if ps == [] then [] else [Message(ps[0])] + Messages(ps[1..])
  }


  /** `validateStructuredFields`: every check that fails pushes its message,
      in the order plate, chassis number, the three dates, mileage, weight,
      displacement; the fields are valid when none failed. */
  function ValidateStructuredFields(f: StructuredFields): (r: Validation)
    ensures r.isValid <==> r.errors == []
    ensures r.isValid <==> forall p :: !Fails(f, p)
    ensures |r.errors| <= 8
    ensures forall p :: Fails(f, p) ==> Message(p) in r.errors
    ensures |r.errors| == |Failing(f, CheckOrder)|
    ensures forall i :: 0 <= i < |r.errors| ==> r.errors[i] == Message(Failing(f, CheckOrder)[i])
  {
    FailingReported(f);
    NoneFailing(f);
    var errors := Messages(Failing(f, CheckOrder));
    Validation(|errors| == 0, errors)
  }

  /** Each check that fails leaves its message. */
  lemma FailingReported(f: StructuredFields)
    ensures forall p :: Fails(f, p) ==> Message(p) in Messages(Failing(f, CheckOrder))
  {
    var failing := Failing(f, CheckOrder);
    forall p | Fails(f, p)
      ensures Message(p) in Messages(failing)
    {
      Checked(p);
      var i :| 0 <= i < |failing| && failing[i] == p;
      assert Messages(failing)[i] == Message(p);
    }
  }

  /** No check is reported exactly when no check fails. */
  lemma NoneFailing(f: StructuredFields)
    ensures Failing(f, CheckOrder) == [] <==> forall p :: !Fails(f, p)
  {
    var failing := Failing(f, CheckOrder);
    if failing != [] {
      assert Fails(f, failing[0]);
    } else {
      forall p
        ensures !Fails(f, p)
      {
        Checked(p);
      }
    }
  }

  /** A VIN is already upper case. */
  lemma VinUpper(v: string)
    requires VinShape(v)
    ensures ToUpper(v) == v
  {
    assert forall i :: 0 <= i < |v| ==> UpperChar(v[i]) == v[i];
  }

  /** What every rule guarantees of the value it writes. */
  predicate ParsedShape(f: StructuredFields) {
    (f.license_plate.Some? ==> PlateShape(f.license_plate.value))
    && (f.chassis_number.Some? ==> VinShape(f.chassis_number.value))
    && (f.birth_date.Some? ==> IsoDateShape(f.birth_date.value))
    && (f.initial_registration_date.Some? ==> IsoDateShape(f.initial_registration_date.value))
    && (f.manufacturing_date.Some? ==> IsoDateShape(f.manufacturing_date.value))
    && !Negative(f.mileage_km) && !Negative(f.gross_weight) && !Negative(f.engine_displacement)
  }

  /** What every rule guarantees of what it finds on a line. */
  predicate FindingsShape(f: Findings) {
    (f.plate.Some? ==> PlateShape(f.plate.value))
    && (f.vin.Some? ==> VinShape(f.vin.value))
    && (f.birth.Some? ==> IsoDateShape(f.birth.value))
    && (f.registration.Some? ==> IsoDateShape(f.registration.value))
    && (f.manufacture.Some? ==> IsoDateShape(f.manufacture.value))
    && !Negative(f.weight) && !Negative(f.displacement)
  }

  lemma FindingsOfShape(line: string)
    ensures FindingsShape(FindingsOf(line))
  {
  }

  /** The assignments keep the guarantees. */
  lemma ApplyShape(out: StructuredFields, f: Findings, line: string)
    requires ParsedShape(out) && FindingsShape(f)
    ensures ParsedShape(Apply(out, f, line))
  {
  }

  lemma {:induction false} ScanShape(lines: seq<string>)
    ensures ParsedShape(Scan(lines))
    decreases |lines|
  {
    if lines != [] {
      var n := |lines| - 1;
      ScanShape(lines[..n]);
      FindingsOfShape(lines[n]);
      ApplyShape(Scan(lines[..n]), FindingsOf(lines[n]), lines[n]);
    }
  }

  /** The parser's own output always passes the validator. */
  lemma ParsedIsValid(textLines: seq<string>)
    ensures ValidateStructuredFields(Parse(textLines)).isValid
  {
    ParseShape(textLines);
    ShapeValid(Parse(textLines));
  }

  /** The output of the parser has the guaranteed shapes, and its mileage,
      the largest candidate, is positive. */
  lemma ParseShape(textLines: seq<string>)
    ensures ParsedShape(Parse(textLines))
  {
    var lines := TrimAll(textLines);
    var c := Candidates(lines);
    ScanShape(lines);
    if c != [] {
      CollectedAre(lines, MileageIn, MaxOf(c));
    }
    assert Parse(textLines) == Scan(lines).(mileage_km := MaxMileage(c));
  }

  /** Fields of the guaranteed shapes fail no check. */
  lemma ShapeValid(f: StructuredFields)
    requires ParsedShape(f)
    ensures forall p :: !Fails(f, p)
  {
    if IsSet(f.chassis_number) {
      VinUpper(f.chassis_number.value);
    }
  }
}
