/** The text-only field extractor for vehicle registrations and ID cards:
    for each field a list of patterns is tried in order, and each field has
    its own policy (first match, last match, first valid match, range gate,
    maximum over every candidate). The dispatcher prefers structured fields
    that a Surya result already carries. */
module OcrExtractor {
  import opened Js
  import opened Text
  import opened Shapes
  import Surya

  // ------------------------------------------------------------ matches

  /** One match: the whole matched text and its capture groups (group j is
      `groups[j - 1]`; a group the pattern does not have reads as absent). */
  datatype RegexMatch = RegexMatch(whole: string, groups: seq<string>)

  /** The pattern lists of the extractor, one per field. */
  datatype Family =
    | PlatePatterns | ModelPatterns | DatePatterns | VinPatterns | AddressPatterns
    | NamePatterns | DisplacementPatterns | FuelPatterns | MileagePatterns | WeightPatterns
    | NumberRuns | HangulRuns | CardSsn | CardName | CardAddress

  /** For a pattern list and a text, the matches of each pattern in order,
      leftmost first (what `text.matchAll(p)` yields; `text.match(p)` with
      the global flag is their whole texts, or null when there are none). */
  type Scan = (Family, string) -> seq<seq<RegexMatch>>

  function Last(ms: seq<RegexMatch>): RegexMatch
    requires ms != []
  {
    ms[|ms| - 1]
  }

  /** Capture group `j`, '' when the pattern has no such group. */
  function Group(m: RegexMatch, j: nat): string {
    if 1 <= j <= |m.groups| then m.groups[j - 1] else ""
  }

  /** `m[j]` is truthy: the group exists and is not empty. */
  predicate HasGroup(m: RegexMatch, j: nat) {
    1 <= j <= |m.groups| && m.groups[j - 1] != ""
  }

  // ------------------------------------------------------------ selection

  /** The index of the first item whose outcome is a value, scanning from `i`. */
  function FirstHitFrom<T>(xs: seq<T>, outcome: T -> Option<JsValue>, i: nat): (r: Option<nat>)
    requires i <= |xs|
    ensures r.Some? ==> i <= r.value < |xs| && outcome(xs[r.value]).Some?
    ensures r.Some? ==> forall j :: i <= j < r.value ==> outcome(xs[j]).None?
    ensures r.None? ==> forall j :: i <= j < |xs| ==> outcome(xs[j]).None?
    decreases |xs| - i
  {
    if i == |xs| then None
    else if outcome(xs[i]).Some? then Some(i)
    else FirstHitFrom(xs, outcome, i + 1)
  }

  /** The outcome of the first item that has one: the `for … { if (…) {
      fields.x = …; break } }` policy every rule list follows. */
  function FirstRule<T>(xs: seq<T>, outcome: T -> Option<JsValue>): (r: Option<JsValue>)
    ensures r.Some? ==> exists i :: 0 <= i < |xs| && r == outcome(xs[i])
    ensures r.None? <==> forall j :: 0 <= j < |xs| ==> outcome(xs[j]).None?
  {
    match FirstHitFrom(xs, outcome, 0)
    case Some(i) => outcome(xs[i])
    case None => None
  }

  /** The first rule with an outcome decides, whatever follows it. */
  lemma FirstRuleIs<T>(xs: seq<T>, outcome: T -> Option<JsValue>, i: nat)
    requires i < |xs| && outcome(xs[i]).Some?
    requires forall j :: 0 <= j < i ==> outcome(xs[j]).None?
    ensures FirstRule(xs, outcome) == outcome(xs[i])
  {
  }

  /** Tries the rules in order and stops at the first that yields a value. */
  method ApplyRules<T>(xs: seq<T>, outcome: T -> Option<JsValue>) returns (r: Option<JsValue>)
    ensures r == FirstRule(xs, outcome)
  {
    r := None;
    var i := 0;
    while i < |xs|
      invariant 0 <= i <= |xs|
      invariant forall j :: 0 <= j < i ==> outcome(xs[j]).None?
    {
      var o := outcome(xs[i]);
      if o.Some? {
        FirstRuleIs(xs, outcome, i);
        return o;
      }
      i := i + 1;
    }
  }

  /** The first outcome of the first list that has one: a pattern loop
      around a match loop, both left at the first value. */
  function FirstNested<T>(lists: seq<seq<T>>, inner: T -> Option<JsValue>): (r: Option<JsValue>)
    ensures r.None? <==> forall j :: 0 <= j < |lists| ==> FirstRule(lists[j], inner).None?
    ensures r.Some? ==> exists j :: (0 <= j < |lists| && r == FirstRule(lists[j], inner)
      && forall i :: 0 <= i < j ==> FirstRule(lists[i], inner).None?)
    decreases |lists|
  {
    if lists == [] then None
    else if FirstRule(lists[0], inner).Some? then FirstRule(lists[0], inner)
    else
      var r := FirstNested(lists[1..], inner);
      assert forall j :: 1 <= j < |lists| ==> lists[j] == lists[1..][j - 1];
      r
  }

  /** The nested loops, leaving both at the first value. */
  method ApplyNested<T>(lists: seq<seq<T>>, inner: T -> Option<JsValue>) returns (r: Option<JsValue>)
    ensures r == FirstNested(lists, inner)
  {
    var p := 0;
    while p < |lists|
      invariant 0 <= p <= |lists|
      invariant FirstNested(lists, inner) == FirstNested(lists[p..], inner)
    {
      var found := ApplyRules(lists[p], inner);
      if found.Some? {
        return found;
      }
      assert lists[p..][1..] == lists[p + 1..];
      p := p + 1;
    }
    return None;
  }

  /** What a pattern loop around a match loop collects: the candidates of
      every match of every list, in order. */
  function Collected<T>(lists: seq<seq<T>>, cand: T -> Option<int>): seq<int>
    decreases |lists|
  {
    if lists == [] then [] else Kept(lists[0], cand) + Collected(lists[1..], cand)
  }

  /** The candidates of one list, in order. */
  function Kept<T>(ms: seq<T>, cand: T -> Option<int>): seq<int>
    decreases |ms|
  {
    if ms == [] then [] else (if cand(ms[0]).Some? then [cand(ms[0]).value] else []) + Kept(ms[1..], cand)
  }

  lemma {:induction false} KeptAppend<T>(a: seq<T>, b: seq<T>, cand: T -> Option<int>)
    ensures Kept(a + b, cand) == Kept(a, cand) + Kept(b, cand)
    decreases |a|
  {
    if a == [] {
      assert a + b == b;
    } else {
      var ab := a + b;
      assert ab[0] == a[0] && ab[1..] == a[1..] + b;
      var head := if cand(a[0]).Some? then [cand(a[0]).value] else [];
      assert Kept(ab, cand) == head + Kept(ab[1..], cand);
      KeptAppend(a[1..], b, cand);
      assert Kept(a, cand) == head + Kept(a[1..], cand);
    }
  }

  lemma KeptOne<T>(m: T, cand: T -> Option<int>)
    ensures Kept([m], cand) == if cand(m).Some? then [cand(m).value] else []
  {
    assert [m][1..] == [];
  }

  lemma {:induction false} CollectedAppend<T>(a: seq<seq<T>>, b: seq<seq<T>>, cand: T -> Option<int>)
    ensures Collected(a + b, cand) == Collected(a, cand) + Collected(b, cand)
    decreases |a|
  {
    if a == [] {
      assert a + b == b;
    } else {
      assert (a + b)[1..] == a[1..] + b;
      CollectedAppend(a[1..], b, cand);
    }
  }

  /** Pushes the candidate of every match of every list, in order. */
  method Collect<T>(lists: seq<seq<T>>, cand: T -> Option<int>) returns (cs: seq<int>)
    ensures cs == Collected(lists, cand)
  {
    cs := [];
    for p := 0 to |lists|
      invariant cs == Collected(lists[..p], cand)
    {
      var ms := lists[p];
      ghost var before := cs;
      for k := 0 to |ms|
        invariant cs == before + Kept(ms[..k], cand)
      {
        KeptAppend(ms[..k], [ms[k]], cand);
        assert ms[..k + 1] == ms[..k] + [ms[k]];
        KeptOne(ms[k], cand);
        var v := cand(ms[k]);
        if v.Some? {
          assert before + Kept(ms[..k], cand) + [v.value] == before + (Kept(ms[..k], cand) + [v.value]);
          cs := cs + [v.value];
        } else {
          assert Kept(ms[..k], cand) + [] == Kept(ms[..k], cand);
        }
      }
      assert ms[..|ms|] == ms;
      CollectedAppend(lists[..p], [ms], cand);
      assert lists[..p + 1] == lists[..p] + [ms];
    }
    assert lists[..|lists|] == lists;
  }

  // ------------------------------------------------------------ rules

  /** The plate: the first whole match, white space removed. */
  function PlateOutcome(ms: seq<RegexMatch>): Option<JsValue> {
    if ms == [] then None else Some(Str(StripSpaces(ms[0].whole)))
  }

  /** Model and address: the first whole match, trimmed. */
  function TrimmedOutcome(ms: seq<RegexMatch>): Option<JsValue> {
    if ms == [] then None else Some(Str(Trim(ms[0].whole)))
  }

  /** The chassis number: the last whole match, white space removed, kept
      only when 17 characters remain. */
  function VinOutcome(ms: seq<RegexMatch>): Option<JsValue> {
    if ms == [] then None
    else
      var clean := StripSpaces(Last(ms).whole);
      if |clean| == 17 then Some(Str(clean)) else None
  }

  /** The owner: the last whole match, as it is. */
  function NameOutcome(ms: seq<RegexMatch>): Option<JsValue> {
    if ms == [] then None else Some(Str(Last(ms).whole))
  }

  /** An integer accepted only within [lo, hi]. */
  function InRange(v: Option<int>, lo: int, hi: int): Option<JsValue> {
    if v.Some? && lo <= v.value <= hi then Some(IntNum(v.value)) else None
  }

  /** The displacement: `parseInt` of the last whole match, within 50–8000. */
  function DisplacementOutcome(ms: seq<RegexMatch>): Option<JsValue> {
    if ms == [] then None else InRange(ParseInt(Last(ms).whole), 50, 8000)
  }

  /** The fuel synonyms of the lowercased match. */
  const FuelSynonyms: map<string, string> := map[
    "가솔린" := "휘발유", "디젤" := "경유", "lpg" := "LPG", "cng" := "CNG",
    "전기" := "전기", "하이브리드" := "하이브리드"]

  /** `fuelMap[fuelType] || fuelType` */
  function FuelMapped(s: string): string {
    if s in FuelSynonyms then FuelSynonyms[s] else s
  }

  /** The fuel: the last whole match, lowercased, through the synonyms. */
  function FuelOutcome(ms: seq<RegexMatch>): Option<JsValue> {
    if ms == [] then None else Some(Str(FuelMapped(ToLower(Last(ms).whole))))
  }

  /** The gross weight: of the last match, group 2 when present and group 1
      otherwise, commas removed, within 500–50000. */
  function WeightOutcome(ms: seq<RegexMatch>): Option<JsValue> {
    if ms == [] then None else InRange(ParseInt(WeightFigure(Last(ms))), 500, 50000)
  }

  /** `(match[2] || match[1]).replace(/,/g, '')`: the figure a weight match
      offers. */
  function WeightFigure(last: RegexMatch): string {
    RemoveCommas(if HasGroup(last, 2) then Group(last, 2) else Group(last, 1))
  }

  // ------------------------------------------------------------ dates

  /** A candidate date is kept when the year is at least 1980, the month
      1–12 and the day 1–31. */
  predicate PlausibleDate(y: Option<int>, m: Option<int>, d: Option<int>) {
    y.Some? && m.Some? && d.Some?
    && y.value >= 1980 && 1 <= m.value <= 12 && 1 <= d.value <= 31
  }

  /** `${year}-${String(month).padStart(2,'0')}-${String(day).padStart(2,'0')}` */
  function DateText(y: int, m: int, d: int): string {
    IntToString(y) + "-" + PadStart2(IntToString(m)) + "-" + PadStart2(IntToString(d))
  }

  /** The date of one match of a date pattern, when plausible. */
  function DateOf(m: RegexMatch): Option<JsValue> {
    var y := ParseInt(Group(m, 1));
    var mo := ParseInt(Group(m, 2));
    var d := ParseInt(Group(m, 3));
    if PlausibleDate(y, mo, d) then Some(Str(DateText(y.value, mo.value, d.value))) else None
  }

  /** A plausible date with a four-digit year is written YYYY-MM-DD, and the
      month and day read back as the numbers found. */
  lemma {:induction false} DateTextShape(y: int, m: int, d: int)
    requires 1980 <= y <= 9999 && 1 <= m <= 12 && 1 <= d <= 31
    ensures IsoDateShape(DateText(y, m, d))
    ensures DigitsValue(DateText(y, m, d)[..4]) == y
    ensures DigitsValue(DateText(y, m, d)[5..7]) == m && DigitsValue(DateText(y, m, d)[8..]) == d
  {
    var ys, ms, ds := NatToString(y), NatToString(m), NatToString(d);
    NatToStringRoundTrip(y);
    NatToStringRoundTrip(m);
    NatToStringRoundTrip(d);
    PaddedValue(ms);
    PaddedValue(ds);
    DatePieces(ys, PadStart2(ms), PadStart2(ds));
  }

  /** Where the three pieces of a YYYY-MM-DD text sit. */
  lemma DatePieces(ys: string, pm: string, pd: string)
    requires |ys| == 4 && |pm| == 2 && |pd| == 2
    ensures (ys + "-" + pm + "-" + pd)[..4] == ys
    ensures (ys + "-" + pm + "-" + pd)[5..7] == pm
    ensures (ys + "-" + pm + "-" + pd)[8..] == pd
    ensures |ys + "-" + pm + "-" + pd| == 10
    ensures (ys + "-" + pm + "-" + pd)[4] == '-' && (ys + "-" + pm + "-" + pd)[7] == '-'
  {
  }

  /** Zero-padding a one- or two-digit number keeps its value. */
  lemma PaddedValue(s: string)
    requires 1 <= |s| <= 2 && AllDigits(s)
    ensures |PadStart2(s)| == 2 && AllDigits(PadStart2(s)) && DigitsValue(PadStart2(s)) == DigitsValue(s)
  {
    var p := PadStart2(s);
    if |s| == 1 {
      assert p == ['0', s[0]];
      assert p[..1] == ['0'] && ['0'][..0] == [];
      assert s[..0] == [];
    }
  }

  function Pow10(n: nat): nat {
    if n == 0 then 1 else 10 * Pow10(n - 1)
  }

  /** A string of `n` digits is worth less than 10^n. */
  lemma {:induction false} DigitsBelow(s: string)
    requires AllDigits(s)
    ensures DigitsValue(s) < Pow10(|s|)
    decreases |s|
  {
    if s != [] {
      DigitsBelow(s[..|s| - 1]);
    }
  }

  /** `parseInt` of at most four characters is below 10000. */
  lemma ParseIntBelow(s: string)
    requires |s| <= 4 && ParseInt(s).Some?
    ensures ParseInt(s).value < 10000
  {
    var t := TrimStart(s);
    var rest := if |t| > 0 && (t[0] == '-' || t[0] == '+') then t[1..] else t;
    DigitsBelow(DigitPrefix(rest));
    assert Pow10(|DigitPrefix(rest)|) <= Pow10(4) by {
      var n := |DigitPrefix(rest)|;
      assert n <= 4;
      assert Pow10(4) == 10000;
      assert Pow10(0) == 1 && Pow10(1) == 10 && Pow10(2) == 100 && Pow10(3) == 1000;
    }
  }

  /** A date taken from a match whose year group has at most four
      characters (the pattern's `(\d{4})`) is written YYYY-MM-DD. */
  lemma DateOfShape(m: RegexMatch)
    requires DateOf(m).Some? && |Group(m, 1)| <= 4
    ensures DateOf(m).value.Str? && IsoDateShape(DateOf(m).value.s)
  {
    var y := ParseInt(Group(m, 1));
    ParseIntBelow(Group(m, 1));
    DateTextShape(y.value, ParseInt(Group(m, 2)).value, ParseInt(Group(m, 3)).value);
  }

  // ------------------------------------------------------------ mileage

  /** A mileage candidate: group 1, commas removed, kept when strictly
      between 0 and 2,000,000. */
  function MileageOf(m: RegexMatch): (r: Option<int>)
    ensures r.Some? ==> 0 < r.value < 2000000
  {
    var v := ParseInt(RemoveCommas(Group(m, 1)));
    if v.Some? && 0 < v.value < 2000000 then v else None
  }

  /** Every kept candidate lies strictly between 0 and 2,000,000. */
  lemma {:induction false} MileageInRange(lists: seq<seq<RegexMatch>>)
    ensures forall k :: 0 <= k < |Collected(lists, MileageOf)| ==> 0 < Collected(lists, MileageOf)[k] < 2000000
    decreases |lists|
  {
    if lists != [] {
      KeptInRange(lists[0]);
      MileageInRange(lists[1..]);
    }
  }

  lemma {:induction false} KeptInRange(ms: seq<RegexMatch>)
    ensures forall k :: 0 <= k < |Kept(ms, MileageOf)| ==> 0 < Kept(ms, MileageOf)[k] < 2000000
    decreases |ms|
  {
    if ms != [] {
      KeptInRange(ms[1..]);
    }
  }

  /** `Math.max(...cs)` */
  function Max(cs: seq<int>): (r: int)
    requires cs != []
    ensures r in cs && forall k :: 0 <= k < |cs| ==> cs[k] <= r
    decreases |cs|
  {
    if |cs| == 1 then cs[0]
    else
      var rest := Max(cs[1..]);
      assert forall k :: 1 <= k < |cs| ==> cs[k] == cs[1..][k - 1];
      if cs[0] >= rest then cs[0] else rest
  }

  /** The mileage: the largest candidate, absent when there is none. */
  function MileageOutcome(lists: seq<seq<RegexMatch>>): Option<JsValue> {
    var cs := Collected(lists, MileageOf);
    if cs == [] then None else Some(IntNum(Max(cs)))
  }

  // ------------------------------------------------------------ registration

  /** `fields[key] = v` when the rule found a value. */
  function Put(fields: Object, key: string, v: Option<JsValue>): Object {
    if v.Some? then fields[key := v.value] else fields
  }

  /** The first `n` whole matches of a single pattern, as strings. */
  function Wholes(lists: seq<seq<RegexMatch>>, n: nat): Option<JsValue> {
    if lists == [] || lists[0] == [] then None
    else
      var ms := lists[0];
      var k := if n < |ms| then n else |ms|;
      Some(Arr(seq(k, i requires 0 <= i < k => Str(ms[i].whole))))
  }

  /** The registration's first six fields, in the order the extractor
      assigns them. */
  function Described(text: string, scan: Scan): Object {
    var f1 := Put(map[], "license_plate", FirstRule(scan(PlatePatterns, text), PlateOutcome));
    var f2 := Put(f1, "vehicle_model", FirstRule(scan(ModelPatterns, text), TrimmedOutcome));
    var f3 := Put(f2, "manufacturing_date", FirstNested(scan(DatePatterns, text), DateOf));
    var f4 := Put(f3, "chassis_number", FirstRule(scan(VinPatterns, text), VinOutcome));
    var f5 := Put(f4, "registered_address", FirstRule(scan(AddressPatterns, text), TrimmedOutcome));
    Put(f5, "owner_name", FirstRule(scan(NamePatterns, text), NameOutcome))
  }

  /** The remaining six, assigned after those. */
  function Measured(fields: Object, text: string, scan: Scan): Object {
    var f1 := Put(fields, "engine_displacement", FirstRule(scan(DisplacementPatterns, text), DisplacementOutcome));
    var f2 := Put(f1, "fuel_type", FirstRule(scan(FuelPatterns, text), FuelOutcome));
    var f3 := Put(f2, "detected_numbers", Wholes(scan(NumberRuns, text), 10));
    var f4 := Put(f3, "detected_korean", Wholes(scan(HangulRuns, text), 15));
    var f5 := Put(f4, "mileage", MileageOutcome(scan(MileagePatterns, text)));
    Put(f5, "gross_weight", FirstRule(scan(WeightPatterns, text), WeightOutcome))
  }

  /** The registration's fields. */
  function VehicleRegistrationFields(text: string, scan: Scan): Object {
    Measured(Described(text, scan), text, scan)
  }

  /** `mapVehicleRegistrationFields(ocrText)` */
  method MapVehicleRegistrationFields(text: string, scan: Scan) returns (fields: Object)
    ensures fields == VehicleRegistrationFields(text, scan)
  {
    fields := DescriptiveRules(text, scan);
    fields := MeasuredRules(fields, text, scan);
  }

  /** Plate, model, date, chassis number, address and owner. */
  method DescriptiveRules(text: string, scan: Scan) returns (fields: Object)
    ensures fields == Described(text, scan)
  {
    fields := map[];
    var plate := ApplyRules(scan(PlatePatterns, text), PlateOutcome);
    fields := Put(fields, "license_plate", plate);
    var model := ApplyRules(scan(ModelPatterns, text), TrimmedOutcome);
    fields := Put(fields, "vehicle_model", model);
    var date := ApplyNested(scan(DatePatterns, text), DateOf);
    fields := Put(fields, "manufacturing_date", date);
    var vin := ApplyRules(scan(VinPatterns, text), VinOutcome);
    fields := Put(fields, "chassis_number", vin);
    var address := ApplyRules(scan(AddressPatterns, text), TrimmedOutcome);
    fields := Put(fields, "registered_address", address);
    var owner := ApplyRules(scan(NamePatterns, text), NameOutcome);
    fields := Put(fields, "owner_name", owner);
  }

  /** The mileage: the largest candidate of every match of every pattern,
      when there is one. */
  method MileageRule(fields: Object, lists: seq<seq<RegexMatch>>) returns (r: Object)
    ensures r == Put(fields, "mileage", MileageOutcome(lists))
  {
    r := fields;
    var candidates := Collect(lists, MileageOf);
    if candidates != [] {
      r := fields["mileage" := IntNum(Max(candidates))];
    }
  }

  /** Displacement, fuel, the detected samples, mileage and weight. */
  method MeasuredRules(described: Object, text: string, scan: Scan) returns (fields: Object)
    ensures fields == Measured(described, text, scan)
  {
    var displacement := ApplyRules(scan(DisplacementPatterns, text), DisplacementOutcome);
    fields := Put(described, "engine_displacement", displacement);
    var fuel := ApplyRules(scan(FuelPatterns, text), FuelOutcome);
    fields := Put(fields, "fuel_type", fuel);
    fields := Put(fields, "detected_numbers", Wholes(scan(NumberRuns, text), 10));
    fields := Put(fields, "detected_korean", Wholes(scan(HangulRuns, text), 15));
    fields := MileageRule(fields, scan(MileagePatterns, text));
    var weight := ApplyRules(scan(WeightPatterns, text), WeightOutcome);
    fields := Put(fields, "gross_weight", weight);
  }

  // ------------------------------------------------------------ ID card

  /** Group 1 of the leftmost match of a single pattern. */
  function FirstGroup(lists: seq<seq<RegexMatch>>): Option<JsValue> {
    if lists == [] || lists[0] == [] then None else Some(Str(Group(lists[0][0], 1)))
  }

  /** `mapIdCardFields(ocrText)`: resident number, name and address, each
      from group 1 of its pattern's leftmost match. */
  function IdCardFields(text: string, scan: Scan): (r: Object)
    ensures forall k :: k in r ==> k in {"ssn", "name", "address"} && r[k].Str?
  {
    var f1 := Put(map[], "ssn", FirstGroup(scan(CardSsn, text)));
    var f2 := Put(f1, "name", FirstGroup(scan(CardName, text)));
    Put(f2, "address", FirstGroup(scan(CardAddress, text)))
  }

  // ------------------------------------------------------------ dispatch

  /** `Object.keys(v).length` */
  function KeyCount(v: JsValue): nat {
    match v
    case Obj(o) => |o.Keys|
    case Arr(items) => |items|
    case Str(s) => |s|
    case _ => 0
  }

  /** The object inputs the dispatcher can read: a truthy `text` is a
      string (it is matched against patterns). */
  predicate TextIsString(ocr: JsValue) {
    ocr.Obj? && Truthy(Get(ocr.props, "text")) ==> Get(ocr.props, "text").Str?
  }

  /** An object result carrying text. */
  predicate CarriesText(ocr: JsValue) {
    ocr.Obj? && Truthy(Get(ocr.props, "text"))
  }

  /** A result whose structured fields the dispatcher hands to the Surya adapter. */
  predicate HasStructured(ocr: JsValue) {
    CarriesText(ocr) && Truthy(Get(ocr.props, "structured_fields"))
    && KeyCount(Get(ocr.props, "structured_fields")) > 0
  }

  /** The text the typed extractors see: the object's text, the string
      itself, or `String(ocrResult || '')`. */
  function InputText(ocr: JsValue, numText: real -> string): string
    requires TextIsString(ocr)
  {
    if CarriesText(ocr) then Get(ocr.props, "text").s
    else if ocr.Str? then ocr.s
    else ToJsString(Or(ocr, Str("")), numText)
  }

  /** `mapFieldsByDocumentType(documentType, ocrResult)` */
  function FieldsByDocumentType(docType: string, ocr: JsValue, scan: Scan, numText: real -> string): Object
    requires TextIsString(ocr)
  {
    var text := InputText(ocr, numText);
    if HasStructured(ocr) then
      Surya.SuryaFields(map[
        "structured_fields" := Get(ocr.props, "structured_fields"),
        "raw_text" := Str(text),
        "confidence" := Get(ocr.props, "confidence")])
    else if docType == "VEHICLE_REGISTRATION" then VehicleRegistrationFields(text, scan)
    else if docType == "ID_CARD" then IdCardFields(text, scan)
    else if CarriesText(ocr) then map["extracted_text" := Str(Prefix(text, 500)), "method" := Get(ocr.props, "method")]
    else map["extracted_text" := Str(Prefix(text, 500))]
  }

  // ------------------------------------------------------------ properties

  /** The chassis number, when found, is 17 characters without white space,
      taken from the last match of the first pattern whose last match has
      17 characters once spaces are removed. */
  lemma ChassisNumberShape(lists: seq<seq<RegexMatch>>)
    requires FirstRule(lists, VinOutcome).Some?
    ensures FirstRule(lists, VinOutcome).value.Str?
    ensures |FirstRule(lists, VinOutcome).value.s| == 17
    ensures forall i :: 0 <= i < |FirstRule(lists, VinOutcome).value.s| ==> !IsSpace(FirstRule(lists, VinOutcome).value.s[i])
  {
    var i :| 0 <= i < |lists| && FirstRule(lists, VinOutcome) == VinOutcome(lists[i]);
    RemoveWhereDrops(Last(lists[i]).whole, IsSpace);
  }

  /** A rule without an outcome is passed over: the rules after it decide. */
  lemma FirstRuleSkips<T>(xs: seq<T>, outcome: T -> Option<JsValue>)
    requires xs != [] && outcome(xs[0]).None?
    ensures FirstRule(xs, outcome) == FirstRule(xs[1..], outcome)
  {
    match FirstHitFrom(xs, outcome, 0)
    case None =>
      assert forall j :: 0 <= j < |xs[1..]| ==> outcome(xs[1..][j]) == outcome(xs[j + 1]);
    case Some(i) =>
      assert forall j :: 0 <= j < i - 1 ==> outcome(xs[1..][j]) == outcome(xs[j + 1]);
      FirstRuleIs(xs[1..], outcome, i - 1);
  }

  /** One displacement pattern is accepted exactly when its last whole match
      parses to a number in 50–8000, and it then yields that number as it
      is. */
  lemma DisplacementGate(ms: seq<RegexMatch>)
    ensures DisplacementOutcome(ms).Some? <==>
      ms != [] && ParseInt(Last(ms).whole).Some? && 50 <= ParseInt(Last(ms).whole).value <= 8000
    ensures DisplacementOutcome(ms).Some? ==> DisplacementOutcome(ms) == Some(IntNum(ParseInt(Last(ms).whole).value))
  {
  }

  /** One weight pattern is accepted exactly when its figure parses to a
      number in 500–50000, and it then yields that number as it is. */
  lemma WeightGate(ms: seq<RegexMatch>)
    ensures WeightOutcome(ms).Some? <==>
      ms != [] && ParseInt(WeightFigure(Last(ms))).Some? && 500 <= ParseInt(WeightFigure(Last(ms))).value <= 50000
    ensures WeightOutcome(ms).Some? ==> WeightOutcome(ms) == Some(IntNum(ParseInt(WeightFigure(Last(ms))).value))
  {
  }

  /** The displacement is never clamped: the value kept is the number
      parsed from the first pattern whose number lies in 50–8000, and every
      pattern before it parsed to NaN or to a number out of range. */
  lemma DisplacementNeverClamped(ls: seq<seq<RegexMatch>>)
    ensures FirstRule(ls, DisplacementOutcome).Some? ==>
      exists i :: 0 <= i < |ls| && ls[i] != []
        && ParseInt(Last(ls[i]).whole).Some? && 50 <= ParseInt(Last(ls[i]).whole).value <= 8000
        && FirstRule(ls, DisplacementOutcome) == Some(IntNum(ParseInt(Last(ls[i]).whole).value))
        && forall j :: 0 <= j < i ==>
             ls[j] == [] || ParseInt(Last(ls[j]).whole).None?
             || ParseInt(Last(ls[j]).whole).value < 50 || ParseInt(Last(ls[j]).whole).value > 8000
  {
    if FirstRule(ls, DisplacementOutcome).Some? {
      var i := FirstHitFrom(ls, DisplacementOutcome, 0).value;
      DisplacementGate(ls[i]);
      forall j | 0 <= j < i { DisplacementGate(ls[j]); }
    }
  }

  /** The gross weight is never clamped: the value kept is the number
      parsed from the figure of the first pattern whose number lies in
      500–50000, and every pattern before it parsed to NaN or to a number
      out of range. */
  lemma WeightNeverClamped(ls: seq<seq<RegexMatch>>)
    ensures FirstRule(ls, WeightOutcome).Some? ==>
      exists i :: 0 <= i < |ls| && ls[i] != []
        && ParseInt(WeightFigure(Last(ls[i]))).Some? && 500 <= ParseInt(WeightFigure(Last(ls[i]))).value <= 50000
        && FirstRule(ls, WeightOutcome) == Some(IntNum(ParseInt(WeightFigure(Last(ls[i]))).value))
        && forall j :: 0 <= j < i ==>
             ls[j] == [] || ParseInt(WeightFigure(Last(ls[j]))).None?
             || ParseInt(WeightFigure(Last(ls[j]))).value < 500 || ParseInt(WeightFigure(Last(ls[j]))).value > 50000
  {
    if FirstRule(ls, WeightOutcome).Some? {
      var i := FirstHitFrom(ls, WeightOutcome, 0).value;
      WeightGate(ls[i]);
      forall j | 0 <= j < i { WeightGate(ls[j]); }
    }
  }

  /** A displacement match that begins with its label (the first pattern's
      whole match starts with '배기량') parses as NaN and is passed over. */
  lemma LabelledDisplacementSkipped(ms: seq<RegexMatch>)
    requires ms != [] && Last(ms).whole != [] && IsHangul(Last(ms).whole[0])
    ensures DisplacementOutcome(ms).None?
  {
    var w := Last(ms).whole;
    assert TrimStart(w) == w;
    assert DigitPrefix(w) == "";
  }

  /** The fuel synonyms, and any other value kept as it is. */
  lemma FuelSynonymsApplied(s: string)
    ensures FuelMapped(ToLower("LPG")) == "LPG" && FuelMapped(ToLower("CNG")) == "CNG"
    ensures FuelMapped("가솔린") == "휘발유" && FuelMapped("디젤") == "경유"
    ensures s !in FuelSynonyms ==> FuelMapped(s) == s
  {
    assert ToLower("LPG") == "lpg";
    assert ToLower("CNG") == "cng";
  }

  /** The mileage is the largest in-range candidate of all patterns, absent
      when there is none, and it is stored under `mileage`. */
  lemma MileageIsMaximum(lists: seq<seq<RegexMatch>>)
    ensures MileageOutcome(lists).None? <==> Collected(lists, MileageOf) == []
    ensures MileageOutcome(lists).Some? ==>
      exists v :: (v in Collected(lists, MileageOf) && 0 < v < 2000000 && MileageOutcome(lists) == Some(IntNum(v))
        && forall k :: 0 <= k < |Collected(lists, MileageOf)| ==> Collected(lists, MileageOf)[k] <= v)
  {
    MileageInRange(lists);
  }

  /** A guarded assignment adds at most its own key. */
  lemma PutKeys(fields: Object, key: string, v: Option<JsValue>)
    ensures Put(fields, key, v).Keys <= fields.Keys + {key}
  {
  }

  lemma DescribedKeys(text: string, scan: Scan)
    ensures Described(text, scan).Keys <= {
      "license_plate", "vehicle_model", "manufacturing_date", "chassis_number", "registered_address", "owner_name"}
  {
    var f1 := Put(map[], "license_plate", FirstRule(scan(PlatePatterns, text), PlateOutcome));
    var f2 := Put(f1, "vehicle_model", FirstRule(scan(ModelPatterns, text), TrimmedOutcome));
    var f3 := Put(f2, "manufacturing_date", FirstNested(scan(DatePatterns, text), DateOf));
    var f4 := Put(f3, "chassis_number", FirstRule(scan(VinPatterns, text), VinOutcome));
    var f5 := Put(f4, "registered_address", FirstRule(scan(AddressPatterns, text), TrimmedOutcome));
    PutKeys(map[], "license_plate", FirstRule(scan(PlatePatterns, text), PlateOutcome));
    PutKeys(f1, "vehicle_model", FirstRule(scan(ModelPatterns, text), TrimmedOutcome));
    PutKeys(f2, "manufacturing_date", FirstNested(scan(DatePatterns, text), DateOf));
    PutKeys(f3, "chassis_number", FirstRule(scan(VinPatterns, text), VinOutcome));
    PutKeys(f4, "registered_address", FirstRule(scan(AddressPatterns, text), TrimmedOutcome));
    PutKeys(f5, "owner_name", FirstRule(scan(NamePatterns, text), NameOutcome));
  }

  lemma MeasuredKeys(fields: Object, text: string, scan: Scan)
    ensures Measured(fields, text, scan).Keys <= fields.Keys + {
      "engine_displacement", "fuel_type", "detected_numbers", "detected_korean", "mileage", "gross_weight"}
  {
    var f1 := Put(fields, "engine_displacement", FirstRule(scan(DisplacementPatterns, text), DisplacementOutcome));
    var f2 := Put(f1, "fuel_type", FirstRule(scan(FuelPatterns, text), FuelOutcome));
    var f3 := Put(f2, "detected_numbers", Wholes(scan(NumberRuns, text), 10));
    var f4 := Put(f3, "detected_korean", Wholes(scan(HangulRuns, text), 15));
    var f5 := Put(f4, "mileage", MileageOutcome(scan(MileagePatterns, text)));
    PutKeys(fields, "engine_displacement", FirstRule(scan(DisplacementPatterns, text), DisplacementOutcome));
    PutKeys(f1, "fuel_type", FirstRule(scan(FuelPatterns, text), FuelOutcome));
    PutKeys(f2, "detected_numbers", Wholes(scan(NumberRuns, text), 10));
    PutKeys(f3, "detected_korean", Wholes(scan(HangulRuns, text), 15));
    PutKeys(f4, "mileage", MileageOutcome(scan(MileagePatterns, text)));
    PutKeys(f5, "gross_weight", FirstRule(scan(WeightPatterns, text), WeightOutcome));
  }

  /** The registration has no key but its twelve fields; in particular the
      mileage is never stored under `mileage_km`. */
  lemma RegistrationKeys(text: string, scan: Scan)
    ensures forall k :: k in VehicleRegistrationFields(text, scan) ==> k in {
      "license_plate", "vehicle_model", "manufacturing_date", "chassis_number", "registered_address",
      "owner_name", "engine_displacement", "fuel_type", "detected_numbers", "detected_korean",
      "mileage", "gross_weight"}
  {
    DescribedKeys(text, scan);
    MeasuredKeys(Described(text, scan), text, scan);
  }

  /** An object with text and non-empty structured fields goes to the Surya
      adapter whatever the document type; otherwise an unknown type yields
      only the first 500 characters of the text (and the object's method). */
  lemma DispatchPolicy(docType: string, ocr: JsValue, scan: Scan, numText: real -> string)
    requires TextIsString(ocr)
    ensures HasStructured(ocr) ==>
      FieldsByDocumentType(docType, ocr, scan, numText) == Surya.SuryaFields(map[
        "structured_fields" := Get(ocr.props, "structured_fields"),
        "raw_text" := Str(InputText(ocr, numText)),
        "confidence" := Get(ocr.props, "confidence")])
    ensures !HasStructured(ocr) && docType == "VEHICLE_REGISTRATION" ==>
      FieldsByDocumentType(docType, ocr, scan, numText) == VehicleRegistrationFields(InputText(ocr, numText), scan)
    ensures !HasStructured(ocr) && docType == "ID_CARD" ==>
      FieldsByDocumentType(docType, ocr, scan, numText) == IdCardFields(InputText(ocr, numText), scan)
    ensures HasStructured(ocr) ==>
      "processing_method" in FieldsByDocumentType(docType, ocr, scan, numText)
      && FieldsByDocumentType(docType, ocr, scan, numText)["processing_method"] == Str("surya-ocr")
    ensures !HasStructured(ocr) && docType != "VEHICLE_REGISTRATION" && docType != "ID_CARD" ==>
      "extracted_text" in FieldsByDocumentType(docType, ocr, scan, numText)
      && FieldsByDocumentType(docType, ocr, scan, numText)["extracted_text"] == Str(Prefix(InputText(ocr, numText), 500))
      && FieldsByDocumentType(docType, ocr, scan, numText).Keys <= {"extracted_text", "method"}
  {
    if HasStructured(ocr) {
      RoutesToSurya(docType, ocr, scan, numText);
      Surya.SuryaMetadata(map[
        "structured_fields" := Get(ocr.props, "structured_fields"),
        "raw_text" := Str(InputText(ocr, numText)),
        "confidence" := Get(ocr.props, "confidence")]);
    } else if docType == "VEHICLE_REGISTRATION" {
      RoutesToRegistration(ocr, scan, numText);
    } else if docType == "ID_CARD" {
      RoutesToIdCard(ocr, scan, numText);
    }
  }
  /** Non-empty structured fields go to the Surya adapter. */
  lemma RoutesToSurya(docType: string, ocr: JsValue, scan: Scan, numText: real -> string)
    requires TextIsString(ocr) && HasStructured(ocr)
    ensures FieldsByDocumentType(docType, ocr, scan, numText) == Surya.SuryaFields(map[
      "structured_fields" := Get(ocr.props, "structured_fields"),
      "raw_text" := Str(InputText(ocr, numText)),
      "confidence" := Get(ocr.props, "confidence")])
  {
  }

  /** Otherwise a registration certificate goes to its extractor. */
  lemma RoutesToRegistration(ocr: JsValue, scan: Scan, numText: real -> string)
    requires TextIsString(ocr) && !HasStructured(ocr)
    ensures FieldsByDocumentType("VEHICLE_REGISTRATION", ocr, scan, numText)
      == VehicleRegistrationFields(InputText(ocr, numText), scan)
  {
  }

  /** Otherwise an ID card goes to its extractor. */
  lemma RoutesToIdCard(ocr: JsValue, scan: Scan, numText: real -> string)
    requires TextIsString(ocr) && !HasStructured(ocr)
    ensures FieldsByDocumentType("ID_CARD", ocr, scan, numText) == IdCardFields(InputText(ocr, numText), scan)
  {
  }

}
