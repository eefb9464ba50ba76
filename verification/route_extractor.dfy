/** The small field extractor of the OCR upload route: five regular
    expressions run over the OCR text, each field set from the first pattern
    that matches and left absent otherwise. All its patterns have fixed
    shapes, so they are written out here as matchers. */
module RouteExtractor {
  import opened Js
  import opened Text
  import opened Shapes

  /** What one `text.match(pattern)` contributes: the captured text, or None
      when the pattern does not match. */
  type Pattern = string -> Option<string>

  // ------------------------------------------------------------ matching

  /** `[가-힣]\d{2}[가-힣]\d{4}` at `i`: the older plates with a region name. */
  function RegionalPlateAt(s: string, i: nat): Option<string> {
    if i < |s| && IsHangul(s[i]) && DigitsAt(s, i + 1, 2) && i + 3 < |s| && IsHangul(s[i + 3]) && DigitsAt(s, i + 4, 4)
    then Some(s[i..i + 8])
    else None
  }

  /** `\d{3}[가-힣]\d{4}` at `i`. */
  function ThreeDigitPlateAt(s: string, i: nat): Option<string> {
    if DigitsAt(s, i, 3) && i + 3 < |s| && IsHangul(s[i + 3]) && DigitsAt(s, i + 4, 4) then Some(s[i..i + 8])
    else None
  }

  /** The shape of a regional plate: a syllable, two digits, a syllable, four digits. */
  predicate RegionalShape(p: string) {
    |p| == 8 && IsHangul(p[0]) && AllDigits(p[1..3]) && IsHangul(p[3]) && AllDigits(p[4..])
  }

  /** `([가-힣]{2,10})` at `k`. */
  function OwnerCapture(s: string, k: nat): (r: Option<string>)
    ensures r.Some? <==> k + 2 <= |s| && IsHangul(s[k]) && IsHangul(s[k + 1])
    ensures r.Some? ==> 2 <= |r.value| <= 10 && AllHangul(r.value)
    ensures r.Some? ==> k + |r.value| <= |s| && r.value == s[k..k + |r.value|]
    ensures r.Some? && |r.value| < 10 && k + |r.value| < |s| ==> !IsHangul(s[k + |r.value|])
  {
    if k > |s| then None
    else
      var n := ClassRun(s, k, 10, IsHangul);
      if n >= 2 then Some(s[k..k + n]) else None
  }

  /** The class `[가-힣\w\s]`. */
  predicate IsModelChar(c: char) {
    IsHangul(c) || IsWordChar(c) || IsSpace(c)
  }

  /** `([가-힣\w\s]+)` at `k`: greedy, so it runs on across line breaks. */
  function ModelCapture(s: string, k: nat): (r: Option<string>)
    ensures r.Some? <==> k < |s| && IsModelChar(s[k])
    ensures r.Some? ==> |r.value| >= 1 && forall i :: 0 <= i < |r.value| ==> IsModelChar(r.value[i])
    ensures r.Some? ==> k + |r.value| <= |s| && r.value == s[k..k + |r.value|]
    ensures r.Some? && k + |r.value| < |s| ==> !IsModelChar(s[k + |r.value|])
  {
    if k > |s| then None
    else
      var n := ClassRun(s, k, |s| - k, IsModelChar);
      if n >= 1 then Some(s[k..k + n]) else None
  }

  /** The class `[A-Z0-9]`. */
  predicate IsUpperOrDigit(c: char) {
    IsAsciiUpper(c) || IsDigit(c)
  }

  /** `([A-Z0-9]{17})` at `k`. */
  function VinCapture(s: string, k: nat): (r: Option<string>)
    ensures r.Some? ==> |r.value| == 17 && forall i :: 0 <= i < 17 ==> IsUpperOrDigit(r.value[i])
    ensures r.Some? ==> k + 17 <= |s| && r.value == s[k..k + 17]
  {
    if k + 17 <= |s| && forall m :: k <= m < k + 17 ==> IsUpperOrDigit(s[m]) then Some(s[k..k + 17]) else None
  }

  /** The class `[-\.]`. */
  predicate IsDateSeparator(c: char) {
    c == '-' || c == '.'
  }

  /** `\d{4}[-\.]\d{2}[-\.]\d{2}` as a whole string. */
  predicate DottedDateShape(d: string) {
    |d| == 10 && AllDigits(d[..4]) && IsDateSeparator(d[4]) && AllDigits(d[5..7])
    && IsDateSeparator(d[7]) && AllDigits(d[8..])
  }

  /** `(\d{4}[-\.]\d{2}[-\.]\d{2})` at `k`. */
  function DateCapture(s: string, k: nat): (r: Option<string>)
    ensures r.Some? ==> DottedDateShape(r.value) && k + 10 <= |s| && r.value == s[k..k + 10]
  {
    if k + 10 <= |s| && DottedDateShape(s[k..k + 10]) then Some(s[k..k + 10]) else None
  }

  /** No line terminator in `s[j..k]`: the stretch a `.*?` may cross. */
  predicate LineFree(s: string, j: nat, k: nat) {
    j <= k <= |s| && forall m :: j <= m < k ==> !IsLineTerminator(s[m])
  }

  /** `.*?` followed by a capture, from `j`: the first position at or after
      `j`, reached without crossing a line terminator, where the capture
      succeeds. */
  function LazyFrom(s: string, cap: (string, nat) -> Option<string>, j: nat): (r: Option<nat>)
    ensures r.Some? ==> j <= r.value && cap(s, r.value).Some?
    ensures r.Some? && j <= |s| ==> LineFree(s, j, r.value)
    ensures r.Some? ==> forall m :: j <= m < r.value ==> cap(s, m).None?
    decreases |s| - j
  {
    if cap(s, j).Some? then Some(j)
    else if j < |s| && !IsLineTerminator(s[j]) then LazyFrom(s, cap, j + 1)
    else None
  }

  /** `lead.*?(capture)` tried at start `i`. */
  function LabelAt(s: string, lead: string, cap: (string, nat) -> Option<string>, i: nat): Option<string> {
    if OccursAt(s, lead, i) then
      match LazyFrom(s, cap, i + |lead|)
      case Some(k) => cap(s, k)
      case None => None
    else None
  }

  /** A non-global `match`: the first start position, from the left, where
      the expression matches. */
  function Leftmost(s: string, at: (string, nat) -> Option<string>): (r: Option<string>)
    ensures r.None? <==> forall i :: 0 <= i <= |s| ==> at(s, i).None?
    ensures r.Some? ==> exists i :: 0 <= i <= |s| && at(s, i) == r && forall j :: 0 <= j < i ==> at(s, j).None?
  {
    var f := (i: nat) => at(s, i);
    match FindFrom(f, 0, |s|)
    case Some((i, v)) =>
      assert at(s, i) == f(i);
      assert forall j :: 0 <= j < i ==> at(s, j) == f(j);
      Some(v)
    case None =>
      assert forall j :: 0 <= j <= |s| ==> at(s, j) == f(j);
      None
  }

  function LabelPattern(lead: string, cap: (string, nat) -> Option<string>): Pattern {
    s => Leftmost(s, (t: string, i: nat) => LabelAt(t, lead, cap, i))
  }

  const PlatePatterns: seq<Pattern> :=
    [s => Leftmost(s, PlateAt), s => Leftmost(s, RegionalPlateAt), s => Leftmost(s, ThreeDigitPlateAt)]

  const OwnerPattern: Pattern := LabelPattern("소유자", OwnerCapture)

  const ModelPatterns: seq<Pattern> := [LabelPattern("차명", ModelCapture), LabelPattern("모델", ModelCapture)]

  const VinPattern: Pattern := LabelPattern("차대번호", VinCapture)

  const DatePatterns: seq<Pattern> := [LabelPattern("등록일", DateCapture), s => Leftmost(s, DateCapture)]

  // ------------------------------------------------------------ the extractor

  /** The capture of the first pattern that matches: the `for … { if
      (match) { …; break } }` loops. */
  function FirstCapture(patterns: seq<Pattern>, s: string): (r: Option<string>)
    ensures r.None? <==> forall i :: 0 <= i < |patterns| ==> patterns[i](s).None?
    ensures r.Some? ==> exists i :: 0 <= i < |patterns| && patterns[i](s) == r
    ensures |patterns| > 0 && patterns[0](s).Some? ==> r == patterns[0](s)
  {
    if patterns == [] then None
    else if patterns[0](s).Some? then patterns[0](s)
    else
      var r := FirstCapture(patterns[1..], s);
      assert forall i :: 1 <= i < |patterns| ==> patterns[i] == patterns[1..][i - 1];
      r
  }

  /** Sets `key` when there is a value. */
  function With(fields: Object, key: string, v: Option<string>): Object {
    if v.Some? then fields[key := Str(v.value)] else fields
  }

  function TrimmedCapture(v: Option<string>): Option<string> {
    if v.Some? then Some(Trim(v.value)) else None
  }

  /** The object built from the five outcomes, in the source's order. */
  function Assemble(plate: Option<string>, owner: Option<string>, model: Option<string>,
                    vin: Option<string>, date: Option<string>): Object {
    var f := With(map[], "plateNumber", plate);
    var f := With(f, "ownerName", owner);
    var f := With(f, "vehicleModel", model);
    var f := With(f, "vin", vin);
    With(f, "registrationDate", date)
  }

  /** The object the extractor returns for the text `s`. */
  function RouteFields(s: string): Object {
    Assemble(FirstCapture(PlatePatterns, s), OwnerPattern(s), TrimmedCapture(FirstCapture(ModelPatterns, s)),
             VinPattern(s), FirstCapture(DatePatterns, s))
  }

  /** `ocrResult.text || ''`, when it is a string; any other truthy value
      makes `text.split` throw. */
  function RouteText(ocrResult: Object): Option<string> {
    var v := Or(Get(ocrResult, "text"), Str(""));
    if v.Str? then Some(v.s) else None
  }

  /** The extractor's outcome: the fields, or None where it throws. */
  function RouteResult(ocrResult: Object): Option<Object> {
    match RouteText(ocrResult)
    case Some(s) => Some(RouteFields(s))
    case None => None
  }

  /** Tries the patterns in order and stops at the first match. */
  method TryPatterns(patterns: seq<Pattern>, s: string) returns (r: Option<string>)
    ensures r == FirstCapture(patterns, s)
  {
    r := None;
    for i := 0 to |patterns|
      invariant FirstCapture(patterns, s) == FirstCapture(patterns[i..], s)
    {
      var m := patterns[i](s);
      assert patterns[i..][1..] == patterns[i + 1..];
      if m.Some? {
        r := m;
        break;
      }
    }
    if r.None? {
      assert patterns[|patterns|..] == [];
    }
  }

  /** `mapVehicleRegistrationFields`. */
  method MapVehicleRegistrationFields(ocrResult: Object) returns (r: Option<Object>)
    ensures r == RouteResult(ocrResult)
  {
    var v := Or(Get(ocrResult, "text"), Str(""));
    if !v.Str? {
      return None;
    }
    var fields := ExtractFields(v.s, PlatePatterns, OwnerPattern, ModelPatterns, VinPattern, DatePatterns);
    return Some(fields);
  }

  /** The body of the extractor, over its five pattern lists. */
  method ExtractFields(text: string, plates: seq<Pattern>, ownerPattern: Pattern, models: seq<Pattern>,
                       vinPattern: Pattern, dates: seq<Pattern>) returns (fields: Object)
    ensures fields == Assemble(FirstCapture(plates, text), ownerPattern(text),
                               TrimmedCapture(FirstCapture(models, text)), vinPattern(text), FirstCapture(dates, text))
  {
    var plate := TryPatterns(plates, text);
    var owner := ownerPattern(text);
    var model := TryPatterns(models, text);
    var vin := vinPattern(text);
    var date := TryPatterns(dates, text);
    fields := SetFields(plate, owner, model, vin, date);
  }

  /** The assignments `fields.x = …` for the outcomes that matched. */
  method SetFields(plate: Option<string>, owner: Option<string>, model: Option<string>,
                   vin: Option<string>, date: Option<string>) returns (fields: Object)
    ensures fields == Assemble(plate, owner, TrimmedCapture(model), vin, date)
  {
    fields := map[];
    if plate.Some? {
      fields := fields["plateNumber" := Str(plate.value)];
    }
    if owner.Some? {
      fields := fields["ownerName" := Str(owner.value)];
    }
    if model.Some? {
      fields := fields["vehicleModel" := Str(Trim(model.value))];
    }
    if vin.Some? {
      fields := fields["vin" := Str(vin.value)];
    }
    if date.Some? {
      fields := fields["registrationDate" := Str(date.value)];
    }
  }

  // ------------------------------------------------------------ properties

  lemma RegionalPlateAtShape(s: string, i: nat)
    requires RegionalPlateAt(s, i).Some?
    ensures RegionalShape(RegionalPlateAt(s, i).value)
  {
    var p := RegionalPlateAt(s, i).value;
    assert p[1..3] == s[i + 1..i + 3] && p[4..] == s[i + 4..i + 8];
  }

  /** The third plate pattern never decides: wherever it matches, the first
      one matches the same text. */
  lemma ThreeDigitSubsumed(s: string, i: nat)
    requires ThreeDigitPlateAt(s, i).Some?
    ensures PlateAt(s, i) == ThreeDigitPlateAt(s, i)
  {
  }

  /** The literal keys are distinct. */
  lemma RouteKeysApart()
    ensures "plateNumber" != "ownerName" && "plateNumber" != "vehicleModel"
    ensures "plateNumber" != "vin" && "plateNumber" != "registrationDate"
    ensures "ownerName" != "vehicleModel" && "ownerName" != "vin" && "ownerName" != "registrationDate"
    ensures "vehicleModel" != "vin" && "vehicleModel" != "registrationDate" && "vin" != "registrationDate"
  {
  }

  /** Only the five fields appear, each as a string; a field without a
      match is absent rather than empty. */
  lemma AssembleKeys(plate: Option<string>, owner: Option<string>, model: Option<string>,
                     vin: Option<string>, date: Option<string>)
    ensures forall k :: k in Assemble(plate, owner, model, vin, date) ==>
      k in {"plateNumber", "ownerName", "vehicleModel", "vin", "registrationDate"}
      && Assemble(plate, owner, model, vin, date)[k].Str?
    ensures "plateNumber" in Assemble(plate, owner, model, vin, date) <==> plate.Some?
    ensures "ownerName" in Assemble(plate, owner, model, vin, date) <==> owner.Some?
    ensures "vehicleModel" in Assemble(plate, owner, model, vin, date) <==> model.Some?
    ensures "vin" in Assemble(plate, owner, model, vin, date) <==> vin.Some?
    ensures "registrationDate" in Assemble(plate, owner, model, vin, date) <==> date.Some?
    ensures plate.Some? ==> Assemble(plate, owner, model, vin, date)["plateNumber"] == Str(plate.value)
    ensures owner.Some? ==> Assemble(plate, owner, model, vin, date)["ownerName"] == Str(owner.value)
    ensures model.Some? ==> Assemble(plate, owner, model, vin, date)["vehicleModel"] == Str(model.value)
    ensures vin.Some? ==> Assemble(plate, owner, model, vin, date)["vin"] == Str(vin.value)
    ensures date.Some? ==> Assemble(plate, owner, model, vin, date)["registrationDate"] == Str(date.value)
  {
    RouteKeysApart();
  }

  /** `lead` occurs at `i`, and the capture `v` starts at `k`, further on
      the same line. */
  predicate FoundAfter(s: string, lead: string, cap: (string, nat) -> Option<string>, i: nat, k: nat, v: string) {
    OccursAt(s, lead, i) && LineFree(s, i + |lead|, k) && cap(s, k) == Some(v)
  }

  /** `.*?` reaches every capture on the rest of the line. */
  lemma {:induction false} LazyReaches(s: string, cap: (string, nat) -> Option<string>, j: nat, k: nat)
    requires LineFree(s, j, k) && cap(s, k).Some?
    ensures LazyFrom(s, cap, j).Some?
    decreases k - j
  {
    if cap(s, j).None? {
      assert j < k;
      LazyReaches(s, cap, j + 1, k);
    }
  }

  /** What a labelled pattern returns follows its label on the same line. */
  lemma LabelPatternSound(lead: string, cap: (string, nat) -> Option<string>, s: string)
    ensures LabelPattern(lead, cap)(s).Some? ==>
      exists i: nat, k: nat :: FoundAfter(s, lead, cap, i, k, LabelPattern(lead, cap)(s).value)
  {
    var at := (t: string, i: nat) => LabelAt(t, lead, cap, i);
    assert LabelPattern(lead, cap)(s) == Leftmost(s, at);
    if Leftmost(s, at).Some? {
      var i: nat :| i <= |s| && at(s, i) == Leftmost(s, at);
      var k := LazyFrom(s, cap, i + |lead|).value;
      assert FoundAfter(s, lead, cap, i, k, Leftmost(s, at).value);
    }
  }

  /** A labelled pattern matches whenever its label occurs with a capture
      after it on the same line. */
  lemma LabelPatternComplete(lead: string, cap: (string, nat) -> Option<string>, s: string, i: nat, k: nat, v: string)
    requires FoundAfter(s, lead, cap, i, k, v)
    ensures LabelPattern(lead, cap)(s).Some?
  {
    var at := (t: string, i: nat) => LabelAt(t, lead, cap, i);
    assert LabelPattern(lead, cap)(s) == Leftmost(s, at);
    LazyReaches(s, cap, i + |lead|, k);
    assert at(s, i).Some?;
  }

  /** Both directions together. */
  lemma LabelPatternMatches(lead: string, cap: (string, nat) -> Option<string>, s: string)
    ensures LabelPattern(lead, cap)(s).Some? <==> exists i: nat, k: nat, v: string :: FoundAfter(s, lead, cap, i, k, v)
    ensures LabelPattern(lead, cap)(s).Some? ==>
      exists i: nat, k: nat :: FoundAfter(s, lead, cap, i, k, LabelPattern(lead, cap)(s).value)
  {
    LabelPatternSound(lead, cap, s);
    if exists i: nat, k: nat, v: string :: FoundAfter(s, lead, cap, i, k, v) {
      var i: nat, k: nat, v: string :| FoundAfter(s, lead, cap, i, k, v);
      LabelPatternComplete(lead, cap, s, i, k, v);
    }
  }

  /** The owner is a run of two to ten syllables after '소유자' on the same
      line, and is found whenever two syllables follow it there. */
  lemma RouteOwner(s: string)
    ensures "ownerName" in RouteFields(s) <==> exists i: nat, k: nat, v: string :: FoundAfter(s, "소유자", OwnerCapture, i, k, v)
    ensures "ownerName" in RouteFields(s) ==>
      var v := RouteFields(s)["ownerName"];
      v.Str? && 2 <= |v.s| <= 10 && AllHangul(v.s) && exists i: nat, k: nat :: FoundAfter(s, "소유자", OwnerCapture, i, k, v.s)
  {
    var o := OwnerPattern(s);
    AssembleOwner(FirstCapture(PlatePatterns, s), o, TrimmedCapture(FirstCapture(ModelPatterns, s)),
                 VinPattern(s), FirstCapture(DatePatterns, s));
    LabelPatternMatches("소유자", OwnerCapture, s);
    if o.Some? {
      var i: nat, k: nat :| FoundAfter(s, "소유자", OwnerCapture, i, k, o.value);
      assert OwnerCapture(s, k) == o;
    }
  }

  /** A 17-character `[A-Z0-9]` run is an ISO 3779 VIN exactly when it
      holds no I, O or Q. */
  lemma VinAlphabet(v: string)
    requires |v| == 17 && forall j :: 0 <= j < 17 ==> IsUpperOrDigit(v[j])
    ensures VinShape(v) <==> forall j :: 0 <= j < 17 ==> v[j] != 'I' && v[j] != 'O' && v[j] != 'Q'
  {
  }

  /** The chassis number is 17 characters of `[A-Z0-9]` after '차대번호' on
      the same line; I, O and Q are let through (see VinAlphabet). */
  lemma RouteVin(s: string)
    ensures "vin" in RouteFields(s) <==> exists i: nat, k: nat, v: string :: FoundAfter(s, "차대번호", VinCapture, i, k, v)
    ensures "vin" in RouteFields(s) ==>
      var v := RouteFields(s)["vin"];
      v.Str? && |v.s| == 17 && (forall j :: 0 <= j < 17 ==> IsUpperOrDigit(v.s[j]))
      && (exists i: nat, k: nat :: FoundAfter(s, "차대번호", VinCapture, i, k, v.s))
  {
    var o := VinPattern(s);
    AssembleVin(FirstCapture(PlatePatterns, s), OwnerPattern(s), TrimmedCapture(FirstCapture(ModelPatterns, s)),
                 o, FirstCapture(DatePatterns, s));
    LabelPatternMatches("차대번호", VinCapture, s);
    if o.Some? {
      var i: nat, k: nat :| FoundAfter(s, "차대번호", VinCapture, i, k, o.value);
      assert VinCapture(s, k) == o;
    }
  }

  /** A model is found exactly when '차명' or '모델' is followed, on the
      same line, by a character of the class. */
  lemma RouteModelFound(s: string)
    ensures "vehicleModel" in RouteFields(s) <==>
      (exists i: nat, k: nat, v: string :: FoundAfter(s, "차명", ModelCapture, i, k, v))
      || (exists i: nat, k: nat, v: string :: FoundAfter(s, "모델", ModelCapture, i, k, v))
  {
    var m := FirstCapture(ModelPatterns, s);
    AssembleModel(FirstCapture(PlatePatterns, s), OwnerPattern(s), TrimmedCapture(m), VinPattern(s), FirstCapture(DatePatterns, s));
    LabelPatternMatches("차명", ModelCapture, s);
    LabelPatternMatches("모델", ModelCapture, s);
    assert ModelPatterns[0] == LabelPattern("차명", ModelCapture) && ModelPatterns[1] == LabelPattern("모델", ModelCapture);
  }

  /** '차명' is tried before '모델': when it matches, the model is its
      trimmed capture. */
  lemma RouteModelFirst(s: string)
    ensures LabelPattern("차명", ModelCapture)(s).Some? ==>
      "vehicleModel" in RouteFields(s)
      && RouteFields(s)["vehicleModel"] == Str(Trim(LabelPattern("차명", ModelCapture)(s).value))
  {
    var m := FirstCapture(ModelPatterns, s);
    AssembleModel(FirstCapture(PlatePatterns, s), OwnerPattern(s), TrimmedCapture(m), VinPattern(s), FirstCapture(DatePatterns, s));
    assert ModelPatterns[0] == LabelPattern("차명", ModelCapture);
  }

  /** The model is the trimmed capture after '차명' or '모델', on the same
      line as the label. */
  lemma RouteModel(s: string)
    ensures "vehicleModel" in RouteFields(s) ==>
      exists c :: RouteFields(s)["vehicleModel"] == Str(Trim(c))
        && exists i: nat, k: nat :: FoundAfter(s, "차명", ModelCapture, i, k, c) || FoundAfter(s, "모델", ModelCapture, i, k, c)
  {
    var m := FirstCapture(ModelPatterns, s);
    AssembleModel(FirstCapture(PlatePatterns, s), OwnerPattern(s), TrimmedCapture(m), VinPattern(s), FirstCapture(DatePatterns, s));
    if m.Some? {
      var c := m.value;
      var n :| 0 <= n < 2 && ModelPatterns[n](s) == m;
      if n == 0 {
        assert ModelPatterns[0] == LabelPattern("차명", ModelCapture);
        LabelPatternSound("차명", ModelCapture, s);
        var i: nat, k: nat :| FoundAfter(s, "차명", ModelCapture, i, k, c);
      } else {
        assert ModelPatterns[1] == LabelPattern("모델", ModelCapture);
        LabelPatternSound("모델", ModelCapture, s);
        var i: nat, k: nat :| FoundAfter(s, "모델", ModelCapture, i, k, c);
      }
    }
  }

  /** The separators of a `[-\.]`-separated date decide whether it is ISO 8601. */
  lemma DateSeparators(d: string)
    requires DottedDateShape(d)
    ensures IsoDateShape(d) <==> d[4] == '-' && d[7] == '-'
  {
  }

  /** The registration date is copied verbatim from the text: from the
      first date after '등록일' on the same line when there is one, else from
      the first date anywhere; it is present exactly when the text holds a
      date. */
  lemma RouteDate(s: string)
    ensures "registrationDate" in RouteFields(s) <==> exists k :: 0 <= k <= |s| && DateCapture(s, k).Some?
    ensures "registrationDate" in RouteFields(s) ==>
      var v := RouteFields(s)["registrationDate"];
      v.Str? && DottedDateShape(v.s) && exists k: nat :: DateCapture(s, k) == Some(v.s)
    ensures LabelPattern("등록일", DateCapture)(s).Some? ==>
      "registrationDate" in RouteFields(s)
      && RouteFields(s)["registrationDate"] == Str(LabelPattern("등록일", DateCapture)(s).value)
  {
    var d := FirstCapture(DatePatterns, s);
    AssembleDate(FirstCapture(PlatePatterns, s), OwnerPattern(s), TrimmedCapture(FirstCapture(ModelPatterns, s)), VinPattern(s), d);
    LabelPatternSound("등록일", DateCapture, s);
    assert DatePatterns[0] == LabelPattern("등록일", DateCapture);
    assert DatePatterns[1](s) == Leftmost(s, DateCapture);
    if d.Some? {
      var k: nat;
      if DatePatterns[0](s).Some? {
        var i: nat, k': nat :| FoundAfter(s, "등록일", DateCapture, i, k', d.value);
        k := k';
      } else {
        k :| 0 <= k <= |s| && DateCapture(s, k) == d;
      }
      assert DateCapture(s, k) == d;
    }
  }

  lemma AssemblePlate(plate: Option<string>, owner: Option<string>, model: Option<string>,
                     vin: Option<string>, date: Option<string>)
    ensures "plateNumber" in Assemble(plate, owner, model, vin, date) <==> plate.Some?
    ensures plate.Some? ==> Assemble(plate, owner, model, vin, date)["plateNumber"] == Str(plate.value)
  {
    RouteKeysApart();
  }

  lemma AssembleOwner(plate: Option<string>, owner: Option<string>, model: Option<string>,
                     vin: Option<string>, date: Option<string>)
    ensures "ownerName" in Assemble(plate, owner, model, vin, date) <==> owner.Some?
    ensures owner.Some? ==> Assemble(plate, owner, model, vin, date)["ownerName"] == Str(owner.value)
  {
    RouteKeysApart();
  }

  lemma AssembleModel(plate: Option<string>, owner: Option<string>, model: Option<string>,
                     vin: Option<string>, date: Option<string>)
    ensures "vehicleModel" in Assemble(plate, owner, model, vin, date) <==> model.Some?
    ensures model.Some? ==> Assemble(plate, owner, model, vin, date)["vehicleModel"] == Str(model.value)
  {
    RouteKeysApart();
  }

  lemma AssembleVin(plate: Option<string>, owner: Option<string>, model: Option<string>,
                     vin: Option<string>, date: Option<string>)
    ensures "vin" in Assemble(plate, owner, model, vin, date) <==> vin.Some?
    ensures vin.Some? ==> Assemble(plate, owner, model, vin, date)["vin"] == Str(vin.value)
  {
    RouteKeysApart();
  }

  lemma AssembleDate(plate: Option<string>, owner: Option<string>, model: Option<string>,
                     vin: Option<string>, date: Option<string>)
    ensures "registrationDate" in Assemble(plate, owner, model, vin, date) <==> date.Some?
    ensures date.Some? ==> Assemble(plate, owner, model, vin, date)["registrationDate"] == Str(date.value)
  {
    RouteKeysApart();
  }

  /** A plate is found exactly when the text holds one of either shape. */
  lemma RoutePlateFound(s: string)
    ensures "plateNumber" in RouteFields(s) <==>
      exists i :: 0 <= i <= |s| && (PlateAt(s, i).Some? || RegionalPlateAt(s, i).Some?)
  {
    var p := FirstCapture(PlatePatterns, s);
    AssemblePlate(p, OwnerPattern(s), TrimmedCapture(FirstCapture(ModelPatterns, s)), VinPattern(s), FirstCapture(DatePatterns, s));
    PlatePatternsFind(s);
  }

  /** The three plate patterns together match exactly where one of the two
      shapes occurs. */
  lemma PlatePatternsFind(s: string)
    ensures FirstCapture(PlatePatterns, s).Some? <==>
      exists i :: 0 <= i <= |s| && (PlateAt(s, i).Some? || RegionalPlateAt(s, i).Some?)
  {
    assert PlatePatterns[0](s) == Leftmost(s, PlateAt);
    assert PlatePatterns[1](s) == Leftmost(s, RegionalPlateAt);
    assert PlatePatterns[2](s) == Leftmost(s, ThreeDigitPlateAt);
    if Leftmost(s, ThreeDigitPlateAt).Some? {
      var i :| 0 <= i <= |s| && ThreeDigitPlateAt(s, i) == Leftmost(s, ThreeDigitPlateAt);
      ThreeDigitSubsumed(s, i);
    }
  }

  /** What is found as a plate has one of the two plate shapes. */
  lemma RoutePlateShape(s: string)
    ensures "plateNumber" in RouteFields(s) ==>
      var v := RouteFields(s)["plateNumber"];
      v.Str? && (PlateShape(v.s) || RegionalShape(v.s))
  {
    var p := FirstCapture(PlatePatterns, s);
    AssemblePlate(p, OwnerPattern(s), TrimmedCapture(FirstCapture(ModelPatterns, s)), VinPattern(s), FirstCapture(DatePatterns, s));
    if p.Some? {
      var n :| 0 <= n < 3 && PlatePatterns[n](s) == p;
      if n == 0 {
        assert PlatePatterns[0](s) == Leftmost(s, PlateAt);
        var i :| 0 <= i <= |s| && PlateAt(s, i) == p;
      } else if n == 1 {
        assert PlatePatterns[1](s) == Leftmost(s, RegionalPlateAt);
        var i :| 0 <= i <= |s| && RegionalPlateAt(s, i) == p;
        RegionalPlateAtShape(s, i);
      } else {
        assert PlatePatterns[2](s) == Leftmost(s, ThreeDigitPlateAt);
        var i :| 0 <= i <= |s| && ThreeDigitPlateAt(s, i) == p;
        ThreeDigitSubsumed(s, i);
      }
    }
  }

  /** The first plate pattern wins: when the text holds a plate of the
      modern shape, the leftmost one is taken. */
  lemma RoutePlateFirst(s: string, i: nat)
    requires i <= |s| && PlateAt(s, i).Some?
    requires forall j :: 0 <= j < i ==> PlateAt(s, j).None?
    ensures "plateNumber" in RouteFields(s) && RouteFields(s)["plateNumber"] == Str(PlateAt(s, i).value)
  {
    var p := FirstCapture(PlatePatterns, s);
    AssemblePlate(p, OwnerPattern(s), TrimmedCapture(FirstCapture(ModelPatterns, s)), VinPattern(s), FirstCapture(DatePatterns, s));
    assert PlatePatterns[0](s) == Leftmost(s, PlateAt);
    var i' :| 0 <= i' <= |s| && PlateAt(s, i') == Leftmost(s, PlateAt) && forall j :: 0 <= j < i' ==> PlateAt(s, j).None?;
    assert i' == i;
  }
}
