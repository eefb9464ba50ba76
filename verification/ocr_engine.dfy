/** The country-pattern plate validator of the Tesseract engine: the OCR
    text clean-up, the per-country plate regular expressions with their
    length bounds, and the single-substitution correction of characters
    that OCR commonly confuses. */
module OcrEngine {
  import opened Js
  import opened Text
  import opened Shapes

  // ------------------------------------------------------------ countries

  datatype Country = KR | KSA | US | AE

  /** `PLATE_PATTERNS[country]`: the four own keys of the table. */
  function CountryOf(name: string): (r: Option<Country>)
    ensures r.Some? <==> name in ["KR", "KSA", "US", "AE"]
  {
    if name == "KR" then Some(KR)
    else if name == "KSA" then Some(KSA)
    else if name == "US" then Some(US)
    else if name == "AE" then Some(AE)
    else None
  }

  function CountryName(c: Country): string {
    match c
    case KR => "KR"
    case KSA => "KSA"
    case US => "US"
    case AE => "AE"
  }

  /** Looking a country up by its own name finds it again. */
  lemma CountryNameRoundTrip(c: Country)
    ensures CountryOf(CountryName(c)) == Some(c)
  {
  }

  /** The example format and the length bounds of a country's entry. */
  datatype PlateFormat = PlateFormat(format: string, minLength: nat, maxLength: nat)

  function FormatOf(c: Country): PlateFormat {
    match c
    case KR => PlateFormat("12가1234", 7, 8)
    case KSA => PlateFormat("ABC 1234", 7, 8)
    case US => PlateFormat("ABC123", 2, 8)
    case AE => PlateFormat("A 12345", 2, 6)
  }

  /** `[A-Z]` under the `i` flag: an ASCII letter of either case. */
  predicate AllLetters(s: string) {
    forall i :: 0 <= i < |s| ==> IsAsciiLetter(s[i])
  }

  /** `[A-Z0-9]` under the `i` flag. */
  predicate IsAlnum(c: char) {
    IsAsciiLetter(c) || IsDigit(c)
  }

  /** `/^[A-Z]{3}\s?\d{4}$/i` */
  predicate KsaShape(t: string) {
    (|t| == 7 && AllLetters(t[..3]) && AllDigits(t[3..]))
    || (|t| == 8 && AllLetters(t[..3]) && IsSpace(t[3]) && AllDigits(t[4..]))
  }

  /** `/^[A-Z0-9]{2,8}$/i` */
  predicate UsShape(t: string) {
    2 <= |t| <= 8 && forall i :: 0 <= i < |t| ==> IsAlnum(t[i])
  }

  /** `/^[A-Z]\s?\d{1,5}$/i` */
  predicate AeShape(t: string) {
    |t| >= 2 && IsAsciiLetter(t[0])
    && ((1 <= |t| - 1 <= 5 && AllDigits(t[1..]))
        || (IsSpace(t[1]) && 1 <= |t| - 2 <= 5 && AllDigits(t[2..])))
  }

  /** `pattern.regex.test(t)` for the country's pattern. */
  predicate Matches(c: Country, t: string) {
    match c
    case KR => PlateRegex(t)
    case KSA => KsaShape(t)
    case US => UsShape(t)
    case AE => AeShape(t)
  }

  /** Every string the Korean pattern accepts is 7 or 8 long, inside the
      entry's length bounds, so the length check never rejects one. */
  lemma KoreanMatchWithinBounds(t: string)
    requires Matches(KR, t)
    ensures FormatOf(KR).minLength <= |t| <= FormatOf(KR).maxLength
  {
    PlateRegexIsShape(t);
  }

  // ------------------------------------------------------------ cleaning

  /** A character `cleanOCRText` keeps: `[A-Za-z0-9가-힣]`. */
  predicate IsOcrChar(c: char) {
    IsAsciiLetter(c) || IsDigit(c) || IsHangul(c)
  }

  /** `cleanOCRText`: drop white space, drop everything outside
      `[A-Za-z0-9가-힣]`, upper-case, trim. */
  function CleanOCRText(text: string): string {
    Trim(ToUpper(RemoveWhere(RemoveWhere(text, IsSpace), c => !IsOcrChar(c))))
  }

  /** The cleaned text is the upper-cased subsequence of ASCII letters,
      digits and Hangul syllables: nothing else survives, and the first
      space removal and the final trim change nothing beyond that. */
  lemma CleanOCRTextKeeps(text: string)
    ensures CleanOCRText(text) == ToUpper(RemoveWhere(text, c => !IsOcrChar(c)))
    ensures forall i :: 0 <= i < |CleanOCRText(text)| ==>
      var c := CleanOCRText(text)[i];
      IsAsciiUpper(c) || IsDigit(c) || IsHangul(c)
  {
    var notOcr := c => !IsOcrChar(c);
    RemoveWhereSubsumed(text, IsSpace, notOcr);
    var kept := RemoveWhere(text, notOcr);
    RemoveWhereDrops(text, notOcr);
    var up := ToUpper(kept);
    assert forall i :: 0 <= i < |up| ==> IsAsciiUpper(up[i]) || IsDigit(up[i]) || IsHangul(up[i]);
    TrimUnchanged(up);
  }

  // ------------------------------------------------------------ corrections

  /** One entry of a correction list: a character, compiled as a regular
      expression that matches it literally, or `'|'`, which compiles to an
      empty alternation that matches the empty string at every position. */
  datatype Similar = Literal(c: char) | EmptyAlternation

  /** `CHAR_CORRECTIONS` in the order `Object.entries` yields it: the
      integer-like keys '0', '1', '5', '6', '8' first, then the others in
      insertion order. */
  const CharCorrections: seq<(char, seq<Similar>)> := [
    ('0', [Literal('O'), Literal('Q'), Literal('D')]),
    ('1', [Literal('I'), Literal('l'), EmptyAlternation]),
    ('5', [Literal('S')]),
    ('6', [Literal('G')]),
    ('8', [Literal('B')]),
    ('O', [Literal('0'), Literal('Q'), Literal('D')]),
    ('I', [Literal('1'), Literal('l'), EmptyAlternation]),
    ('S', [Literal('5')]),
    ('B', [Literal('8')]),
    ('G', [Literal('6')])]

  /** `s.replace(/x/g, to)` for a literal character `x`. */
  function ReplaceEvery(s: string, x: char, to: char): (r: string)
    ensures |r| == |s|
    ensures forall i :: 0 <= i < |s| ==> r[i] == if s[i] == x then to else s[i]
  {
    seq(|s|, i requires 0 <= i < |s| => if s[i] == x then to else s[i])
  }

  /** `s.replace(/|/g, to)`: the empty match at each of the |s| + 1
      positions is replaced, so `to` lands before, between and after the
      characters. */
  function InsertEverywhere(s: string, to: char): (r: string)
    ensures |r| == 2 * |s| + 1
    ensures forall i :: 0 <= i < |s| ==> r[2 * i] == to && r[2 * i + 1] == s[i]
    ensures r[2 * |s|] == to
    decreases |s|
  {
    if s == [] then [to] else [to, s[0]] + InsertEverywhere(s[1..], to)
  }

  /** `text.replace(new RegExp(similar, 'g'), correct)` */
  function Replaced(text: string, similar: Similar, correct: char): string {
    match similar
    case Literal(x) => ReplaceEvery(text, x, correct)
    case EmptyAlternation => InsertEverywhere(text, correct)
  }

  /** The image under `f` of the first element of `xs` whose image passes
      `ok`. */
  function FirstPassing<T>(xs: seq<T>, f: T -> string, ok: string -> bool): (r: Option<string>)
    decreases |xs|
  {
    if xs == [] then None
    else if ok(f(xs[0])) then Some(f(xs[0])) else FirstPassing(xs[1..], f, ok)
  }

  /** The position of the element whose image the search returns. */
  lemma {:induction false} FirstPassingIndex<T>(xs: seq<T>, f: T -> string, ok: string -> bool) returns (j: nat)
    requires FirstPassing(xs, f, ok).Some?
    ensures j < |xs| && FirstPassing(xs, f, ok) == Some(f(xs[j])) && ok(f(xs[j]))
    decreases |xs|
  {
    if ok(f(xs[0])) {
      j := 0;
    } else {
      var k := FirstPassingIndex(xs[1..], f, ok);
      assert xs[1..][k] == xs[k + 1];
      j := k + 1;
    }
  }

  /** The first of the given similars whose replacement in `text` matches. */
  function FirstIn(text: string, c: Country, correct: char, similars: seq<Similar>): (r: Option<string>)
  {
    FirstPassing(similars, s => Replaced(text, s, correct), t => Matches(c, t))
  }

  /** The first correction of the table, in iteration order, whose result
      matches: each is tried on the original text, never on an earlier
      correction's result. */
  function FirstCorrection(text: string, c: Country, table: seq<(char, seq<Similar>)>): (r: Option<string>)
    decreases |table|
  {
    if table == [] then None
    else match FirstIn(text, c, table[0].0, table[0].1)
      case Some(t) => Some(t)
      case None => FirstCorrection(text, c, table[1..])
  }

  /** What the first-correction search finds is the result of one entry of
      the table applied to the original text, and it matches the pattern. */
  lemma {:induction false} FirstCorrectionIsOneReplacement(text: string, c: Country, table: seq<(char, seq<Similar>)>)
    requires FirstCorrection(text, c, table).Some?
    ensures Matches(c, FirstCorrection(text, c, table).value)
    ensures exists i, j :: (0 <= i < |table| && 0 <= j < |table[i].1|
      && FirstCorrection(text, c, table).value == Replaced(text, table[i].1[j], table[i].0))
    decreases |table|
  {
    var r := FirstCorrection(text, c, table).value;
    match FirstIn(text, c, table[0].0, table[0].1)
    case Some(t) =>
      var j := FirstInIsOneReplacement(text, c, table[0].0, table[0].1);
      assert r == Replaced(text, table[0].1[j], table[0].0);
    case None =>
      FirstCorrectionIsOneReplacement(text, c, table[1..]);
      var i, j :| 0 <= i < |table[1..]| && 0 <= j < |table[1..][i].1|
        && r == Replaced(text, table[1..][i].1[j], table[1..][i].0);
      assert table[1..][i] == table[i + 1];
  }

  /** The position, among the similars, of the one whose replacement matched. */
  lemma FirstInIsOneReplacement(text: string, c: Country, correct: char, similars: seq<Similar>)
      returns (j: nat)
    requires FirstIn(text, c, correct, similars).Some?
    ensures j < |similars| && FirstIn(text, c, correct, similars).value == Replaced(text, similars[j], correct)
    ensures Matches(c, FirstIn(text, c, correct, similars).value)
  {
    j := FirstPassingIndex(similars, s => Replaced(text, s, correct), t => Matches(c, t));
  }

  /** Inserting a character everywhere more than doubles the length, so an
      empty alternation never turns a Korean-length text into a Korean plate. */
  lemma EmptyAlternationNeverFixesKorean(text: string, correct: char)
    requires 7 <= |text| <= 8
    ensures !Matches(KR, Replaced(text, EmptyAlternation, correct))
  {
    PlateRegexIsShape(Replaced(text, EmptyAlternation, correct));
  }

  /** The inner loop of `attemptCharacterCorrection`: each element in turn
      is turned into a candidate, and the first candidate that passes is
      returned. */
  method FindPassing<T>(xs: seq<T>, f: T -> string, ok: string -> bool) returns (r: Option<string>)
    ensures r == FirstPassing(xs, f, ok)
  {
    var j := 0;
    while j < |xs|
      invariant 0 <= j <= |xs|
      invariant FirstPassing(xs, f, ok) == FirstPassing(xs[j..], f, ok)
    {
      var t := f(xs[j]);
      if ok(t) {
        return Some(t);
      }
      assert xs[j..][1..] == xs[j + 1..];
      j := j + 1;
    }
    return None;
  }

  /** `attemptCharacterCorrection`: for each (correct, similars) entry in
      turn and each similar in turn, replace every occurrence in the
      original text and return the first result that matches. */
  method AttemptCharacterCorrection(text: string, c: Country) returns (r: Option<string>)
    ensures r == FirstCorrection(text, c, CharCorrections)
  {
    var i := 0;
    while i < |CharCorrections|
      invariant 0 <= i <= |CharCorrections|
      invariant FirstCorrection(text, c, CharCorrections) == FirstCorrection(text, c, CharCorrections[i..])
    {
      var correct := CharCorrections[i].0;
      var found := FindPassing(CharCorrections[i].1, s => Replaced(text, s, correct), t => Matches(c, t));
      if found.Some? {
        return found;
      }
      assert CharCorrections[i..][1..] == CharCorrections[i + 1..];
      i := i + 1;
    }
    return None;
  }

  // ------------------------------------------------------------ validation

  /** The outcome of `validatePlateText`. */
  datatype PlateCheck = Valid(correctedText: string) | Invalid(error: string, suggestion: Option<string>)

  const KoreanSuggestion := "Korean format: digits + Korean char + digits (e.g., 12가1234)"

  /** `generateSuggestion`: only the Korean regular expression contains the
      Korean plate body in its source text. */
  function Suggestion(c: Country): (r: string)
    ensures c == KR <==> r == KoreanSuggestion
  {
    if c == KR then KoreanSuggestion else "Expected format: " + FormatOf(c).format
  }

  /** `validatePlateText`, with the correction search as a function. */
  function ValidatePlateText(text: string, country: string): (r: PlateCheck)
    ensures CountryOf(country).None? ==> r == Invalid("Unsupported country: " + country, None)
    ensures r.Valid? ==> CountryOf(country).Some? && Matches(CountryOf(country).value, r.correctedText)
    ensures r.Valid? ==> FormatOf(CountryOf(country).value).minLength <= |text| <= FormatOf(CountryOf(country).value).maxLength
    ensures (CountryOf(country).Some? && FormatOf(CountryOf(country).value).minLength <= |text| <= FormatOf(CountryOf(country).value).maxLength
      && Matches(CountryOf(country).value, text)) ==> r == Valid(text)
    ensures r.Invalid? && r.suggestion.Some? ==> r.suggestion.value == Suggestion(CountryOf(country).value)
  {
    match CountryOf(country)
    case None => Invalid("Unsupported country: " + country, None)
    case Some(c) =>
      var f := FormatOf(c);
      if |text| < f.minLength || |text| > f.maxLength then
        Invalid("Invalid length: " + NatToString(|text|) + " (expected " + NatToString(f.minLength)
          + "-" + NatToString(f.maxLength) + ")", None)
      else if Matches(c, text) then Valid(text)
      else
        var corrected := FirstCorrection(text, c, CharCorrections);
        if corrected.Some? && corrected.value != "" && Matches(c, corrected.value) then
          Valid(corrected.value)
        else
          Invalid("Pattern mismatch for " + country + " format (expected: " + f.format + ")", Some(Suggestion(c)))
  }

  /** A text outside the country's length bounds is rejected before any
      pattern or correction is tried, without a suggestion. */
  lemma LengthCheckedFirst(text: string, country: string)
    requires CountryOf(country).Some?
    requires var f := FormatOf(CountryOf(country).value); |text| < f.minLength || |text| > f.maxLength
    ensures ValidatePlateText(text, country).Invalid?
    ensures ValidatePlateText(text, country).suggestion.None?
  {
  }

  /** When neither the text nor any correction matches, the result is a
      pattern mismatch carrying the country's suggestion. */
  lemma MismatchCarriesSuggestion(text: string, country: string)
    requires CountryOf(country).Some?
    requires var c := CountryOf(country).value; var f := FormatOf(c);
      f.minLength <= |text| <= f.maxLength && !Matches(c, text)
      && FirstCorrection(text, c, CharCorrections).None?
    ensures ValidatePlateText(text, country)
      == Invalid("Pattern mismatch for " + country + " format (expected: " + FormatOf(CountryOf(country).value).format + ")",
                 Some(Suggestion(CountryOf(country).value)))
  {
  }

  /** A corrected plate is one table replacement of the original text. */
  lemma CorrectedIsOneReplacement(text: string, country: string)
    requires ValidatePlateText(text, country).Valid?
    requires ValidatePlateText(text, country).correctedText != text
    ensures exists i, j :: (0 <= i < |CharCorrections| && 0 <= j < |CharCorrections[i].1|
      && ValidatePlateText(text, country).correctedText == Replaced(text, CharCorrections[i].1[j], CharCorrections[i].0))
  {
    FirstCorrectionIsOneReplacement(text, CountryOf(country).value, CharCorrections);
  }

  /** `validatePlateText` with the correction loop run as a method. */
  method ValidatePlate(text: string, country: string) returns (r: PlateCheck)
    ensures r == ValidatePlateText(text, country)
  {
    var found := CountryOf(country);
    if found.None? {
      return Invalid("Unsupported country: " + country, None);
    }
    var c := found.value;
    var f := FormatOf(c);
    if |text| < f.minLength || |text| > f.maxLength {
      return Invalid("Invalid length: " + NatToString(|text|) + " (expected " + NatToString(f.minLength)
        + "-" + NatToString(f.maxLength) + ")", None);
    }
    if Matches(c, text) {
      return Valid(text);
    }
    var corrected := AttemptCharacterCorrection(text, c);
    if corrected.Some? && corrected.value != "" && Matches(c, corrected.value) {
      return Valid(corrected.value);
    }
    return Invalid("Pattern mismatch for " + country + " format (expected: " + f.format + ")", Some(Suggestion(c)));
  }
}
