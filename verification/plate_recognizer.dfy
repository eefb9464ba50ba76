/** The plate recognizer: a weighted table of Korean plate patterns, a
    syllable whitelist, the best-candidate choice by confidence, and the
    penalty on candidates read from a file name. Confidences are kept in
    thousandths (0.9 is 900). */
module PlateRecognizer {
  import opened Js
  import opened Text
  import opened Shapes

  /** The syllables that may appear on a Korean plate. */
  const ValidKoreanChars: seq<char> := [
    '가', '나', '다', '라', '마', '거', '너', '더', '러', '머',
    '고', '노', '도', '로', '모', '구', '누', '두', '루', '무',
    '바', '사', '아', '자', '카', '타', '파', '하', '허', '호']

  predicate IsPlateSyllable(c: char) {
    c in ValidKoreanChars
  }

  /** The region names of the third pattern. */
  const Regions: seq<string> := [
    "서울", "부산", "대구", "인천", "광주", "대전", "울산", "세종", "경기",
    "강원", "충북", "충남", "전북", "전남", "경북", "경남", "제주"]

  datatype PatternKind = Basic | Spaced | Regional | Electric

  datatype PlatePattern = PlatePattern(kind: PatternKind, confidence: nat, description: string)

  /** The pattern table, in the order it is tried. */
  const Patterns: seq<PlatePattern> := [
    PlatePattern(Basic, 900, "기본 번호판 패턴"),
    PlatePattern(Spaced, 850, "공백 포함 번호판 패턴"),
    PlatePattern(Regional, 950, "지역명 포함 번호판 패턴"),
    PlatePattern(Electric, 920, "전기차 번호판 패턴")]

  const RegexMethod := "mock-plate-regex"

  /** A recognised plate; `source` is set by `Extract` only. */
  datatype PlateResult = PlateResult(
    plate: string, confidence: nat, how: string, pattern: string, raw: string,
    source: Option<string>)

  // ------------------------------------------------------------ matching

  predicate WordAt(s: string, i: int) {
    0 <= i < |s| && IsWordChar(s[i])
  }

  /** `\b`: an ASCII word character on exactly one side, so a Hangul
      neighbour counts as a non-word character. */
  predicate Boundary(s: string, i: nat) {
    WordAt(s, i - 1) != WordAt(s, i)
  }

  /** `\d{2,3}\s*[가-힣]\s*\d{4}` at `i` (the `\s*` only when `spaced`, the
      syllable only '로' when `electric`): where the match ends. Greedy
      `\d{2,3}` takes three digits when it can; giving one back leaves a
      digit where a space or a syllable is needed, so it never helps. */
  function PlateBodyAt(s: string, i: nat, spaced: bool, electric: bool): (r: Option<nat>)
    requires i <= |s|
    ensures r.Some? ==> i + 7 <= r.value <= |s|
    ensures r.Some? && !spaced ==> PlateShape(s[i..r.value])
    ensures r.Some? && !spaced && electric ==> s[r.value - 5] == '로'
  {
    var n := DigitRun(s, i, 3);
    if n < 2 then None
    else
      var a := if spaced then SkipSpaces(s, i + n) else i + n;
      if a >= |s| || !IsHangul(s[a]) || (electric && s[a] != '로') then None
      else
        var b := if spaced then SkipSpaces(s, a + 1) else a + 1;
        if b + 4 > |s| || !AllDigits(s[b..b + 4]) then None
        else
          var p := s[i..b + 4];
          assert !spaced ==> p[..|p| - 5] == s[i..i + n] && p[|p| - 5] == s[a] && p[|p| - 4..] == s[b..b + 4];
          Some(b + 4)
  }

  /** What a matched group is known to look like. */
  predicate GroupFacts(k: PatternKind, g: string) {
    |g| >= 7
    && (k.Regional? ==> IsHangul(g[0]))
    && ((k.Basic? || k.Electric?) ==> PlateShape(g))
    && (k.Electric? ==> g[|g| - 5] == '로')
  }

  /** One of the region names starts at `i`. */
  predicate RegionAt(s: string, i: nat) {
    i + 2 <= |s| && s[i..i + 2] in Regions
  }

  /** One table pattern tried at position `i`: where the match ends. The
      capture group spans the whole match. */
  function MatchAt(k: PatternKind, s: string, i: nat): (r: Option<nat>)
    ensures r.Some? ==> i < r.value <= |s| && GroupFacts(k, s[i..r.value])
  {
    if i > |s| || !Boundary(s, i) then None
    else
      var body :=
        match k
        case Basic => PlateBodyAt(s, i, false, false)
        case Spaced => PlateBodyAt(s, i, true, false)
        case Electric => PlateBodyAt(s, i, false, true)
        case Regional =>
          if RegionAt(s, i) then PlateBodyAt(s, i + 2, false, false) else None;
      match body
      case None => None
      case Some(e) =>
        if !Boundary(s, e) then None
        else
          assert k.Regional? ==> s[i..e][0] == s[i..i + 2][0];
          Some(e)
  }

  /** The groups `[...s.matchAll(regex)]` yields from position `i` on: each
      search resumes where the previous match ended. */
  function Scan(k: PatternKind, s: string, i: nat): (r: seq<string>)
    requires i <= |s|
    ensures forall n :: 0 <= n < |r| ==> GroupFacts(k, r[n]) && |r[n]| <= |s|
    decreases |s| - i
  {
    var at := (j: nat) => MatchAt(k, s, j);
    assert forall j: nat :: at(j) == MatchAt(k, s, j);
    match FindFrom(at, i, |s|)
    case None => []
    case Some((j, e)) => [s[j..e]] + Scan(k, s, e)
  }

  function Groups(k: PatternKind, s: string): seq<string> {
    Scan(k, s, 0)
  }

  // ------------------------------------------------------------ cleaning, validation

  predicate IsPlateJunk(c: char) {
    IsSpace(c) || c == '-' || c == '_' || c == '.'
  }

  /** `cleanPlate`: drops every white space, '-', '_' and '.'; the final
      `trim` has nothing left to remove. */
  function CleanPlate(p: string): string {
    Trim(RemoveWhere(p, IsPlateJunk))
  }

  /** Cleaning is exactly the removal of the junk characters: no junk is
      left, a clean plate is unchanged, and the rest keeps its order. */
  lemma CleanPlateRemovesJunk(p: string)
    ensures CleanPlate(p) == RemoveWhere(p, IsPlateJunk)
    ensures forall i :: 0 <= i < |CleanPlate(p)| ==> !IsPlateJunk(CleanPlate(p)[i])
    ensures (forall i :: 0 <= i < |p| ==> !IsPlateJunk(p[i])) ==> CleanPlate(p) == p
  {
    var kept := RemoveWhere(p, IsPlateJunk);
    RemoveWhereDrops(p, IsPlateJunk);
    if kept != [] {
      assert !IsPlateJunk(kept[0]) && !IsPlateJunk(kept[|kept| - 1]);
    }
    TrimUnchanged(kept);
    if forall i :: 0 <= i < |p| ==> !IsPlateJunk(p[i]) {
      RemoveWhereKeeps(p, IsPlateJunk);
    }
  }

  /** Cleaning keeps a character that is not junk, and drops one that is. */
  lemma CleanPlateChar(c: char)
    ensures CleanPlate([c]) == if IsPlateJunk(c) then "" else [c]
  {
    CleanPlateRemovesJunk([c]);
    assert [c][1..] == [];
  }

  /** Cleaning works piece by piece, so the kept characters stay in order. */
  lemma CleanPlateAppend(a: string, b: string)
    ensures CleanPlate(a + b) == CleanPlate(a) + CleanPlate(b)
  {
    CleanPlateRemovesJunk(a + b);
    CleanPlateRemovesJunk(a);
    CleanPlateRemovesJunk(b);
    RemoveWhereAppend(a, b, IsPlateJunk);
  }

  /** The first Hangul syllable of `p`, as `p.match(/[가-힣]/)` finds it. */
  function FirstHangul(p: string): (r: Option<char>)
    ensures r.Some? ==> IsHangul(r.value)
    ensures PlateShape(p) ==> r == Some(p[|p| - 5])
  {
    var at := (j: nat) => if j < |p| && IsHangul(p[j]) then Some(p[j]) else None;
    assert PlateShape(p) ==> forall j: nat :: j < |p| - 5 ==> at(j).None? by {
      if PlateShape(p) {
        assert forall j :: 0 <= j < |p| - 5 ==> p[j] == p[..|p| - 5][j];
      }
    }
    match FindFrom(at, 0, |p|)
    case Some((_, c)) => Some(c)
    case None => None
  }

  /** `isValidPlate`: length 6 to 9, the anchored plate shape, and the first
      syllable in the whitelist. */
  function IsValidPlate(p: string): (r: bool)
    ensures r <==> PlateShape(p) && IsPlateSyllable(p[|p| - 5])
  {
    PlateRegexIsShape(p);
    if |p| < 6 || |p| > 9 then false
    else if !PlateRegex(p) then false
    else match FirstHangul(p)
      case Some(c) => IsPlateSyllable(c)
      case None => true
  }

  /** A string of the plate shape holds no character that cleaning drops. */
  lemma PlateShapeIsClean(p: string)
    requires PlateShape(p)
    ensures forall i :: 0 <= i < |p| ==> !IsPlateJunk(p[i])
  {
    forall i | 0 <= i < |p|
      ensures !IsPlateJunk(p[i])
    {
      if i < |p| - 5 {
        assert p[i] == p[..|p| - 5][i];
      } else if i > |p| - 5 {
        assert p[i] == p[|p| - 4..][i - (|p| - 4)];
      }
    }
  }

  // ------------------------------------------------------------ candidates

  /** The candidates one pattern contributes, in match order. */
  function PatternCandidates(pat: PlatePattern, gs: seq<string>): seq<PlateResult>
    decreases |gs|
  {
    if gs == [] then []
    else PatternCandidates(pat, gs[..|gs| - 1]) + CandidateOf(pat, gs[|gs| - 1])
  }

  /** What one matched group contributes: its cleaned plate, when valid. */
  function CandidateOf(pat: PlatePattern, raw: string): seq<PlateResult> {
    var plate := CleanPlate(raw);
    if IsValidPlate(plate) then [PlateResult(plate, pat.confidence, RegexMethod, pat.description, raw, None)]
    else []
  }

  /** The candidates of a run of table entries, pattern after pattern. */
  function CandidatesOf(pats: seq<PlatePattern>, s: string): seq<PlateResult>
    decreases |pats|
  {
    if pats == [] then []
    else
      var last := pats[|pats| - 1];
      CandidatesOf(pats[..|pats| - 1], s) + PatternCandidates(last, Groups(last.kind, s))
  }

  function Candidates(s: string): seq<PlateResult> {
    CandidatesOf(Patterns, s)
  }

  /** What every candidate of a pattern carries. */
  predicate FromPattern(c: PlateResult, pat: PlatePattern) {
    IsValidPlate(c.plate) && c.confidence == pat.confidence && c.pattern == pat.description
    && c.how == RegexMethod && c.source.None?
  }

  /** Every candidate a pattern contributes is a valid plate, with the
      pattern's confidence and description. */
  lemma {:induction false} PatternCandidatesValid(pat: PlatePattern, gs: seq<string>)
    ensures forall n :: 0 <= n < |PatternCandidates(pat, gs)| ==> FromPattern(PatternCandidates(pat, gs)[n], pat)
    decreases |gs|
  {
    if gs != [] {
      var front := PatternCandidates(pat, gs[..|gs| - 1]);
      var one := CandidateOf(pat, gs[|gs| - 1]);
      PatternCandidatesValid(pat, gs[..|gs| - 1]);
      assert PatternCandidates(pat, gs) == front + one;
      forall n | 0 <= n < |front + one|
        ensures FromPattern((front + one)[n], pat)
      {
        if n < |front| {
          assert (front + one)[n] == front[n];
        } else {
          assert (front + one)[n] == one[0];
        }
      }
    }
  }

  /** What every candidate of the table carries, whichever pattern found it. */
  predicate RegexCandidate(c: PlateResult) {
    IsValidPlate(c.plate) && c.how == RegexMethod && c.source.None?
  }

  /** Every candidate of a run of patterns is a valid plate found by the
      regular-expression path. */
  lemma {:induction false} CandidatesOfValid(pats: seq<PlatePattern>, s: string)
    ensures forall n :: 0 <= n < |CandidatesOf(pats, s)| ==> RegexCandidate(CandidatesOf(pats, s)[n])
    decreases |pats|
  {
    if pats != [] {
      var last := pats[|pats| - 1];
      var front := CandidatesOf(pats[..|pats| - 1], s);
      var back := PatternCandidates(last, Groups(last.kind, s));
      CandidatesOfValid(pats[..|pats| - 1], s);
      PatternCandidatesValid(last, Groups(last.kind, s));
      assert CandidatesOf(pats, s) == front + back;
      forall n | 0 <= n < |front + back|
        ensures RegexCandidate((front + back)[n])
      {
        if n < |front| {
          assert (front + back)[n] == front[n];
        } else {
          assert (front + back)[n] == back[n - |front|];
          assert FromPattern(back[n - |front|], last);
        }
      }
    }
  }

  lemma CandidatesValid(s: string)
    ensures forall n :: 0 <= n < |Candidates(s)| ==> IsValidPlate(Candidates(s)[n].plate) && Candidates(s)[n].source.None?
  {
    CandidatesOfValid(Patterns, s);
    var cs := Candidates(s);
    assert forall n :: 0 <= n < |cs| ==> RegexCandidate(cs[n]);
  }

  /** The first position of a maximal confidence: what a stable sort by
      descending confidence puts first. */
  function BestIndex(cs: seq<PlateResult>): (k: nat)
    requires |cs| > 0
    ensures k < |cs|
    ensures forall j :: 0 <= j < |cs| ==> cs[j].confidence <= cs[k].confidence
    ensures forall j :: 0 <= j < k ==> cs[j].confidence < cs[k].confidence
    decreases |cs|
  {
    if |cs| == 1 then 0
    else
      var k := BestIndex(cs[..|cs| - 1]);
      if cs[|cs| - 1].confidence > cs[k].confidence then |cs| - 1 else k
  }

  function BestOf(cs: seq<PlateResult>): (r: Option<PlateResult>)
    ensures r.None? <==> cs == []
    ensures r.Some? ==> r.value == cs[BestIndex(cs)]
    ensures r.Some? ==> forall n :: 0 <= n < |cs| ==> cs[n].confidence <= r.value.confidence
  {
    if cs == [] then None else Some(cs[BestIndex(cs)])
  }

  /** What `extractFromText` returns: nothing for an empty or non-string
      text or when no candidate validates; otherwise a valid plate of
      maximal confidence, the earliest found among equals. */
  function TextResult(text: JsValue): (r: Option<PlateResult>)
    ensures !Truthy(text) || !text.Str? ==> r.None?
  {
    if !Truthy(text) || !text.Str? then None
    else BestOf(Candidates(text.s))
  }

  /** A non-empty text yields a plate exactly when some candidate validates. */
  lemma TextResultFound(s: string)
    requires s != ""
    ensures TextResult(Str(s)).None? <==> Candidates(s) == []
  {
    assert TextResult(Str(s)) == BestOf(Candidates(s));
  }

  /** The plate found in a text is a candidate of maximal confidence, the
      first such one in table and match order. */
  lemma TextResultBest(text: JsValue)
    requires TextResult(text).Some?
    ensures TextResult(text).value == Candidates(text.s)[BestIndex(Candidates(text.s))]
    ensures forall n :: 0 <= n < |Candidates(text.s)| ==>
      Candidates(text.s)[n].confidence <= TextResult(text).value.confidence
  {
    assert TextResult(text) == BestOf(Candidates(text.s));
  }

  /** The plate found in a text is a valid plate, not yet tagged with a source. */
  lemma TextResultValid(text: JsValue)
    requires TextResult(text).Some?
    ensures IsValidPlate(TextResult(text).value.plate) && TextResult(text).value.source.None?
  {
    CandidatesValid(text.s);
  }

  /** The inner loop of `extractFromText`: the validated candidates of one
      pattern's matches, in match order. */
  method CollectMatches(pat: PlatePattern, matches: seq<string>) returns (found: seq<PlateResult>)
    ensures found == PatternCandidates(pat, matches)
  {
    found := [];
    for gi := 0 to |matches|
      invariant found == PatternCandidates(pat, matches[..gi])
    {
      var raw := matches[gi];
      var plate := CleanPlate(raw);
      if IsValidPlate(plate) {
        found := found + [PlateResult(plate, pat.confidence, RegexMethod, pat.description, raw, None)];
      }
      assert matches[..gi + 1][..gi] == matches[..gi];
      assert PatternCandidates(pat, matches[..gi + 1]) == PatternCandidates(pat, matches[..gi]) + CandidateOf(pat, raw);
    }
    assert matches[..|matches|] == matches;
  }

  /** The stable sort by descending confidence followed by `[0]`: the first
      position holding a maximal confidence. */
  method SelectBest(results: seq<PlateResult>) returns (best: nat)
    requires |results| > 0
    ensures best == BestIndex(results)
  {
    best := 0;
    for i := 1 to |results|
      invariant best == BestIndex(results[..i])
    {
      assert results[..i + 1][..i] == results[..i];
      if results[i].confidence > results[best].confidence {
        best := i;
      }
    }
    assert results[..|results|] == results;
  }

  /** `extractFromText`: collects the validated candidates pattern by
      pattern and match by match, then keeps the first of maximal confidence. */
  method ExtractFromText(text: JsValue) returns (r: Option<PlateResult>)
    ensures r == TextResult(text)
  {
    if !Truthy(text) || !text.Str? {
      return None;
    }
    var s := text.s;
    var results: seq<PlateResult> := [];
    for pi := 0 to |Patterns|
      invariant results == CandidatesOf(Patterns[..pi], s)
    {
      var pat := Patterns[pi];
      var found := CollectMatches(pat, Groups(pat.kind, s));
      results := results + found;
      assert Patterns[..pi + 1][..pi] == Patterns[..pi];
    }
    assert Patterns[..|Patterns|] == Patterns;
    if results == [] {
      return None;
    }
    var best := SelectBest(results);
    r := Some(results[best]);
  }

  // ------------------------------------------------------------ file names

  /** A final extension starts at `j`: a '.' followed by at least one
      character and no further '/' or '.'. */
  predicate ExtensionAt(f: string, j: nat) {
    j + 1 < |f| && f[j] == '.' && forall k :: j < k < |f| ==> f[k] != '/' && f[k] != '.'
  }

  /** `filename.replace(/\.[^/.]+$/, '')` */
  function StripExtension(f: string): (r: string)
    ensures forall j :: 0 <= j < |f| && ExtensionAt(f, j) ==> r == f[..j]
    ensures (forall j :: 0 <= j < |f| ==> !ExtensionAt(f, j)) ==> r == f
  {
    var at := (j: nat) => if ExtensionAt(f, j) then Some(()) else None;
    assert forall j: nat :: at(j).None? <==> !ExtensionAt(f, j);
    match FindFrom(at, 0, |f|)
    case Some((j, _)) =>
      assert forall k :: j < k < |f| ==> !ExtensionAt(f, k);
      f[..j]
    case None => f
  }

  /** Only the final ".ext" suffix is removed. */
  lemma StripExtensionOf(name: string, ext: string)
    requires ext != "" && forall k :: 0 <= k < |ext| ==> ext[k] != '/' && ext[k] != '.'
    ensures StripExtension(name + "." + ext) == name
  {
    var f := name + "." + ext;
    assert ExtensionAt(f, |name|) by {
      assert forall k :: |name| < k < |f| ==> f[k] == ext[k - |name| - 1];
    }
    forall j | 0 <= j < |name|
      ensures !ExtensionAt(f, j)
    {
      assert f[|name|] == '.';
    }
    assert f[..|name|] == name;
  }

  /** What `extractFromFilename` returns. */
  function FilenameResult(filename: JsValue): (r: Option<PlateResult>)
    ensures !Truthy(filename) || !filename.Str? ==> r.None?
  {
    if !Truthy(filename) || !filename.Str? then None
    else TextResult(Str(StripExtension(filename.s)))
  }

  method ExtractFromFilename(filename: JsValue) returns (r: Option<PlateResult>)
    ensures r == FilenameResult(filename)
  {
    if !Truthy(filename) || !filename.Str? {
      return None;
    }
    r := ExtractFromText(Str(StripExtension(filename.s)));
  }

  // ------------------------------------------------------------ combined

  function Tagged(r: PlateResult, source: string): PlateResult {
    r.(source := Some(source))
  }

  /** A file-name candidate is worth nine tenths of its pattern confidence. */
  function Penalised(r: PlateResult): PlateResult {
    r.(source := Some("filename"), confidence := r.confidence * 9 / 10)
  }

  /** The tagged results `extract` collects: the text one first. */
  function Collected(text: JsValue, filename: JsValue): seq<PlateResult> {
    (match TextResult(text) case Some(t) => [Tagged(t, "text")] case None => [])
    + (match FilenameResult(filename) case Some(f) => [Penalised(f)] case None => [])
  }

  /** What `extract` returns. */
  function Combined(text: JsValue, filename: JsValue): (r: Option<PlateResult>)
    ensures r.None? <==> TextResult(text).None? && FilenameResult(filename).None?
    ensures r.Some? ==> r.value.source.Some?
  {
    BestOf(Collected(text, filename))
  }

  /** Whichever source it came from, the combined result is a valid plate. */
  lemma CombinedValid(text: JsValue, filename: JsValue)
    requires Combined(text, filename).Some?
    ensures IsValidPlate(Combined(text, filename).value.plate)
  {
    var cs := Collected(text, filename);
    var k := BestIndex(cs);
    var t := TextResult(text);
    var f := FilenameResult(filename);
    if t.Some? && k == 0 {
      TextResultValid(text);
      assert cs[k].plate == t.value.plate;
    } else {
      assert f.Some? && f == TextResult(Str(StripExtension(filename.s)));
      TextResultValid(Str(StripExtension(filename.s)));
      assert cs[k].plate == f.value.plate;
    }
  }

  /** `extract`: the text result tagged 'text', the file-name result tagged
      'filename' at nine tenths of its confidence, and the better of the two. */
  method Extract(text: JsValue, filename: JsValue) returns (r: Option<PlateResult>)
    ensures r == Combined(text, filename)
  {
    var results := CollectResults(text, filename);
    if results == [] {
      return None;
    }
    var best := SelectBest(results);
    r := Some(results[best]);
  }

  /** The first half of `extract`: the tagged text and file-name results. */
  method CollectResults(text: JsValue, filename: JsValue) returns (results: seq<PlateResult>)
    ensures results == Collected(text, filename)
  {
    results := [];
    var textResult := ExtractFromText(text);
    if textResult.Some? {
      results := results + [Tagged(textResult.value, "text")];
    }
    var filenameResult := ExtractFromFilename(filename);
    if filenameResult.Some? {
      results := results + [Penalised(filenameResult.value)];
    }
  }

  // ------------------------------------------------------------ properties

  /** A region-prefixed group keeps its leading syllable after cleaning, so
      it never has the plate shape. */
  lemma RegionalGroupInvalid(g: string)
    requires GroupFacts(Regional, g)
    ensures !IsValidPlate(CleanPlate(g))
  {
    var p := CleanPlate(g);
    CleanPlateRemovesJunk(g);
    RemoveWhereHead(g, IsPlateJunk);
    ShapeStartsWithDigit(p);
  }

  /** No region-prefixed group yields a candidate, whatever the pattern. */
  lemma {:induction false} RegionalCandidatesEmpty(pat: PlatePattern, gs: seq<string>)
    requires forall n :: 0 <= n < |gs| ==> GroupFacts(Regional, gs[n])
    ensures PatternCandidates(pat, gs) == []
    decreases |gs|
  {
    if gs != [] {
      RegionalCandidatesEmpty(pat, gs[..|gs| - 1]);
      RegionalGroupInvalid(gs[|gs| - 1]);
    }
  }

  /** The candidates of a run of patterns carry the confidences of its
      patterns other than the region-name ones. */
  lemma {:induction false} CandidatesOfConfidence(pats: seq<PlatePattern>, s: string, allowed: set<nat>)
    requires forall j :: 0 <= j < |pats| ==> pats[j].kind == Regional || pats[j].confidence in allowed
    ensures forall n :: 0 <= n < |CandidatesOf(pats, s)| ==> CandidatesOf(pats, s)[n].confidence in allowed
    decreases |pats|
  {
    if pats != [] {
      var last := pats[|pats| - 1];
      var front: seq<PlateResult> := CandidatesOf(pats[..|pats| - 1], s);
      var back: seq<PlateResult> := PatternCandidates(last, Groups(last.kind, s));
      CandidatesOfConfidence(pats[..|pats| - 1], s, allowed);
      assert CandidatesOf(pats, s) == front + back;
      if last.kind == Regional {
        RegionalCandidatesEmpty(last, Groups(last.kind, s));
        assert front + back == front;
      } else {
        PatternCandidatesValid(last, Groups(last.kind, s));
        forall n: nat | n < |front + back|
          ensures (front + back)[n].confidence in allowed
        {
          if n < |front| {
            assert (front + back)[n] == front[n];
          } else {
            assert (front + back)[n] == back[n - |front|];
          }
        }
      }
    }
  }

  /** Apart from the region-name entry, the table holds 900, 850 and 920. */
  lemma TableConfidences()
    ensures forall j :: 0 <= j < |Patterns| ==> Patterns[j].kind == Regional || Patterns[j].confidence in {900, 850, 920}
  {
    forall j | 0 <= j < |Patterns|
      ensures Patterns[j].kind == Regional || Patterns[j].confidence in {900, 850, 920}
    {
      assert j == 0 || j == 1 || j == 2 || j == 3;
    }
  }

  /** The region-name pattern, the most confident in the table, never
      contributes a candidate: every candidate carries 900, 850 or 920. */
  lemma RegionalPatternNeverContributes(s: string)
    ensures PatternCandidates(Patterns[2], Groups(Regional, s)) == []
    ensures forall n :: 0 <= n < |Candidates(s)| ==> Candidates(s)[n].confidence in {900, 850, 920}
  {
    RegionalCandidatesEmpty(Patterns[2], Groups(Regional, s));
    TableConfidences();
    CandidatesOfConfidence(Patterns, s, {900, 850, 920});
  }

  /** So does the plate found in a text. */
  lemma TextResultConfidence(text: JsValue)
    requires TextResult(text).Some?
    ensures TextResult(text).value.confidence in {900, 850, 920}
  {
    var cs := Candidates(text.s);
    RegionalPatternNeverContributes(text.s);
    assert TextResult(text) == BestOf(cs);
  }

  /** An electric-pattern group is a valid plate as it stands: '로' is on
      the whitelist and there is nothing to clean. */
  lemma ElectricGroupValid(g: string)
    requires GroupFacts(Electric, g)
    ensures CleanPlate(g) == g && IsValidPlate(g)
  {
    PlateShapeIsClean(g);
    CleanPlateRemovesJunk(g);
    assert IsPlateSyllable(g[|g| - 5]) by {
      assert g[|g| - 5] == ValidKoreanChars[13];
    }
  }

  /** A pattern whose first match validates contributes a candidate. */
  lemma {:induction false} FirstMatchContributes(pat: PlatePattern, gs: seq<string>)
    requires gs != [] && IsValidPlate(CleanPlate(gs[0]))
    ensures PatternCandidates(pat, gs) != []
    decreases |gs|
  {
    var front := gs[..|gs| - 1];
    assert PatternCandidates(pat, gs) == PatternCandidates(pat, front) + CandidateOf(pat, gs[|gs| - 1]);
    if |gs| > 1 {
      assert front[0] == gs[0];
      FirstMatchContributes(pat, front);
    } else {
      assert CandidateOf(pat, gs[0]) != [];
    }
  }

  /** The electric pattern is the last entry of the table. */
  lemma CandidatesEndWithElectric(s: string)
    ensures Candidates(s) == CandidatesOf(Patterns[..3], s) + PatternCandidates(Patterns[3], Groups(Electric, s))
  {
    assert Patterns[..3] == Patterns[..|Patterns| - 1];
    assert Patterns[3].kind == Electric;
  }

  /** An electric-vehicle plate in the text always wins, with the electric
      pattern's confidence. */
  lemma ElectricPlateWins(s: string)
    requires Groups(Electric, s) != []
    ensures TextResult(Str(s)).Some?
    ensures TextResult(Str(s)).value.confidence == 920
  {
    var gs := Groups(Electric, s);
    ElectricGroupValid(gs[0]);
    FirstMatchContributes(Patterns[3], gs);
    PatternCandidatesValid(Patterns[3], gs);
    CandidatesEndWithElectric(s);
    var front := CandidatesOf(Patterns[..3], s);
    var ec := PatternCandidates(Patterns[3], gs);
    var cs := Candidates(s);
    assert cs[|front|] == ec[0];
    assert |gs[0]| <= |s|;
    TextResultFound(s);
    TextResultBest(Str(s));
    TextResultConfidence(Str(s));
  }

  /** A text result always beats a file-name result: file-name confidences
      are at most 828 after the penalty, text ones at least 850. */
  lemma TextResultWins(text: JsValue, filename: JsValue)
    requires TextResult(text).Some?
    ensures Combined(text, filename) == Some(Tagged(TextResult(text).value, "text"))
  {
    var t := TextResult(text).value;
    TextResultConfidence(text);
    match FilenameResult(filename)
    case None =>
      assert Collected(text, filename) == [Tagged(t, "text")];
    case Some(f) =>
      TextResultConfidence(Str(StripExtension(filename.s)));
      var cs := Collected(text, filename);
      assert cs == [Tagged(t, "text"), Penalised(f)];
      assert Penalised(f).confidence < Tagged(t, "text").confidence;
      assert BestIndex(cs[..1]) == 0;
  }
}
