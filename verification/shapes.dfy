/** The fixed-shape regular expressions of the pipeline, written as
    matchers: the anchored Korean plate shape `^\d{2,3}[가-힣]\d{4}$`, the
    ISO 3779 VIN alphabet, the ISO 8601 extended calendar date
    `^\d{4}-\d{2}-\d{2}$` and the Korean "YYYY년 M월 D일" date. */
module Shapes {
  import opened Js
  import opened Text

  /** The number of consecutive digits at `i`, at most `max`: how far a
      greedy `\d{1,max}` reaches. */
  function DigitRun(s: string, i: nat, max: nat): (n: nat)
    requires i <= |s|
    ensures n <= max && i + n <= |s|
    ensures AllDigits(s[i..i + n])
    ensures n < max && i + n < |s| ==> !IsDigit(s[i + n])
    decreases max
  {
    if max == 0 || i == |s| || !IsDigit(s[i]) then 0
    else
      var m := DigitRun(s, i + 1, max - 1);
      assert s[i..i + 1 + m] == [s[i]] + s[i + 1..i + 1 + m];
      1 + m
  }

  /** Where a greedy `\s*` starting at `i` stops. */
  function SkipSpaces(s: string, i: nat): (r: nat)
    requires i <= |s|
    ensures i <= r <= |s|
    ensures forall k :: i <= k < r ==> IsSpace(s[k])
    ensures r < |s| ==> !IsSpace(s[r])
    decreases |s| - i
  {
    if i < |s| && IsSpace(s[i]) then SkipSpaces(s, i + 1) else i
  }

  // ---------------------------------------------------------------- plates

  /** Two or three digits, one Hangul syllable, four digits, and nothing else. */
  predicate PlateShape(p: string) {
    (|p| == 7 || |p| == 8)
    && AllDigits(p[..|p| - 5]) && IsHangul(p[|p| - 5]) && AllDigits(p[|p| - 4..])
  }

  /** A plate-shaped string starts with a digit. */
  lemma ShapeStartsWithDigit(p: string)
    ensures p != [] && !IsDigit(p[0]) ==> !PlateShape(p)
  {
    if |p| == 7 || |p| == 8 {
      assert p[..|p| - 5][0] == p[0];
    }
  }

  /** `/^\d{2,3}[가-힣]\d{4}$/.test(p)`. Greedy `\d{2,3}` first takes three
      digits; giving one back cannot help, since a digit is not a syllable. */
  predicate PlateRegex(p: string) {
    var n := DigitRun(p, 0, 3);
    n >= 2 && |p| == n + 5 && IsHangul(p[n]) && AllDigits(p[n + 1..])
  }

  /** The matcher accepts exactly the strings of the declared shape. */
  lemma PlateRegexIsShape(p: string)
    ensures PlateRegex(p) <==> PlateShape(p)
  {
    var n := DigitRun(p, 0, 3);
    if PlateShape(p) {
      var k := |p| - 5;
      assert AllDigits(p[..k]);
      assert !IsDigit(p[k]);
      assert n == k;
      assert p[n + 1..] == p[|p| - 4..];
    }
    if PlateRegex(p) {
      assert p[..|p| - 5] == p[0..n];
    }
  }

  predicate DigitsAt(s: string, i: nat, n: nat) {
    i + n <= |s| && AllDigits(s[i..i + n])
  }

  /** `\d{2,3}[가-힣]\d{4}` at `i`, unanchored. Greedy `\d{2,3}` tries
      three digits first; giving one back only helps when the third is not
      a digit. What it finds is a plate cut from the text. */
  function PlateAt(s: string, i: nat): (r: Option<string>)
    ensures r.Some? ==> PlateShape(r.value) && i + |r.value| <= |s| && r.value == s[i..i + |r.value|]
  {
    if DigitsAt(s, i, 3) && i + 3 < |s| && IsHangul(s[i + 3]) && DigitsAt(s, i + 4, 4) then
      var p := s[i..i + 8];
      assert p[..3] == s[i..i + 3] && p[4..] == s[i + 4..i + 8];
      Some(p)
    else if DigitsAt(s, i, 2) && i + 2 < |s| && IsHangul(s[i + 2]) && DigitsAt(s, i + 3, 4) then
      var p := s[i..i + 7];
      assert p[..2] == s[i..i + 2] && p[3..] == s[i + 3..i + 7];
      Some(p)
    else None
  }

  /** The first plate in `s`, as a non-global `exec` finds it. */
  function FindPlate(s: string): (r: Option<string>)
    ensures r.Some? ==> PlateShape(r.value)
    ensures r.None? <==> forall i :: 0 <= i <= |s| ==> PlateAt(s, i).None?
  {
    var at := (i: nat) => PlateAt(s, i);
    assert forall i: nat :: at(i) == PlateAt(s, i);
    match FindFrom(at, 0, |s|)
    case Some((_, p)) => Some(p)
    case None => None
  }

  // ---------------------------------------------------------------- VINs

  /** A character of the ISO 3779 VIN alphabet: `[A-HJ-NPR-Z0-9]`. */
  predicate IsVinChar(c: char) {
    IsDigit(c) || (IsAsciiUpper(c) && c != 'I' && c != 'O' && c != 'Q')
  }

  /** `^[A-HJ-NPR-Z0-9]{17}$`: length and alphabet only, no check digit. */
  predicate VinShape(s: string) {
    |s| == 17 && forall i :: 0 <= i < |s| ==> IsVinChar(s[i])
  }

  // ---------------------------------------------------------------- dates

  /** `^\d{4}-\d{2}-\d{2}$`: the ISO 8601 extended calendar date layout. */
  predicate IsoDateShape(s: string) {
    |s| == 10 && AllDigits(s[..4]) && s[4] == '-' && AllDigits(s[5..7])
    && s[7] == '-' && AllDigits(s[8..])
  }

  /** The zero-padded `YYYY-MM-DD` text written for year, month and day digit
      strings. */
  function IsoDate(y: string, m: string, d: string): (r: string)
    ensures |y| == 4 && AllDigits(y) && 1 <= |m| <= 2 && AllDigits(m) && 1 <= |d| <= 2 && AllDigits(d)
      ==> IsoDateShape(r)
  {
    var pm := PadStart2(m);
    var pd := PadStart2(d);
    var r := y + "-" + pm + "-" + pd;
    assert |y| == 4 && |pm| == 2 && |pd| == 2 ==> r[..4] == y && r[5..7] == pm && r[8..] == pd;
    r
  }

  /** The digit groups of a "YYYY년 M월 D일" date. */
  datatype KDate = KDate(year: string, month: string, day: string)

  predicate KDateDigits(k: KDate) {
    |k.year| == 4 && AllDigits(k.year)
    && 1 <= |k.month| <= 2 && AllDigits(k.month)
    && 1 <= |k.day| <= 2 && AllDigits(k.day)
  }

  /** `(\d{min,max})\s*` followed by the syllable `lit` and `\s*`, at `i`:
      the digit group and where the next group may start. */
  function DigitsThen(s: string, i: nat, min: nat, max: nat, lit: char): (r: Option<(string, nat)>)
    requires i <= |s|
    ensures r.Some? ==> min <= |r.value.0| <= max && AllDigits(r.value.0)
    ensures r.Some? ==> i < r.value.1 <= |s|
  {
    var n := DigitRun(s, i, max);
    if n < min then None
    else
      var a := SkipSpaces(s, i + n);
      if a >= |s| || s[a] != lit then None
      else Some((s[i..i + n], SkipSpaces(s, a + 1)))
  }

  /** `(\d{4})\s*년\s*(\d{1,2})\s*월\s*(\d{1,2})\s*일` tried at position `i`.
      Backtracking never helps: a shorter `\s*` leaves a space where a
      syllable is needed, and a shorter `\d{1,2}` leaves a digit there. */
  function KoreanDateAt(s: string, i: nat): (r: Option<KDate>)
    ensures r.Some? ==> KDateDigits(r.value)
  {
    if i > |s| then None
    else match DigitsThen(s, i, 4, 4, '년')
      case None => None
      case Some((y, b)) =>
        match DigitsThen(s, b, 1, 2, '월')
        case None => None
        case Some((m, d)) =>
          match DigitsThen(s, d, 1, 2, '일')
          case None => None
          case Some((dd, _)) => Some(KDate(y, m, dd))
  }

  /** The first "YYYY년 M월 D일" date in `s`, as a non-global `match` finds it. */
  function FindKoreanDate(s: string): (r: Option<KDate>)
    ensures r.Some? ==> KDateDigits(r.value)
    ensures r.None? ==> forall i :: 0 <= i <= |s| ==> KoreanDateAt(s, i).None?
    ensures r.Some? ==> exists i :: (0 <= i <= |s| && KoreanDateAt(s, i) == r
                                     && forall j :: 0 <= j < i ==> KoreanDateAt(s, j).None?)
  {
    var at := (i: nat) => KoreanDateAt(s, i);
    assert forall i: nat :: at(i) == KoreanDateAt(s, i);
    match FindFrom(at, 0, |s|)
    case Some((_, k)) => Some(k)
    case None => None
  }
}
