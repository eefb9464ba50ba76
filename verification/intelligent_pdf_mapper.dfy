/** The coordinate side of the LLM-assisted PDF mapper: clamping the
    coordinates a model proposes onto the A4 page, the fallback coordinate
    table, and the ASCII-only rendering of texts for fonts without Hangul.
    The model calls themselves are not part of this module. */
module IntelligentMapping {
  import opened Js
  import opened Text
  import PdfMapping

  // ------------------------------------------------------------ clamping

  function Min(a: real, b: real): real {
    if a <= b then a else b
  }

  function Max(a: real, b: real): real {
    if a >= b then a else b
  }

  /** `Math.max(lo, Math.min(n, hi))` on a number. */
  function ClampNum(n: real, lo: real, hi: real): (r: real)
    requires lo <= hi
    ensures lo <= r <= hi
    ensures lo <= n <= hi ==> r == n
    ensures n < lo ==> r == lo
    ensures n > hi ==> r == hi
  {
    Max(lo, Min(n, hi))
  }

  /** `Math.max(lo, Math.min(v || d, hi))`. A falsy `v` gives way to `d`; any
      other non-number is converted by `toNumber` (None is NaN, which both
      `Math.min` and `Math.max` pass through). */
  function Clamp(v: JsValue, d: real, lo: real, hi: real, toNumber: JsValue -> Option<real>): (r: Option<real>)
    requires lo <= hi
    ensures r.Some? ==> lo <= r.value <= hi
    ensures !Truthy(v) ==> r == Some(ClampNum(d, lo, hi))
    ensures v.Num? && v.n != 0.0 ==> r == Some(ClampNum(v.n, lo, hi))
  {
    var n := if !Truthy(v) then Some(d) else if v.Num? then Some(v.n) else toNumber(v);
    if n.None? then None else Some(ClampNum(n.value, lo, hi))
  }

  /** A refined coordinate; a `None` part is NaN. */
  datatype Refined = Refined(x: Option<real>, y: Option<real>, size: Option<real>)

  /** `coord.<key>`: a primitive has none of the three properties. */
  function Prop(coord: JsValue, key: string): JsValue {
    match coord
    case Obj(m) => Get(m, key)
    case _ => Undefined
  }

  /** Reading a property of `null` or `undefined` throws. */
  predicate Readable(coord: JsValue) {
    !coord.Undefined? && !coord.Null?
  }

  /** One entry of `validateAndRefineCoordinates` on a page of the given
      size: x within 50 of the left and right edges, y within 50 of the
      bottom and top, size between 8 and 16, with 100, 700 and 10 standing
      in for a falsy x, y and size. */
  function Refine(coord: JsValue, width: real, height: real, toNumber: JsValue -> Option<real>): (r: Refined)
    requires 100.0 <= width && 100.0 <= height
    ensures r.x.Some? ==> 50.0 <= r.x.value <= width - 50.0
    ensures r.y.Some? ==> 50.0 <= r.y.value <= height - 50.0
    ensures r.size.Some? ==> 8.0 <= r.size.value <= 16.0
  {
    Refined(Clamp(Prop(coord, "x"), 100.0, 50.0, width - 50.0, toNumber),
            Clamp(Prop(coord, "y"), 700.0, 50.0, height - 50.0, toNumber),
            Clamp(Prop(coord, "size"), 10.0, 8.0, 16.0, toNumber))
  }

  /** What `validateAndRefineCoordinates` returns: every entry refined, under
      the same key; `None` when some entry is `null` or `undefined` (the
      source throws there). */
  function RefineAll(coordinates: map<string, JsValue>, width: real, height: real,
                     toNumber: JsValue -> Option<real>): (r: Option<map<string, Refined>>)
    requires 100.0 <= width && 100.0 <= height
    ensures r.Some? <==> forall k :: k in coordinates ==> Readable(coordinates[k])
    ensures r.Some? ==> r.value.Keys == coordinates.Keys
    ensures r.Some? ==> forall k :: k in r.value ==> r.value[k] == Refine(coordinates[k], width, height, toNumber)
  {
    if forall k :: k in coordinates ==> Readable(coordinates[k]) then
      Some(map k | k in coordinates :: Refine(coordinates[k], width, height, toNumber))
    else None
  }

  /** A refined coordinate written back as the object the source builds. */
  function AsValue(p: Refined): JsValue
    requires Numeric(p)
  {
    Obj(map["x" := Num(p.x.value), "y" := Num(p.y.value), "size" := Num(p.size.value)])
  }

  predicate Numeric(p: Refined) {
    p.x.Some? && p.y.Some? && p.size.Some?
  }

  /** A refined coordinate made of numbers, all within their bounds. */
  predicate InBounds(p: Refined, width: real, height: real)
    requires Numeric(p)
  {
    50.0 <= p.x.value <= width - 50.0 && 50.0 <= p.y.value <= height - 50.0 && 8.0 <= p.size.value <= 16.0
  }

  /** Clamping is idempotent: refining a refined coordinate that holds
      numbers gives it back. */
  lemma RefineSettles(p: Refined, width: real, height: real, toNumber: JsValue -> Option<real>)
    requires 100.0 <= width && 100.0 <= height
    requires Numeric(p) && InBounds(p, width, height)
    ensures Refine(AsValue(p), width, height, toNumber) == p
  {
    var v := AsValue(p);
    assert Prop(v, "x") == Num(p.x.value) && Prop(v, "y") == Num(p.y.value) && Prop(v, "size") == Num(p.size.value);
  }

  /** The refined coordinates as the objects the source returns. */
  function WriteBack(refined: map<string, Refined>): (r: map<string, JsValue>)
    requires forall k :: k in refined ==> Numeric(refined[k])
    ensures r.Keys == refined.Keys
    ensures forall k :: k in r ==> r[k] == AsValue(refined[k])
  {
    map k | k in refined :: AsValue(refined[k])
  }

  /** Refining the output of a refinement changes nothing: written back as
      objects, numeric refined coordinates refine to themselves. */
  lemma RefineAllIdempotent(refined: map<string, Refined>, width: real, height: real,
                            toNumber: JsValue -> Option<real>)
    requires 100.0 <= width && 100.0 <= height
    requires forall k :: k in refined ==> Numeric(refined[k]) && InBounds(refined[k], width, height)
    ensures RefineAll(WriteBack(refined), width, height, toNumber).Some?
    ensures forall k :: k in refined ==> RefineAll(WriteBack(refined), width, height, toNumber).value[k] == refined[k]
    ensures RefineAll(WriteBack(refined), width, height, toNumber) == Some(refined)
  {
    WriteBackRefines(refined, width, height, toNumber);
    SameMap(RefineAll(WriteBack(refined), width, height, toNumber).value, refined);
  }

  lemma SameMap<K, V>(a: map<K, V>, b: map<K, V>)
    requires a.Keys == b.Keys && forall k :: k in a ==> a[k] == b[k]
    ensures a == b
  {
  }

  lemma WriteBackRefines(refined: map<string, Refined>, width: real, height: real,
                         toNumber: JsValue -> Option<real>)
    requires 100.0 <= width && 100.0 <= height
    requires forall k :: k in refined ==> Numeric(refined[k]) && InBounds(refined[k], width, height)
    ensures forall k :: k in WriteBack(refined) ==>
      Readable(WriteBack(refined)[k]) && Refine(WriteBack(refined)[k], width, height, toNumber) == refined[k]
  {
    forall k | k in WriteBack(refined)
      ensures Readable(WriteBack(refined)[k]) && Refine(WriteBack(refined)[k], width, height, toNumber) == refined[k]
    {
      RefineSettles(refined[k], width, height, toNumber);
    }
  }

  // ------------------------------------------------------------ the mapper

  /** `IntelligentPDFMapper`: the page it places coordinates on. */
  class IntelligentPdfMapper {
    const width: real
    const height: real

    /** An A4 page, 595 by 841 points. */
    constructor ()
      ensures width == 595.0 && height == 841.0
    {
      width := 595.0;
      height := 841.0;
    }

    /** `validateAndRefineCoordinates`: fills `refined` one key at a time.
        `None` is the exception of a `null` or `undefined` entry. */
    method ValidateAndRefineCoordinates(coordinates: map<string, JsValue>, toNumber: JsValue -> Option<real>)
      returns (r: Option<map<string, Refined>>)
      requires 100.0 <= width && 100.0 <= height
      ensures r == RefineAll(coordinates, width, height, toNumber)
    {
      var refined: map<string, Refined> := map[];
      var todo := coordinates.Keys;
      while todo != {}
        invariant todo <= coordinates.Keys
        invariant refined.Keys == coordinates.Keys - todo
        invariant forall k :: k in refined ==> Readable(coordinates[k])
        invariant forall k :: k in refined ==> refined[k] == Refine(coordinates[k], width, height, toNumber)
        decreases todo
      {
        var field :| field in todo;
        var coord := coordinates[field];
        if !Readable(coord) {
          return None;
        }
        refined := refined[field := Refine(coord, width, height, toNumber)];
        todo := todo - {field};
      }
      r := RefineAll(coordinates, width, height, toNumber);
      assert r.value.Keys == refined.Keys;
      assert r.value == refined;
    }
  }

  /** A fallback coordinate. */
  datatype Point = Point(x: real, y: real, size: real)

  /** `getDefaultCoordinates`, in its key order. */
  const DefaultCoordinates: seq<(string, Point)> := [
    ("owner_name", Point(200.0, 591.0, 12.0)),
    ("birth_date", Point(420.0, 591.0, 12.0)),
    ("address", Point(130.0, 521.0, 10.0)),
    ("license_plate", Point(160.0, 428.0, 12.0)),
    ("chassis_number", Point(380.0, 428.0, 10.0)),
    ("mileage", Point(520.0, 428.0, 12.0)),
    ("scrap_checkbox", Point(135.0, 371.0, 12.0)),
    ("certificate_checkbox", Point(250.0, 191.0, 12.0)),
    ("application_year", Point(500.0, 141.0, 12.0)),
    ("application_month", Point(560.0, 141.0, 12.0)),
    ("application_day", Point(590.0, 141.0, 12.0)),
    ("applicant_name", Point(220.0, 111.0, 12.0)),
    ("applicant_birth", Point(220.0, 86.0, 12.0))
  ]

  /** A fallback coordinate as the object the source returns. */
  function PointValue(p: Point): JsValue {
    Obj(map["x" := Num(p.x), "y" := Num(p.y), "size" := Num(p.size)])
  }

  /** Refining a fallback coordinate whose parts are non-zero numbers
      clamps each part on its own. */
  lemma RefinePoint(p: Point, width: real, height: real, toNumber: JsValue -> Option<real>)
    requires 100.0 <= width && 100.0 <= height
    requires p.x != 0.0 && p.y != 0.0 && p.size != 0.0
    ensures Refine(PointValue(p), width, height, toNumber)
            == Refined(Some(ClampNum(p.x, 50.0, width - 50.0)), Some(ClampNum(p.y, 50.0, height - 50.0)),
                       Some(ClampNum(p.size, 8.0, 16.0)))
  {
    var v := PointValue(p);
    assert Prop(v, "x") == Num(p.x) && Prop(v, "y") == Num(p.y) && Prop(v, "size") == Num(p.size);
  }

  /** The fallback table and the A4 clamp disagree in two places: the
      application month and day lie right of x = 545, so refining them
      moves them there; every other entry is left as it is. */
  lemma DefaultsAgainstClamp()
    ensures |DefaultCoordinates| == 13
    ensures forall i :: 0 <= i < 13 && i != 9 && i != 10 ==>
      var p := DefaultCoordinates[i].1;
      50.0 <= p.x <= 545.0 && 50.0 <= p.y <= 791.0 && 8.0 <= p.size <= 16.0
    ensures DefaultCoordinates[9].0 == "application_month" && DefaultCoordinates[9].1.x > 545.0
    ensures DefaultCoordinates[10].0 == "application_day" && DefaultCoordinates[10].1.x > 545.0
  {
  }

  /** On the A4 page, refining the fallback table keeps every coordinate
      except the application month's and day's x, which become 545. */
  lemma DefaultsRefined(toNumber: JsValue -> Option<real>)
    ensures forall i :: 0 <= i < |DefaultCoordinates| ==>
      var p := DefaultCoordinates[i].1;
      Refine(PointValue(p), 595.0, 841.0, toNumber)
      == Refined(Some(if i == 9 || i == 10 then 545.0 else p.x), Some(p.y), Some(p.size))
  {
    DefaultsAgainstClamp();
    forall i | 0 <= i < |DefaultCoordinates|
      ensures var p := DefaultCoordinates[i].1;
        Refine(PointValue(p), 595.0, 841.0, toNumber)
        == Refined(Some(if i == 9 || i == 10 then 545.0 else p.x), Some(p.y), Some(p.size))
    {
      RefinePoint(DefaultCoordinates[i].1, 595.0, 841.0, toNumber);
    }
  }

  // ------------------------------------------------------------ text

  /** The replacement of `formatTextForPDF`: a Hangul syllable becomes 'X';
      every other character, ASCII or not, stays. */
  function Asciify(s: string): (r: string)
    ensures |r| == |s|
    ensures forall i :: 0 <= i < |s| ==> r[i] == if IsHangul(s[i]) then 'X' else s[i]
  {
    if s == [] then [] else [if IsHangul(s[0]) then 'X' else s[0]] + Asciify(s[1..])
  }

  /** Nothing of Hangul survives the replacement, and a second pass
      changes nothing. */
  lemma AsciifyClears(s: string)
    ensures !HasHangul(Asciify(s))
    ensures Asciify(Asciify(s)) == Asciify(s)
  {
    var r := Asciify(s);
    assert forall i :: 0 <= i < |r| ==> !IsHangul(r[i]);
    assert Asciify(r) == r;
  }

  const DefaultMaxLength := 30

  /** `formatTextForPDF(text, maxLength)`: '' for a falsy text; Hangul
      replaced; longer than `maxLength`, cut to it and '...' appended.
      `None` is the exception `text.replace` throws on a truthy non-string. */
  function FormatTextForPDF(text: JsValue, maxLength: int): (r: Option<string>)
    ensures !Truthy(text) ==> r == Some("")
    ensures Truthy(text) && !text.Str? ==> r.None?
    ensures text.Str? && |text.s| <= maxLength ==> r == Some(Asciify(text.s))
    ensures text.Str? && |text.s| > maxLength >= 0 ==> r == Some(Asciify(text.s)[..maxLength] + "...")
    ensures r.Some? ==> |r.value| <= (if maxLength < 0 then 0 else maxLength) + 3
  {
    if !Truthy(text) then Some("")
    else if !text.Str? then None
    else
      var formatted := Asciify(text.s);
      if |formatted| > maxLength then Some(Prefix(formatted, if maxLength < 0 then 0 else maxLength) + "...")
      else Some(formatted)
  }

  /** A formatted text never needs the Korean font: the first-generation
      mapper would draw it in its default font. */
  lemma FormattedNeedsNoKoreanFont(text: JsValue, maxLength: int)
    requires FormatTextForPDF(text, maxLength).Some?
    ensures !PdfMapping.HasKoreanCharacters(FormatTextForPDF(text, maxLength).value)
  {
    var r := FormatTextForPDF(text, maxLength).value;
    if text.Str? && Truthy(text) {
      var f := Asciify(text.s);
      AsciifyClears(text.s);
      if |f| > maxLength {
        var m := if maxLength < 0 then 0 else maxLength;
        var cut := Prefix(f, m);
        assert r == cut + "...";
        assert forall i :: 0 <= i < |cut| ==> r[i] == f[i];
        assert forall i :: |cut| <= i < |r| ==> r[i] == '.';
      }
    }
  }
}
