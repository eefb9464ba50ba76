/** The first-generation PDF writer: draws a deregistration application onto
    a blank A4 page, with a fixed label row and one text per case field at
    fixed coordinates, in the Korean font when the text needs it. pdf-lib
    is modelled by the list of texts drawn on the page; whether a font can
    encode a text (pdf-lib throws when it cannot) is the parameter
    `encodes`. */
module PdfMapping {
  import opened Js
  import opened Text

  // ------------------------------------------------------------ the page

  /** The two fonts the mapper embeds. */
  datatype Font = Helvetica | NotoSansCjkKr

  /** One `page.drawText` that went through; `None` is a font still `null`. */
  datatype Draw = Draw(text: string, x: real, y: real, size: real, font: Option<Font>)

  /** The page: the texts drawn on it so far. */
  class Page {
    var draws: seq<Draw>

    constructor ()
      ensures draws == []
    {
      draws := [];
    }

    /** `page.drawText`: it throws, drawing nothing, when the font cannot
        encode the text. */
    method DrawText(d: Draw, encodes: (Option<Font>, string) -> bool) returns (ok: bool)
      modifies this
      ensures ok == encodes(d.font, d.text)
      ensures draws == if ok then old(draws) + [d] else old(draws)
    {
      ok := encodes(d.font, d.text);
      if ok {
        draws := draws + [d];
      }
    }
  }

  // ------------------------------------------------------------ the layout

  /** Where a field is drawn. */
  datatype Coord = Coord(x: real, y: real, fontSize: real)

  /** `PDF_FIELD_COORDINATES.VEHICLE_REGISTRATION` */
  function CoordinateOf(key: string): (r: Option<Coord>)
    ensures r.Some? ==> 50.0 <= r.value.x <= 500.0 && 50.0 <= r.value.y <= 700.0 && r.value.fontSize > 0.0
  {
    if key == "plateNumber" then Some(Coord(150.0, 700.0, 12.0))
    else if key == "vehicleModel" then Some(Coord(300.0, 700.0, 10.0))
    else if key == "vin" then Some(Coord(150.0, 680.0, 10.0))
    else if key == "registrationDate" then Some(Coord(300.0, 680.0, 10.0))
    else if key == "ownerName" then Some(Coord(150.0, 650.0, 12.0))
    else if key == "ownerType" then Some(Coord(300.0, 650.0, 10.0))
    else if key == "companyName" then Some(Coord(450.0, 650.0, 10.0))
    else if key == "applicationDate" then Some(Coord(150.0, 620.0, 10.0))
    else if key == "reason" then Some(Coord(150.0, 590.0, 10.0))
    else if key == "submissionDate" then Some(Coord(400.0, 100.0, 10.0))
    else if key == "caseId" then Some(Coord(500.0, 50.0, 8.0))
    else None
  }

  const Title := "차량 등록 해지 신청서"

  /** The label row of `addLabels`: each label's text and the field it names. */
  const Labels: seq<(string, string)> := [
    ("등록번호:", "plateNumber"),
    ("차량모델:", "vehicleModel"),
    ("차대번호:", "vin"),
    ("등록일자:", "registrationDate"),
    ("소유자명:", "ownerName"),
    ("소유자구분:", "ownerType"),
    ("회사명:", "companyName"),
    ("신청일자:", "applicationDate"),
    ("해지사유:", "reason")
  ]

  /** Every label names a field that has coordinates. */
  predicate Labelled(labels: seq<(string, string)>) {
    forall i :: 0 <= i < |labels| ==> CoordinateOf(labels[i].1).Some?
  }

  lemma LabelsLabelled()
    ensures Labelled(Labels)
  {
  }

  /** The label draws, in order: each 80 units left of its field, at the
      field's height, in size 10. */
  function LabelRow(labels: seq<(string, string)>, font: Option<Font>): (r: seq<Draw>)
    requires Labelled(labels)
    ensures |r| == |labels|
    ensures forall i :: 0 <= i < |labels| ==>
      r[i] == Draw(labels[i].0, CoordinateOf(labels[i].1).value.x - 80.0, CoordinateOf(labels[i].1).value.y, 10.0, font)
  {
    seq(|labels|, i requires 0 <= i < |labels| =>
      Draw(labels[i].0, CoordinateOf(labels[i].1).value.x - 80.0, CoordinateOf(labels[i].1).value.y, 10.0, font))
  }

  /** What `addLabels` draws: the title, then the label row. */
  function LabelDraws(font: Option<Font>): (r: seq<Draw>)
  {
    LabelsLabelled();
    [Draw(Title, 200.0, 750.0, 18.0, font)] + LabelRow(Labels, font)
  }

  /** The layout promise: the title sits at (200, 750) in size 18, and each
      of the nine labels sits 80 units left of its field at the same height. */
  lemma LabelsLeftOfFields(font: Option<Font>)
    ensures |LabelDraws(font)| == 10
    ensures LabelDraws(font)[0] == Draw(Title, 200.0, 750.0, 18.0, font)
    ensures forall i :: 0 <= i < |Labels| ==> CoordinateOf(Labels[i].1).Some?
    ensures forall i :: 0 <= i < |Labels| && CoordinateOf(Labels[i].1).Some? ==>
      LabelDraws(font)[i + 1].x == CoordinateOf(Labels[i].1).value.x - 80.0
      && LabelDraws(font)[i + 1].y == CoordinateOf(Labels[i].1).value.y
      && LabelDraws(font)[i + 1].size == 10.0 && LabelDraws(font)[i + 1].text == Labels[i].0
  {
    LabelsLabelled();
    var row := LabelRow(Labels, font);
    assert LabelDraws(font) == [Draw(Title, 200.0, 750.0, 18.0, font)] + row;
    forall i | 0 <= i < |Labels|
      ensures LabelDraws(font)[i + 1] == row[i]
      ensures row[i] == Draw(Labels[i].0, CoordinateOf(Labels[i].1).value.x - 80.0,
                             CoordinateOf(Labels[i].1).value.y, 10.0, font)
    {
    }
  }

  predicate AllEncode(ds: seq<Draw>, encodes: (Option<Font>, string) -> bool) {
    forall i :: 0 <= i < |ds| ==> encodes(ds[i].font, ds[i].text)
  }

  lemma AllEncodeCons(d: Draw, ds: seq<Draw>, encodes: (Option<Font>, string) -> bool)
    ensures AllEncode([d] + ds, encodes) <==> encodes(d.font, d.text) && AllEncode(ds, encodes)
  {
    var all := [d] + ds;
    if AllEncode(all, encodes) {
      assert all[0] == d;
      forall i | 0 <= i < |ds|
        ensures encodes(ds[i].font, ds[i].text)
      {
        assert all[i + 1] == ds[i];
      }
    }
    if encodes(d.font, d.text) && AllEncode(ds, encodes) {
      forall i | 0 <= i < |all|
        ensures encodes(all[i].font, all[i].text)
      {
        if i > 0 {
          assert all[i] == ds[i - 1];
        }
      }
    }
  }

  /** Drawing a list of texts one after the other: `ok` is false at the
      first one that throws. */
  method DrawAll(page: Page, ds: seq<Draw>, encodes: (Option<Font>, string) -> bool) returns (ok: bool)
    modifies page
    ensures ok <==> AllEncode(ds, encodes)
    ensures ok ==> page.draws == old(page.draws) + ds
  {
    var i := 0;
    while i < |ds|
      invariant 0 <= i <= |ds|
      invariant AllEncode(ds[..i], encodes)
      invariant page.draws == old(page.draws) + ds[..i]
    {
      ok := page.DrawText(ds[i], encodes);
      if !ok {
        return;
      }
      assert ds[..i + 1] == ds[..i] + [ds[i]];
      i := i + 1;
    }
    assert ds[..i] == ds;
    ok := true;
  }

  /** A title, then a row of texts; `ok` is false at the first that throws. */
  method DrawTitled(page: Page, title: Draw, row: seq<Draw>, encodes: (Option<Font>, string) -> bool)
    returns (ok: bool)
    modifies page
    ensures ok <==> AllEncode([title] + row, encodes)
    ensures ok ==> page.draws == old(page.draws) + ([title] + row)
  {
    AllEncodeCons(title, row, encodes);
    ok := page.DrawText(title, encodes);
    if !ok {
      return;
    }
    ok := DrawAll(page, row, encodes);
  }

  // ------------------------------------------------------------ fonts and values

  /** `hasKoreanCharacters`: `/[가-힣]/.test(text)`, scanning from the left. */
  function HasKoreanCharacters(text: string): (r: bool)
    ensures r <==> HasHangul(text)
  {
    if text == [] then false
    else if IsHangul(text[0]) then true
    else
      var r := HasKoreanCharacters(text[1..]);
      assert HasHangul(text[1..]) ==> HasHangul(text) by {
        if HasHangul(text[1..]) {
          var i :| 0 <= i < |text[1..]| && IsHangul(text[1..][i]);
          assert IsHangul(text[i + 1]);
        }
      }
      assert HasHangul(text) ==> HasHangul(text[1..]) by {
        if HasHangul(text) {
          var i :| 0 <= i < |text| && IsHangul(text[i]);
          assert i > 0 && text[1..][i - 1] == text[i];
        }
      }
      r
  }

  /** `selectFont`, over the mapper's two font fields. */
  function SelectFont(koreanFont: Option<Font>, defaultFont: Option<Font>, text: string): (r: Option<Font>)
    ensures r == koreanFont ==> koreanFont == defaultFont || (koreanFont.Some? && HasHangul(text))
    ensures koreanFont.Some? && HasHangul(text) ==> r == koreanFont
    ensures !HasHangul(text) || koreanFont.None? ==> r == defaultFont
  {
    if koreanFont.Some? && HasKoreanCharacters(text) then koreanFont else defaultFont
  }

  /** The font of the labels: `koreanFont || defaultFont`. */
  function LabelFont(koreanFont: Option<Font>, defaultFont: Option<Font>): Option<Font> {
    if koreanFont.Some? then koreanFont else defaultFont
  }

  /** `translateOwnerType`: the three owner codes in Korean, anything else
      as it came. The table is looked up by `String(ownerType)`. */
  function TranslateOwnerType(ownerType: JsValue, numText: real -> string): (r: JsValue)
    ensures ownerType == Str("INDIVIDUAL") ==> r == Str("개인")
    ensures ownerType == Str("BUSINESS") ==> r == Str("사업자")
    ensures ownerType == Str("CORPORATE") ==> r == Str("법인")
    ensures ownerType.Str? && ownerType.s !in {"INDIVIDUAL", "BUSINESS", "CORPORATE"} ==> r == ownerType
    ensures r != ownerType ==> r in {Str("개인"), Str("사업자"), Str("법인")}
  {
    var key := ToJsString(ownerType, numText);
    if key == "INDIVIDUAL" then Str("개인")
    else if key == "BUSINESS" then Str("사업자")
    else if key == "CORPORATE" then Str("법인")
    else ownerType
  }

  /** A translated owner type is translated no further. */
  lemma TranslateOwnerTypeSettles(ownerType: JsValue, numText: real -> string)
    ensures var once := TranslateOwnerType(ownerType, numText);
      TranslateOwnerType(once, numText) == once
  {
    var once := TranslateOwnerType(ownerType, numText);
    if once != ownerType {
      assert once.Str? && once.s !in {"INDIVIDUAL", "BUSINESS", "CORPORATE"};
    }
  }

  /** `o?.key` on a value read from the case summary: `undefined` for a
      missing object. */
  function OptionalProp(o: JsValue, key: string): JsValue {
    match o
    case Obj(m) => Get(m, key)
    case _ => Undefined
  }

  /** `caseSummary.<group>?.<key>` */
  function SummaryField(summary: Object, group: string, key: string): JsValue {
    OptionalProp(Get(summary, group), key)
  }

  /** `fieldMappings` of `generatePDF`, in its key order. The two dates are
      the clock's `toLocaleDateString` and `toLocaleString` texts. */
  function FieldMappings(summary: Object, caseId: JsValue, applicationDate: string, submissionDate: string,
                         numText: real -> string): (r: seq<(string, JsValue)>)
    ensures |r| == 11 && r[8] == ("reason", Str("수출"))
  {
    [("plateNumber", SummaryField(summary, "vehicleInfo", "plateNumber")),
     ("vehicleModel", SummaryField(summary, "vehicleInfo", "model")),
     ("vin", SummaryField(summary, "vehicleInfo", "vin")),
     ("registrationDate", SummaryField(summary, "vehicleInfo", "registrationDate")),
     ("ownerName", SummaryField(summary, "ownerInfo", "name")),
     ("ownerType", TranslateOwnerType(SummaryField(summary, "ownerInfo", "type"), numText)),
     ("companyName", SummaryField(summary, "ownerInfo", "companyName")),
     ("applicationDate", Str(applicationDate)),
     ("reason", Str("수출")),
     ("submissionDate", Str(submissionDate)),
     ("caseId", caseId)]
  }

  /** Every key of the mappings has a place on the form. */
  lemma FieldMappingsPlaced(summary: Object, caseId: JsValue, applicationDate: string, submissionDate: string,
                            numText: real -> string)
    ensures forall i :: 0 <= i < 11 ==>
      CoordinateOf(FieldMappings(summary, caseId, applicationDate, submissionDate, numText)[i].0).Some?
  {
  }

  /** `coordinates.fontSize || 10` */
  function SizeOf(c: Coord): (r: real)
    ensures r != 0.0
    ensures c.fontSize != 0.0 ==> r == c.fontSize
  {
    if c.fontSize != 0.0 then c.fontSize else 10.0
  }

  /** One field drawn by `addFieldToPDF`: in the selected font, or, when
      that throws, once more in the default font; `None` when the second
      attempt throws too. */
  function FieldDraw(text: string, c: Coord, koreanFont: Option<Font>, defaultFont: Option<Font>,
                     encodes: (Option<Font>, string) -> bool): (r: Option<Draw>)
    ensures r.Some? <==> encodes(SelectFont(koreanFont, defaultFont, text), text) || encodes(defaultFont, text)
    ensures r.Some? ==> r.value.text == text && r.value.x == c.x && r.value.y == c.y
                        && r.value.size == SizeOf(c) && encodes(r.value.font, text)
    ensures r.Some? && r.value.font != defaultFont ==> r.value.font == SelectFont(koreanFont, defaultFont, text)
  {
    var font := SelectFont(koreanFont, defaultFont, text);
    if encodes(font, text) then Some(Draw(text, c.x, c.y, SizeOf(c), font))
    else if encodes(defaultFont, text) then Some(Draw(text, c.x, c.y, SizeOf(c), defaultFont))
    else None
  }

  /** What the field loop of `generatePDF` draws: every truthy value whose
      key has coordinates, in order; `None` when a draw throws. */
  function FieldDraws(mappings: seq<(string, JsValue)>, coordinateOf: string -> Option<Coord>,
                      koreanFont: Option<Font>, defaultFont: Option<Font>,
                      numText: real -> string, encodes: (Option<Font>, string) -> bool): (r: Option<seq<Draw>>)
    ensures r.Some? ==> |r.value| <= |mappings|
  {
    if mappings == [] then Some([])
    else
      var (key, value) := mappings[0];
      var rest := FieldDraws(mappings[1..], coordinateOf, koreanFont, defaultFont, numText, encodes);
      if !Truthy(value) || coordinateOf(key).None? then rest
      else
        var d := FieldDraw(ToJsString(value, numText), coordinateOf(key).value, koreanFont, defaultFont, encodes);
        if d.None? || rest.None? then None else Some([d.value] + rest.value)
  }

  /** Every drawn field comes from a truthy value whose key has
      coordinates, drawn there. */
  lemma {:induction false} FieldDrawsFromTruthy(mappings: seq<(string, JsValue)>, coordinateOf: string -> Option<Coord>,
                                                koreanFont: Option<Font>,
                                                defaultFont: Option<Font>, numText: real -> string,
                                                encodes: (Option<Font>, string) -> bool, d: Draw)
    requires FieldDraws(mappings, coordinateOf, koreanFont, defaultFont, numText, encodes).Some?
    requires d in FieldDraws(mappings, coordinateOf, koreanFont, defaultFont, numText, encodes).value
    ensures exists i :: 0 <= i < |mappings| && Truthy(mappings[i].1) && coordinateOf(mappings[i].0).Some?
                        && d.text == ToJsString(mappings[i].1, numText)
                        && d.x == coordinateOf(mappings[i].0).value.x && d.y == coordinateOf(mappings[i].0).value.y
  {
    var (key, value) := mappings[0];
    var rest := FieldDraws(mappings[1..], coordinateOf, koreanFont, defaultFont, numText, encodes);
    var here := Truthy(value) && coordinateOf(key).Some?;
    if here && d == FieldDraws(mappings, coordinateOf, koreanFont, defaultFont, numText, encodes).value[0] {
      assert Truthy(mappings[0].1);
    } else {
      assert d in rest.value;
      FieldDrawsFromTruthy(mappings[1..], coordinateOf, koreanFont, defaultFont, numText, encodes, d);
      var i :| 0 <= i < |mappings[1..]| && Truthy(mappings[1..][i].1) && coordinateOf(mappings[1..][i].0).Some?
               && d.text == ToJsString(mappings[1..][i].1, numText)
               && d.x == coordinateOf(mappings[1..][i].0).value.x && d.y == coordinateOf(mappings[1..][i].0).value.y;
      assert mappings[1..][i] == mappings[i + 1];
    }
  }

  /** Every truthy value whose key has coordinates is drawn at them. */
  lemma {:induction false} FieldDrawsComplete(mappings: seq<(string, JsValue)>, coordinateOf: string -> Option<Coord>,
                                              koreanFont: Option<Font>,
                                              defaultFont: Option<Font>, numText: real -> string,
                                              encodes: (Option<Font>, string) -> bool, i: nat)
    requires FieldDraws(mappings, coordinateOf, koreanFont, defaultFont, numText, encodes).Some?
    requires i < |mappings| && Truthy(mappings[i].1) && coordinateOf(mappings[i].0).Some?
    ensures exists d :: d in FieldDraws(mappings, coordinateOf, koreanFont, defaultFont, numText, encodes).value
                        && d.text == ToJsString(mappings[i].1, numText)
                        && d.x == coordinateOf(mappings[i].0).value.x && d.y == coordinateOf(mappings[i].0).value.y
  {
    var all := FieldDraws(mappings, coordinateOf, koreanFont, defaultFont, numText, encodes).value;
    var (key, value) := mappings[0];
    var rest := FieldDraws(mappings[1..], coordinateOf, koreanFont, defaultFont, numText, encodes);
    if i == 0 {
      assert all[0] in all;
    } else {
      assert mappings[1..][i - 1] == mappings[i];
      FieldDrawsComplete(mappings[1..], coordinateOf, koreanFont, defaultFont, numText, encodes, i - 1);
      var d :| d in rest.value && d.text == ToJsString(mappings[i].1, numText)
               && d.x == coordinateOf(mappings[i].0).value.x && d.y == coordinateOf(mappings[i].0).value.y;
      assert d in all;
    }
  }

  /** Whatever the case holds, a completed form carries the reason '수출'
      at the reason field's place. */
  lemma ReasonAlwaysDrawn(summary: Object, caseId: JsValue, applicationDate: string, submissionDate: string,
                          koreanFont: Option<Font>, defaultFont: Option<Font>, numText: real -> string,
                          encodes: (Option<Font>, string) -> bool)
    requires FieldDraws(FieldMappings(summary, caseId, applicationDate, submissionDate, numText),
                        CoordinateOf, koreanFont, defaultFont, numText, encodes).Some?
    ensures exists d :: d in FieldDraws(FieldMappings(summary, caseId, applicationDate, submissionDate, numText),
                                        CoordinateOf, koreanFont, defaultFont, numText, encodes).value
                        && d.text == "수출" && d.x == 150.0 && d.y == 590.0
  {
    var mappings := FieldMappings(summary, caseId, applicationDate, submissionDate, numText);
    assert mappings[8].1 == Str("수출");
    FieldDrawsComplete(mappings, CoordinateOf, koreanFont, defaultFont, numText, encodes, 8);
  }

  // ------------------------------------------------------------ the mapper

  /** `PDFMapper`: the fonts embedded into the current document. */
  class PdfMapper {
    var koreanFont: Option<Font>
    var defaultFont: Option<Font>

    constructor ()
      ensures koreanFont == None && defaultFont == None
    {
      koreanFont := None;
      defaultFont := None;
    }

    /** `initializeFonts`: Helvetica always; the Korean font when its file
        exists and embeds (`koreanLoads`). A failed load keeps whatever
        Korean font the mapper had before. */
    method InitializeFonts(koreanLoads: bool)
      modifies this
      ensures defaultFont == Some(Helvetica)
      ensures koreanFont == if koreanLoads then Some(NotoSansCjkKr) else old(koreanFont)
    {
      defaultFont := Some(Helvetica);
      if koreanLoads {
        koreanFont := Some(NotoSansCjkKr);
      }
    }

    /** `addFieldToPDF`: nothing for a falsy value or missing coordinates;
        otherwise `String(value)` in the selected font, falling back to the
        default font when that throws. `ok` is false when the fallback
        throws as well. */
    method AddFieldToPDF(page: Page, fieldKey: string, value: JsValue, coordinates: Option<Coord>,
                         numText: real -> string, encodes: (Option<Font>, string) -> bool) returns (ok: bool)
      modifies page
      ensures !Truthy(value) || coordinates.None? ==> ok && page.draws == old(page.draws)
      ensures Truthy(value) && coordinates.Some? ==>
        var d := FieldDraw(ToJsString(value, numText), coordinates.value, koreanFont, defaultFont, encodes);
        ok == d.Some? && page.draws == if ok then old(page.draws) + [d.value] else old(page.draws)
    {
      if !Truthy(value) || coordinates.None? {
        return true;
      }
      var text := ToJsString(value, numText);
      var c := coordinates.value;
      var font := SelectFont(koreanFont, defaultFont, text);
      ok := page.DrawText(Draw(text, c.x, c.y, SizeOf(c), font), encodes);
      if !ok {
        ok := page.DrawText(Draw(text, c.x, c.y, SizeOf(c), defaultFont), encodes);
      }
    }

    /** `addLabels`: the title, then the label row, all in the Korean font
        if there is one. `ok` is false when a draw throws. */
    method AddLabels(page: Page, encodes: (Option<Font>, string) -> bool) returns (ok: bool)
      modifies page
      ensures ok <==> AllEncode(LabelDraws(LabelFont(koreanFont, defaultFont)), encodes)
      ensures ok ==> page.draws == old(page.draws) + LabelDraws(LabelFont(koreanFont, defaultFont))
    {
      var labelFont := LabelFont(koreanFont, defaultFont);
      LabelsLabelled();
      ok := DrawTitled(page, Draw(Title, 200.0, 750.0, 18.0, labelFont), LabelRow(Labels, labelFont), encodes);
    }

    /** The field loop of `generatePDF`, with the coordinate table as
        `coordinateOf`. */
    method DrawFields(page: Page, mappings: seq<(string, JsValue)>, coordinateOf: string -> Option<Coord>,
                      numText: real -> string, encodes: (Option<Font>, string) -> bool) returns (ok: bool)
      modifies page
      ensures ok <==> FieldDraws(mappings, coordinateOf, koreanFont, defaultFont, numText, encodes).Some?
      ensures ok ==> page.draws == old(page.draws)
                                   + FieldDraws(mappings, coordinateOf, koreanFont, defaultFont, numText, encodes).value
    {
      ghost var drawn: seq<Draw> := [];
      assert mappings[0..] == mappings;
      GlueNothing(FieldDraws(mappings, coordinateOf, koreanFont, defaultFont, numText, encodes));
      var k := 0;
      while k < |mappings|
        invariant 0 <= k <= |mappings|
        invariant page.draws == old(page.draws) + drawn
        invariant FieldDraws(mappings, coordinateOf, koreanFont, defaultFont, numText, encodes)
                  == Glue(drawn, FieldDraws(mappings[k..], coordinateOf, koreanFont, defaultFont, numText, encodes))
      {
        var (fieldKey, value) := mappings[k];
        FieldDrawsAt(mappings, k, fieldKey, value, coordinateOf, koreanFont, defaultFont, numText, encodes);
        ghost var rest := FieldDraws(mappings[k + 1..], coordinateOf, koreanFont, defaultFont, numText, encodes);
        ok := AddFieldToPDF(page, fieldKey, value, coordinateOf(fieldKey), numText, encodes);
        if !ok {
          return;
        }
        if Truthy(value) && coordinateOf(fieldKey).Some? {
          var d := FieldDraw(ToJsString(value, numText), coordinateOf(fieldKey).value, koreanFont, defaultFont, encodes);
          GlueShift(drawn, d.value, rest);
          drawn := drawn + [d.value];
        }
        k := k + 1;
      }
      ok := true;
    }

    /** The body of `generatePDF` once the fonts are set: the labels, then
        the field loop over `mappings`. */
    method LabelsThenFields(page: Page, mappings: seq<(string, JsValue)>, numText: real -> string,
                            encodes: (Option<Font>, string) -> bool) returns (ok: bool)
      modifies page
      ensures ok <==> AllEncode(LabelDraws(LabelFont(koreanFont, defaultFont)), encodes)
                      && FieldDraws(mappings, CoordinateOf, koreanFont, defaultFont, numText, encodes).Some?
      ensures ok ==> page.draws == old(page.draws) + LabelDraws(LabelFont(koreanFont, defaultFont))
                                   + FieldDraws(mappings, CoordinateOf, koreanFont, defaultFont, numText, encodes).value
    {
      ok := AddLabels(page, encodes);
      if !ok {
        return;
      }
      ok := DrawFields(page, mappings, CoordinateOf, numText, encodes);
    }

    /** `generatePDF` on a fresh page: fonts, labels, then every field with
        a truthy value. The clock's date texts are parameters. `ok` is
        false when some draw throws (the source then throws "PDF generation
        failed"). */
    method GeneratePDF(summary: Object, caseId: JsValue, applicationDate: string, submissionDate: string,
                       koreanLoads: bool, numText: real -> string, encodes: (Option<Font>, string) -> bool)
      returns (ok: bool, page: Page)
      modifies this
      ensures fresh(page)
      ensures defaultFont == Some(Helvetica)
      ensures koreanFont == if koreanLoads then Some(NotoSansCjkKr) else old(koreanFont)
      ensures ok <==> AllEncode(LabelDraws(LabelFont(koreanFont, defaultFont)), encodes)
                      && FieldDraws(FieldMappings(summary, caseId, applicationDate, submissionDate, numText),
                                    CoordinateOf, koreanFont, defaultFont, numText, encodes).Some?
      ensures ok ==> page.draws == LabelDraws(LabelFont(koreanFont, defaultFont))
                                   + FieldDraws(FieldMappings(summary, caseId, applicationDate, submissionDate, numText),
                                                CoordinateOf, koreanFont, defaultFont, numText, encodes).value
    {
      InitializeFonts(koreanLoads);
      page := new Page();
      ok := LabelsThenFields(page, FieldMappings(summary, caseId, applicationDate, submissionDate, numText),
                             numText, encodes);
    }
  }

  /** One step of the field loop: the entry at `k` is skipped, or drawn in
      front of what the later entries draw. */
  lemma FieldDrawsAt(mappings: seq<(string, JsValue)>, k: nat, key: string, value: JsValue,
                     coordinateOf: string -> Option<Coord>, koreanFont: Option<Font>, defaultFont: Option<Font>,
                     numText: real -> string, encodes: (Option<Font>, string) -> bool)
    requires k < |mappings| && mappings[k] == (key, value)
    ensures !Truthy(value) || coordinateOf(key).None? ==>
      FieldDraws(mappings[k..], coordinateOf, koreanFont, defaultFont, numText, encodes)
      == FieldDraws(mappings[k + 1..], coordinateOf, koreanFont, defaultFont, numText, encodes)
    ensures Truthy(value) && coordinateOf(key).Some? &&
            FieldDraw(ToJsString(value, numText), coordinateOf(key).value, koreanFont, defaultFont, encodes).Some? ==>
      FieldDraws(mappings[k..], coordinateOf, koreanFont, defaultFont, numText, encodes)
      == Glue([FieldDraw(ToJsString(value, numText), coordinateOf(key).value, koreanFont, defaultFont, encodes).value],
              FieldDraws(mappings[k + 1..], coordinateOf, koreanFont, defaultFont, numText, encodes))
    ensures Truthy(value) && coordinateOf(key).Some? &&
            FieldDraw(ToJsString(value, numText), coordinateOf(key).value, koreanFont, defaultFont, encodes).None? ==>
      FieldDraws(mappings[k..], coordinateOf, koreanFont, defaultFont, numText, encodes).None?
  {
    assert mappings[k..][0] == (key, value);
    assert mappings[k..][1..] == mappings[k + 1..];
  }

  /** The draws already made joined to those still to come. */
  function Glue(done: seq<Draw>, rest: Option<seq<Draw>>): Option<seq<Draw>> {
    if rest.None? then None else Some(done + rest.value)
  }

  lemma GlueNothing(rest: Option<seq<Draw>>)
    ensures Glue([], rest) == rest
  {
    if rest.Some? {
      assert [] + rest.value == rest.value;
    }
  }

  lemma GlueShift(done: seq<Draw>, d: Draw, rest: Option<seq<Draw>>)
    ensures Glue(done, Glue([d], rest)) == Glue(done + [d], rest)
  {
    if rest.Some? {
      assert done + ([d] + rest.value) == done + [d] + rest.value;
    }
  }
}
