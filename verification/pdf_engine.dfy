/** The PDF form engine: lays a case summary onto a template's fields,
    either through the template's own form text fields or by drawing at
    fixed coordinates, with word wrap, truncation, checkboxes, dates and a
    signature box. The pdf-lib document is modelled as the list of the
    operations done on it. */
module Engine {
  import opened Js
  import opened Text

  // ------------------------------------------------------------ the document

  /** One thing done to the template. */
  datatype Op =
    | DrawText(text: string, x: real, y: real, size: real)
    | FillBox(x: real, y: real, width: real, height: real)
    | FrameBox(x: real, y: real, width: real, height: real)
    | SetFormText(name: string, value: string)

  /** The loaded template: the names of its form text fields, and what has
      been done to it so far. */
  class Document {
    const formFields: set<string>
    var ops: seq<Op>

    constructor (formFields: set<string>)
      ensures this.formFields == formFields && ops == []
    {
      this.formFields := formFields;
      ops := [];
    }

    /** `page.drawText`, `page.drawRectangle`, `textField.setText`. */
    method Do(op: Op)
      modifies this
      ensures ops == old(ops) + [op]
    {
      ops := ops + [op];
    }
  }

  // ------------------------------------------------------------ field maps

  datatype FieldKind = TextKind | Checkbox | CheckboxGroup | DateKind | Stamp | OtherKind

  /** One choice of a checkbox group. */
  datatype CheckOption = CheckOption(x: real, y: real, box: Option<real>)

  /** A field of a template's field map; absent properties are `None`. */
  datatype PdfField = PdfField(
    kind: FieldKind,
    pdfField: Option<string>,
    x: Option<real>,
    y: Option<real>,
    w: Option<real>,
    h: Option<real>,
    fontSize: Option<real>,
    lineHeight: Option<real>,
    maxLines: Option<nat>,
    format: Option<string>,
    box: Option<real>,
    options: Option<map<string, CheckOption>>,
    text: Option<string>)

  /** A field map: the font, the page and the fields in their listed order,
      each under the dotted path of the summary value it shows. */
  datatype FieldMap = FieldMap(font: string, page: nat, fields: seq<(string, PdfField)>)

  /** `n || d` on an optional number: zero and absence give the default. */
  function NumOr(n: Option<real>, d: real): (r: real)
    ensures d != 0.0 ==> r != 0.0
    ensures n.Some? && n.value != 0.0 ==> r == n.value
    ensures (n.None? || n.value == 0.0) ==> r == d
  {
    if n.Some? && n.value != 0.0 then n.value else d
  }

  /** `s || d` on an optional string: the empty string and absence give the
      default. */
  function TextOr(s: Option<string>, d: string): string {
    if s.Some? && s.value != "" then s.value else d
  }

  /** What the engine takes from the platform: `String(n)` for a
      non-integral number, the local calendar date `new Date(v)` gives
      (none when invalid), `parseFloat` (none for NaN) and the Korean
      locale's number text. */
  datatype Calendar = Calendar(year: int, month: int, day: int)

  datatype Env = Env(
    numText: real -> string,
    dateOf: JsValue -> Option<Calendar>,
    parseFloat: string -> Option<real>,
    localeNumber: real -> string)

  // ------------------------------------------------------------ formatting

  /** `formatValue`: a format holding `#,###` has it replaced by the number
      in local notation when the value reads as a number; any other value
      or format leaves the value as it is. */
  function FormatValue(value: string, format: Option<string>, env: Env): (r: string)
    ensures (format.None? || format.value == "") ==> r == value
    ensures format.Some? && !Contains(format.value, "#,###") ==> r == value
    ensures env.parseFloat(value).None? ==> r == value
  {
    if format.None? || format.value == "" then value
    else if Contains(format.value, "#,###") && env.parseFloat(value).Some? then
      ReplaceFirst(format.value, "#,###", env.localeNumber(env.parseFloat(value).value))
    else value
  }

  /** The token substitutions of `formatDate`, in their order: the first
      `YYYY`, then `MM` (padded), `M`, `DD` (padded) and `D`. */
  function DateTokens(format: string, c: Calendar): string {
    var withYear := ReplaceFirst(format, "YYYY", IntToString(c.year));
    var withMonth := ReplaceFirst(ReplaceFirst(withYear, "MM", PadStart2(IntToString(c.month))), "M", IntToString(c.month));
    ReplaceFirst(ReplaceFirst(withMonth, "DD", PadStart2(IntToString(c.day))), "D", IntToString(c.day))
  }

  /** `formatDate`: without a format, or for a value that is no date, the
      value's text; otherwise the format with its date tokens filled. */
  function FormatDate(value: JsValue, format: Option<string>, env: Env): (r: string)
    ensures (format.None? || format.value == "") ==> r == ToJsString(value, env.numText)
    ensures env.dateOf(value).None? ==> r == ToJsString(value, env.numText)
    ensures format.Some? && format.value != "" && env.dateOf(value).Some?
            ==> r == DateTokens(format.value, env.dateOf(value).value)
  {
    if format.None? || format.value == "" then ToJsString(value, env.numText)
    else
      match env.dateOf(value)
      case None => ToJsString(value, env.numText)
      case Some(c) => DateTokens(format.value, c)
  }

  // ------------------------------------------------------------ word wrap

  /** `Math.floor(maxWidth / (fontSize * 0.6))`: the characters a line
      holds at an average glyph width of 0.6 em. */
  function MaxChars(width: real, fontSize: real): int
    requires fontSize != 0.0
  {
    (width / (fontSize * 0.6)).Floor
  }

  predicate IsBlank(c: char) {
    c == ' '
  }

  /** `text.split(' ')` */
  function Words(text: string): (r: seq<string>)
    ensures |r| >= 1
    ensures forall k, j :: 0 <= k < |r| && 0 <= j < |r[k]| ==> r[k][j] != ' '
  {
    SplitOn(text, IsBlank)
  }

  /** A line that holds no blank: one word. */
  predicate OneWord(line: string) {
    forall j :: 0 <= j < |line| ==> line[j] != ' '
  }

  /** The lines `wrapText` produces from `words` when `line` is the line
      being built: a word joins the line when the line and the word
      together, not counting the joining blank, fit in `maxChars`;
      otherwise the line is finished and the word starts the next one.
      Every line is non-empty, and is either a single word or at most one
      character longer than `maxChars`. */
  function WrapFrom(words: seq<string>, maxChars: int, line: string): (r: seq<string>)
    requires forall k :: 0 <= k < |words| ==> OneWord(words[k])
    requires |line| <= maxChars + 1 || OneWord(line)
    ensures forall k :: 0 <= k < |r| ==> r[k] != ""
    ensures forall k :: 0 <= k < |r| ==> |r[k]| <= maxChars + 1 || OneWord(r[k])
    ensures line != "" ==> r != []
  {
    if words == [] then (if line != "" then [line] else [])
    else if |line + words[0]| <= maxChars then
      WrapFrom(words[1..], maxChars, line + (if line != "" then " " else "") + words[0])
    else
      (if line != "" then [line] else []) + WrapFrom(words[1..], maxChars, words[0])
  }

  /** `wrapText` at a given line capacity. */
  function Wrap(text: string, maxChars: int): (r: seq<string>)
    ensures forall k :: 0 <= k < |r| ==> r[k] != ""
    ensures forall k :: 0 <= k < |r| ==> |r[k]| <= maxChars + 1 || OneWord(r[k])
  {
    WrapFrom(Words(text), maxChars, "")
  }

  /** One word of the loop: it joins the line or starts the next one. */
  lemma WrapStep(words: seq<string>, i: nat, maxChars: int, line: string)
    requires i < |words| && forall k :: 0 <= k < |words| ==> OneWord(words[k])
    requires |line| <= maxChars + 1 || OneWord(line)
    ensures |line + words[i]| <= maxChars ==>
      WrapFrom(words[i..], maxChars, line)
      == WrapFrom(words[i + 1..], maxChars, line + (if line != "" then " " else "") + words[i])
    ensures |line + words[i]| > maxChars ==>
      WrapFrom(words[i..], maxChars, line)
      == (if line != "" then [line] else []) + WrapFrom(words[i + 1..], maxChars, words[i])
  {
    assert words[i..][1..] == words[i + 1..];
  }

  /** `wrapText`: the words are taken in turn, building the current line
      and pushing each finished one. */
  method WrapText(text: string, maxWidth: real, fontSize: real) returns (lines: seq<string>)
    requires fontSize != 0.0
    ensures lines == Wrap(text, MaxChars(maxWidth, fontSize))
  {
    var maxCharsPerLine := MaxChars(maxWidth, fontSize);
    var words := Words(text);
    ghost var all := WrapFrom(words, maxCharsPerLine, "");
    lines := [];
    var currentLine := "";
    var i := 0;
    while i < |words|
      invariant 0 <= i <= |words|
      invariant |currentLine| <= maxCharsPerLine + 1 || OneWord(currentLine)
      invariant lines + WrapFrom(words[i..], maxCharsPerLine, currentLine) == all
    {
      var word := words[i];
      WrapStep(words, i, maxCharsPerLine, currentLine);
      if |currentLine + word| <= maxCharsPerLine {
        currentLine := currentLine + (if currentLine != "" then " " else "") + word;
      } else {
        ghost var rest := WrapFrom(words[i + 1..], maxCharsPerLine, word);
        if currentLine != "" {
          assert lines + ([currentLine] + rest) == all;
          assert lines + [currentLine] + rest == lines + ([currentLine] + rest);
          lines := lines + [currentLine];
        } else {
          assert [] + rest == rest;
        }
        currentLine := word;
        assert lines + rest == all;
      }
      i := i + 1;
    }
    if currentLine != "" {
      lines := lines + [currentLine];
    }
  }

  /** Empty text gives no lines. */
  lemma WrapEmpty(maxChars: int)
    ensures Wrap("", maxChars) == []
  {
    assert Words("") == [""];
    assert WrapFrom([""], maxChars, "") == [];
  }

  /** The blank between two words of one line is not counted, so a line
      can run one character past the capacity: "ab c" fits a capacity of
      three. */
  lemma WrapOvershoots()
    ensures Wrap("ab c", 3) == ["ab c"] && |"ab c"| == 3 + 1
  {
    WordsOfSample();
    assert ["ab", "c"][1..] == ["c"] && ["c"][1..] == [];
    assert "" + "" + "ab" == "ab" && "ab" + " " + "c" == "ab c";
    assert WrapFrom(["ab", "c"], 3, "") == WrapFrom(["c"], 3, "ab");
    assert WrapFrom(["c"], 3, "ab") == WrapFrom([], 3, "ab c");
  }

  lemma WordsOfSample()
    ensures Words("ab c") == ["ab", "c"]
  {
    assert "ab c"[1..] == "b c" && "b c"[1..] == " c" && " c"[1..] == "c" && "c"[1..] == "";
    assert ['c'] + "" == "c";
    assert SplitOn("c", IsBlank) == ["c"];
    assert SplitOn(" c", IsBlank) == ["", "c"];
    assert ['b'] + "" == "b";
    assert SplitOn("b c", IsBlank) == ["b", "c"];
    assert ['a'] + "b" == "ab";
  }

  /** Wrapping loses no text: joining the lines with blanks gives back the
      words joined with blanks, when no word is empty. */
  lemma {:induction false} WrapKeepsWords(words: seq<string>, maxChars: int, line: string)
    requires forall k :: 0 <= k < |words| ==> OneWord(words[k]) && words[k] != ""
    requires |line| <= maxChars + 1 || OneWord(line)
    ensures Join(WrapFrom(words, maxChars, line), " ")
         == if line == "" then Join(words, " ") else Join([line] + words, " ")
    decreases |words|
  {
    if words != [] {
      var w, rest := words[0], words[1..];
      assert words == [w] + rest;
      if |line + w| <= maxChars {
        var next := line + (if line != "" then " " else "") + w;
        WrapKeepsWords(rest, maxChars, next);
        assert WrapFrom(words, maxChars, line) == WrapFrom(rest, maxChars, next);
        if line != "" {
          assert next == line + " " + w;
          JoinGlue(line, w, rest);
        } else {
          assert next == w;
        }
      } else {
        WrapKeepsWords(rest, maxChars, w);
        if line != "" {
          var tail := WrapFrom(rest, maxChars, w);
          assert WrapFrom(words, maxChars, line) == [line] + tail;
          assert tail != [];
          assert Join(tail, " ") == Join(words, " ");
          JoinAfter(line, tail, words);
        } else {
          assert WrapFrom(words, maxChars, line) == WrapFrom(rest, maxChars, w);
        }
      }
    }
  }

  /** Gluing a word onto the line keeps the blank-joined text. */
  lemma JoinGlue(line: string, w: string, rest: seq<string>)
    ensures Join([line + " " + w] + rest, " ") == Join([line] + ([w] + rest), " ")
  {
    JoinCons(line + " " + w, rest);
    JoinCons(line, [w] + rest);
    JoinCons(w, rest);
    if rest != [] {
      assert line + " " + w + " " + Join(rest, " ") == line + " " + (w + " " + Join(rest, " "));
    }
  }

  /** A line put in front of lines that join to `words`. */
  lemma JoinAfter(line: string, tail: seq<string>, words: seq<string>)
    requires tail != [] && words != []
    requires Join(tail, " ") == Join(words, " ")
    ensures Join([line] + tail, " ") == Join([line] + words, " ")
  {
    JoinCons(line, tail);
    JoinCons(line, words);
  }

  /** Joining with one more piece in front. */
  lemma JoinCons(first: string, rest: seq<string>)
    ensures Join([first] + rest, " ") == if rest == [] then first else first + " " + Join(rest, " ")
  {
    assert ([first] + rest)[1..] == rest;
  }

  // ------------------------------------------------------------ text fields

  function Min(a: int, b: int): int {
    if a <= b then a else b
  }

  /** The lines shown: at most `maxLines` of them, the last one shown
      marked with "..." when some were cut. */
  function DisplayLines(lines: seq<string>, maxLines: nat): (r: seq<string>)
    requires maxLines >= 1
    ensures |r| == Min(|lines|, maxLines)
    ensures |lines| <= maxLines ==> r == lines
    ensures |lines| > maxLines ==> r[..maxLines - 1] == lines[..maxLines - 1]
                                   && r[maxLines - 1] == lines[maxLines - 1] + "..."
  {
    if |lines| > maxLines then lines[..maxLines - 1] + [lines[maxLines - 1] + "..."] else lines
  }

  /** The baseline of line `i`: `i` line heights below the field's y. */
  function LineY(y: real, i: nat, lineHeight: real): real {
    y - i as real * lineHeight
  }

  /** Line `i` drawn at the field's x, `i` line heights below its y. */
  function LineOps(lines: seq<string>, x: real, y: real, lineHeight: real, size: real): (r: seq<Op>)
    ensures |r| == |lines|
    ensures forall i :: 0 <= i < |lines| ==> r[i] == DrawText(lines[i], x, LineY(y, i, lineHeight), size)
  {
    if lines == [] then []
    else LineOps(lines[..|lines| - 1], x, y, lineHeight, size)
         + [DrawText(lines[|lines| - 1], x, LineY(y, |lines| - 1, lineHeight), size)]
  }

  /** The effective `maxLines`: zero or absent give one. */
  function MaxLinesOf(field: PdfField): (n: nat)
    ensures n >= 1
  {
    if field.maxLines.Some? && field.maxLines.value != 0 then field.maxLines.value else 1
  }

  /** Whether the field names a text field the template's form has. */
  predicate InForm(field: PdfField, formFields: set<string>) {
    field.pdfField.Some? && field.pdfField.value != "" && field.pdfField.value in formFields
  }

  /** What `fillTextField` does: set the named form field when the form has
      it; otherwise, with coordinates, draw the wrapped and truncated lines;
      otherwise nothing. */
  function TextFieldOps(field: PdfField, value: string, formFields: set<string>, env: Env): (r: seq<Op>)
    ensures InForm(field, formFields) ==> r == [SetFormText(field.pdfField.value, value)]
    ensures !InForm(field, formFields) && (field.x.None? || field.y.None?) ==> r == []
    ensures !InForm(field, formFields) ==> |r| <= MaxLinesOf(field)
    ensures !InForm(field, formFields) ==> forall i :: 0 <= i < |r| ==> r[i].DrawText? && r[i].x == field.x.value
  {
    if InForm(field, formFields) then [SetFormText(field.pdfField.value, value)]
    else if field.x.Some? && field.y.Some? then
      var fontSize := NumOr(field.fontSize, 10.0);
      var lineHeight := NumOr(field.lineHeight, fontSize + 2.0);
      var width := NumOr(field.w, 200.0);
      var lines := Wrap(FormatValue(value, field.format, env), MaxChars(width, fontSize));
      LineOps(DisplayLines(lines, MaxLinesOf(field)), field.x.value, field.y.value, lineHeight, fontSize)
    else []
  }

  /** `fillCheckboxField`: a filled box at the field, only when checked
      and placed. */
  function CheckboxOps(field: PdfField, checked: bool): (r: seq<Op>)
    ensures r != [] <==> checked && field.x.Some? && field.y.Some?
    ensures r != [] ==> r == [FillBox(field.x.value, field.y.value, NumOr(field.box, 12.0), NumOr(field.box, 12.0))]
  {
    if !checked || field.x.None? || field.y.None? then []
    else
      var boxSize := NumOr(field.box, 12.0);
      [FillBox(field.x.value, field.y.value, boxSize, boxSize)]
  }

  /** `fillCheckboxGroupField`: a filled box at the chosen option, nothing
      for a field without options or a value that is not one of them. */
  function GroupOps(field: PdfField, selected: string): (r: seq<Op>)
    ensures r != [] <==> field.options.Some? && selected in field.options.value
    ensures r != [] ==> var o := field.options.value[selected];
      r == [FillBox(o.x, o.y, NumOr(o.box, 12.0), NumOr(o.box, 12.0))]
  {
    if field.options.None? || selected !in field.options.value then []
    else
      var option := field.options.value[selected];
      var boxSize := NumOr(option.box, 12.0);
      [FillBox(option.x, option.y, boxSize, boxSize)]
  }

  /** `fillStampField`: a framed box (90 by 36 by default) with the stamp
      text (default "(서명)") centred in it by its length. */
  function StampOps(field: PdfField): (r: seq<Op>)
    ensures r != [] <==> field.x.Some? && field.y.Some?
    ensures r != [] ==> |r| == 2 && r[0].FrameBox? && r[0].x == field.x.value && r[0].y == field.y.value
                        && r[1].DrawText? && r[1].text == TextOr(field.text, "(서명)")
  {
    if field.x.None? || field.y.None? then []
    else
      var text := TextOr(field.text, "(서명)");
      var fontSize := NumOr(field.fontSize, 10.0);
      var width := NumOr(field.w, 90.0);
      var height := NumOr(field.h, 36.0);
      [FrameBox(field.x.value, field.y.value, width, height),
       DrawText(text, field.x.value + width / 2.0 - (|text| as real * fontSize) / 4.0,
                field.y.value + height / 2.0 - fontSize / 2.0, fontSize)]
  }

  /** `fillField`: the field's kind chooses how the value is shown. */
  function FieldOps(field: PdfField, value: JsValue, formFields: set<string>, env: Env): seq<Op> {
    match field.kind
    case TextKind => TextFieldOps(field, ToJsString(value, env.numText), formFields, env)
    case Checkbox => CheckboxOps(field, Truthy(value))
    case CheckboxGroup => GroupOps(field, ToJsString(value, env.numText))
    case DateKind => TextFieldOps(field, FormatDate(value, field.format, env), formFields, env)
    case Stamp => StampOps(field)
    case OtherKind => []
  }

  // ------------------------------------------------------------ dotted paths

  /** A canonical array index: digits without a leading zero. */
  function IndexKey(key: string): Option<nat> {
    if key != "" && AllDigits(key) && (key == "0" || key[0] != '0') then Some(DigitsValue(key)) else None
  }

  /** `current?.[key]`: nothing from `undefined` and `null`; an object's
      property; a string's or array's `length` or element. */
  function Step(current: JsValue, key: string): JsValue {
    match current
    case Obj(m) => Get(m, key)
    case Arr(items) =>
      if key == "length" then IntNum(|items|)
      else if IndexKey(key).Some? && IndexKey(key).value < |items| then items[IndexKey(key).value]
      else Undefined
    case Str(s) =>
      if key == "length" then IntNum(|s|)
      else if IndexKey(key).Some? && IndexKey(key).value < |s| then Str([s[IndexKey(key).value]])
      else Undefined
    case _ => Undefined
  }

  /** The `reduce` over the keys. */
  function Walk(current: JsValue, keys: seq<string>): JsValue
    decreases |keys|
  {
    if keys == [] then current else Walk(Step(current, keys[0]), keys[1..])
  }

  predicate IsDot(c: char) {
    c == '.'
  }

  /** `getValueByPath` */
  function GetValueByPath(obj: JsValue, path: string): JsValue {
    Walk(obj, SplitOn(path, IsDot))
  }

  /** Nothing is found below `undefined`. */
  lemma {:induction false} WalkFromNothing(keys: seq<string>)
    ensures Walk(Undefined, keys) == Undefined
  {
    if keys != [] {
      WalkFromNothing(keys[1..]);
    }
  }

  /** Walking a path is walking its first part, then the rest. */
  lemma {:induction false} WalkAppend(v: JsValue, a: seq<string>, b: seq<string>)
    ensures Walk(v, a + b) == Walk(Walk(v, a), b)
    decreases |a|
  {
    if a != [] {
      assert (a + b)[1..] == a[1..] + b;
      WalkAppend(Step(v, a[0]), a[1..], b);
    } else {
      assert a + b == b;
    }
  }

  /** A missing key part-way along a path makes the whole path `undefined`. */
  lemma MissingStepUndefined(v: JsValue, keys: seq<string>, i: nat)
    requires i < |keys|
    requires var before := Walk(v, keys[..i]); before.Undefined? || before.Null? || (before.Obj? && keys[i] !in before.props)
    ensures Walk(v, keys) == Undefined
  {
    assert keys == keys[..i] + keys[i..];
    WalkAppend(v, keys[..i], keys[i..]);
    WalkFromNothing(keys[i + 1..]);
  }

  // ------------------------------------------------------------ templates

  datatype TemplateKind = DeregForm | Invoice

  datatype PdfTemplate = PdfTemplate(id: string, name: string, templatePath: string, fieldMapPath: string,
                                     kind: TemplateKind)

  /** `path.join(__dirname, '../../templates', id, file)`, relative to the
      service root. */
  function TemplateFile(templateId: string, file: string): string {
    "templates/" + templateId + "/" + file
  }

  /** `getTemplate`: the deregistration form and the invoice; any other id
      has no template. */
  function GetTemplate(templateId: string): (r: Option<PdfTemplate>)
    ensures r.Some? <==> templateId == "dereg_form" || templateId == "invoice"
    ensures r.Some? ==> r.value.id == templateId
    ensures r.Some? ==> (r.value.kind == DeregForm <==> templateId == "dereg_form")
  {
    if templateId == "dereg_form" then
      Some(PdfTemplate(templateId, "자동차 말소신청서", TemplateFile(templateId, "template.pdf"),
                       TemplateFile(templateId, "fieldMap.json"), DeregForm))
    else if templateId == "invoice" then
      Some(PdfTemplate(templateId, "인보이스", TemplateFile(templateId, "template.pdf"),
                       TemplateFile(templateId, "fieldMap.json"), Invoice))
    else None
  }

  // ------------------------------------------------------------ generation

  /** What `generatePdf`'s field loop does, with `lookup` giving the value
      at a path: every field whose value is not `undefined` or `null` is
      filled, in the listed order. */
  function MapOps(fields: seq<(string, PdfField)>, lookup: string -> JsValue, formFields: set<string>, env: Env)
    : seq<Op>
  {
    if fields == [] then []
    else EntryOps(fields[0], lookup, formFields, env) + MapOps(fields[1..], lookup, formFields, env)
  }

  /** One turn of the field loop: nothing for a missing value, the field's
      operations otherwise. */
  function EntryOps(entry: (string, PdfField), lookup: string -> JsValue, formFields: set<string>, env: Env)
    : seq<Op>
  {
    var value := lookup(entry.0);
    if value.Undefined? || value.Null? then [] else FieldOps(entry.1, value, formFields, env)
  }

  /** The fields' operations come in the fields' order. */
  lemma {:induction false} MapOpsAppend(a: seq<(string, PdfField)>, b: seq<(string, PdfField)>,
                                        lookup: string -> JsValue, formFields: set<string>, env: Env)
    ensures MapOps(a + b, lookup, formFields, env) == MapOps(a, lookup, formFields, env) + MapOps(b, lookup, formFields, env)
    decreases |a|
  {
    if a != [] {
      assert (a + b)[0] == a[0] && (a + b)[1..] == a[1..] + b;
      MapOpsAppend(a[1..], b, lookup, formFields, env);
    } else {
      assert a + b == b;
    }
  }

  lemma TakeOneMore<T>(s: seq<T>, k: nat)
    requires k < |s|
    ensures s[..k + 1] == s[..k] + [s[k]]
  {
  }

  lemma Rejoin<T>(start: seq<T>, done: seq<T>, step: seq<T>, before: seq<T>, after: seq<T>)
    requires before == start + done
    requires after == before + step
    ensures after == start + (done + step)
  {
  }

  /** A field whose value is missing adds nothing; every other value,
      falsy ones such as 0 and "" included, goes to its field. */
  lemma MapOpsOne(path: string, field: PdfField, lookup: string -> JsValue, formFields: set<string>, env: Env)
    ensures var value := lookup(path);
      MapOps([(path, field)], lookup, formFields, env)
        == if value.Undefined? || value.Null? then [] else FieldOps(field, value, formFields, env)
  {
    assert [(path, field)][1..] == [];
  }

  /** The engine: the cache of font files read so far. */
  class PdfEngine {
    var fontCache: map<string, seq<bv8>>

    constructor ()
      ensures fontCache == map[]
    {
      fontCache := map[];
    }

    /** Every cached font is the file's content. */
    predicate CacheAgrees(fonts: map<string, seq<bv8>>)
      reads this
    {
      forall name :: name in fontCache ==> name in fonts && fontCache[name] == fonts[name]
    }

    /** `loadFont`, with the font directory as `fonts`: a cached font is
        returned as cached; a font file that exists is read and cached; a
        missing one gives empty bytes and is not cached. */
    method LoadFont(fontName: string, fonts: map<string, seq<bv8>>) returns (bytes: seq<bv8>)
      modifies this
      ensures fontName in old(fontCache) ==> bytes == old(fontCache)[fontName] && fontCache == old(fontCache)
      ensures fontName !in old(fontCache) && fontName !in fonts ==> bytes == [] && fontCache == old(fontCache)
      ensures fontName !in old(fontCache) && fontName in fonts
              ==> bytes == fonts[fontName] && fontCache == old(fontCache)[fontName := bytes]
      ensures old(CacheAgrees(fonts)) ==> CacheAgrees(fonts)
                                          && bytes == (if fontName in fonts then fonts[fontName] else [])
    {
      if fontName in fontCache {
        return fontCache[fontName];
      }
      if fontName !in fonts {
        return [];
      }
      bytes := fonts[fontName];
      fontCache := fontCache[fontName := bytes];
    }

    /** `fillTextField`: set the form field, or draw the lines one below
        the other. */
    method FillTextField(doc: Document, field: PdfField, value: string, env: Env)
      modifies doc
      ensures doc.ops == old(doc.ops) + TextFieldOps(field, value, doc.formFields, env)
    {
      if InForm(field, doc.formFields) {
        doc.Do(SetFormText(field.pdfField.value, value));
        return;
      }
      if field.x.Some? && field.y.Some? {
        var fontSize := NumOr(field.fontSize, 10.0);
        var lineHeight := NumOr(field.lineHeight, fontSize + 2.0);
        var maxLines := MaxLinesOf(field);
        var width := NumOr(field.w, 200.0);
        var formattedValue := FormatValue(value, field.format, env);
        var lines := WrapText(formattedValue, width, fontSize);
        var displayLines := DisplayLines(lines, maxLines);
        DrawLines(doc, displayLines, field.x.value, field.y.value, lineHeight, fontSize);
      }
    }

    /** The drawing loop of `fillTextField`. */
    method DrawLines(doc: Document, displayLines: seq<string>, x: real, y: real, lineHeight: real, fontSize: real)
      modifies doc
      ensures doc.ops == old(doc.ops) + LineOps(displayLines, x, y, lineHeight, fontSize)
    {
      ghost var drawn := LineOps(displayLines, x, y, lineHeight, fontSize);
      var i := 0;
      while i < |displayLines|
        invariant 0 <= i <= |displayLines|
        invariant doc.ops == old(doc.ops) + drawn[..i]
      {
        var yPos := y - i as real * lineHeight;
        doc.Do(DrawText(displayLines[i], x, yPos, fontSize));
        assert drawn[..i + 1] == drawn[..i] + [drawn[i]];
        i := i + 1;
      }
      assert drawn[..i] == drawn;
    }

    /** `fillField` */
    method FillField(doc: Document, field: PdfField, value: JsValue, env: Env)
      modifies doc
      ensures doc.ops == old(doc.ops) + FieldOps(field, value, doc.formFields, env)
    {
      match field.kind
      case TextKind =>
        FillTextField(doc, field, ToJsString(value, env.numText), env);
      case Checkbox =>
        var ops := CheckboxOps(field, Truthy(value));
        if ops != [] {
          doc.Do(ops[0]);
        }
      case CheckboxGroup =>
        var ops := GroupOps(field, ToJsString(value, env.numText));
        if ops != [] {
          doc.Do(ops[0]);
        }
      case DateKind =>
        FillTextField(doc, field, FormatDate(value, field.format, env), env);
      case Stamp =>
        var ops := StampOps(field);
        if ops != [] {
          doc.Do(ops[0]);
          doc.Do(ops[1]);
        }
      case OtherKind =>
    }

    /** `generatePdf` on a loaded template and field map: an unknown
        template changes nothing; otherwise the field map's font is loaded
        and every field with a value is filled in turn. */
    method GeneratePdf(templateId: string, summary: JsValue, fieldMapAt: string -> FieldMap,
                       fonts: map<string, seq<bv8>>, doc: Document, env: Env) returns (ok: bool)
      requires CacheAgrees(fonts)
      modifies this, doc
      ensures ok <==> GetTemplate(templateId).Some?
      ensures !ok ==> doc.ops == old(doc.ops) && fontCache == old(fontCache)
      ensures ok ==> var fieldMap := fieldMapAt(GetTemplate(templateId).value.fieldMapPath);
        doc.ops == old(doc.ops) + MapOps(fieldMap.fields, path => GetValueByPath(summary, path), doc.formFields, env)
      ensures ok ==> var f := fieldMapAt(GetTemplate(templateId).value.fieldMapPath).font;
        fontCache == if f in old(fontCache) || f !in fonts then old(fontCache) else old(fontCache)[f := fonts[f]]
      ensures CacheAgrees(fonts)
    {
      var template := GetTemplate(templateId);
      if template.None? {
        return false;
      }
      var fieldMap := fieldMapAt(template.value.fieldMapPath);
      var fontBytes := LoadFont(fieldMap.font, fonts);
      FillFields(doc, fieldMap.fields, path => GetValueByPath(summary, path), env);
      return true;
    }

    /** The field loop of `generatePdf`. */
    method FillFields(doc: Document, entries: seq<(string, PdfField)>, lookup: string -> JsValue, env: Env)
      modifies doc
      ensures doc.ops == old(doc.ops) + MapOps(entries, lookup, doc.formFields, env)
    {
      var k := 0;
      while k < |entries|
        invariant 0 <= k <= |entries|
        invariant doc.ops == old(doc.ops) + MapOps(entries[..k], lookup, doc.formFields, env)
      {
        ghost var before := doc.ops;
        FillEntry(doc, entries[k], lookup, env);
        TakeOneMore(entries, k);
        MapOpsAppend(entries[..k], [entries[k]], lookup, doc.formFields, env);
        Rejoin(old(doc.ops), MapOps(entries[..k], lookup, doc.formFields, env),
               MapOps([entries[k]], lookup, doc.formFields, env), before, doc.ops);
        k := k + 1;
      }
      assert entries[..k] == entries;
    }

    /** One turn of the field loop: fill the field when its value is there. */
    method FillEntry(doc: Document, entry: (string, PdfField), lookup: string -> JsValue, env: Env)
      modifies doc
      ensures doc.ops == old(doc.ops) + MapOps([entry], lookup, doc.formFields, env)
    {
      var (path, field) := entry;
      MapOpsOne(path, field, lookup, doc.formFields, env);
      var value := lookup(path);
      if !value.Undefined? && !value.Null? {
        FillField(doc, field, value, env);
      }
    }
  }
}
