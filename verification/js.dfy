/** JavaScript values as the extraction pipeline handles them: the truthiness
    that drives every `if (!x)` and `x || d`, object property access, spread,
    `String(x)` and `parseInt`. */
module Js {

  datatype Option<+T> = None | Some(value: T)

  /** A JavaScript value. Numbers are exact reals; NaN is its own case
      (Infinity and -0 are not modelled). */
  datatype JsValue =
    | Undefined
    | Null
    | Bool(b: bool)
    | Num(n: real)
    | NaN
    | Str(s: string)
    | Arr(items: seq<JsValue>)
    | Obj(props: map<string, JsValue>)

  /** A plain JavaScript object: property name to value. A missing key reads
      as `undefined`. */
  type Object = map<string, JsValue>

  /** JavaScript truthiness: '', 0, NaN, null, undefined and false are falsy. */
  predicate Truthy(v: JsValue) {
    match v
    case Undefined => false
    case Null => false
    case Bool(b) => b
    case Num(n) => n != 0.0
    case NaN => false
    case Str(s) => s != ""
    case Arr(_) => true
    case Obj(_) => true
  }

  /** Property read `o.k`. */
  function Get(o: Object, k: string): JsValue {
    if k in o then o[k] else Undefined
  }

  /** `a || b` */
  function Or(a: JsValue, b: JsValue): JsValue {
    if Truthy(a) then a else b
  }

  /** The properties `{...v}` contributes to an object literal: those of an
      object, none for `undefined` and `null`. */
  function Spread(v: JsValue): Object {
    match v
    case Obj(m) => m
    case _ => map[]
  }

  /** A value that the TypeScript types admit where a string is declared. */
  predicate StringOrAbsent(v: JsValue) {
    v.Str? || v.Undefined?
  }

  /** A value that the TypeScript types admit where a number is declared. */
  predicate NumberOrAbsent(v: JsValue) {
    v.Num? || v.NaN? || v.Undefined?
  }

  function IntNum(i: int): JsValue {
    Num(i as real)
  }

  // ---------------------------------------------------------------- digits

  predicate IsDigit(c: char) {
    '0' <= c <= '9'
  }

  predicate AllDigits(s: string) {
    forall i :: 0 <= i < |s| ==> IsDigit(s[i])
  }

  function DigitChar(d: nat): char
    requires d < 10
  {
    "0123456789"[d]
  }

  function DigitValue(c: char): nat
    requires IsDigit(c)
  {
    (c as int - '0' as int) as nat
  }

  /** The decimal rendering of a natural number, as `String(n)` gives it. */
  function NatToString(n: nat): (r: string)
    ensures |r| >= 1 && AllDigits(r)
    ensures n < 10 ==> |r| == 1
    ensures 10 <= n < 100 ==> |r| == 2
    ensures 1000 <= n < 10000 ==> |r| == 4
    decreases n
  {
    if n < 10 then [DigitChar(n)] else NatToString(n / 10) + [DigitChar(n % 10)]
  }

  /** `String(i)` for an integer. */
  function IntToString(i: int): (r: string)
    ensures |r| >= 1
  {
    if i < 0 then "-" + NatToString(-i) else NatToString(i)
  }

  /** The value of a string of decimal digits. */
  function DigitsValue(s: string): nat
    requires AllDigits(s)
  {
    if s == [] then 0 else DigitsValue(s[..|s| - 1]) * 10 + DigitValue(s[|s| - 1])
  }

  /** Reading back what NatToString writes gives the number again. */
  lemma {:induction false} NatToStringRoundTrip(n: nat)
    ensures DigitsValue(NatToString(n)) == n
  {
    var r := NatToString(n);
    if n < 10 {
      assert r[..|r| - 1] == [];
    } else {
      NatToStringRoundTrip(n / 10);
      assert r[..|r| - 1] == NatToString(n / 10);
    }
  }

  /** The longest prefix of `s` made of decimal digits. */
  function DigitPrefix(s: string): (r: string)
    ensures AllDigits(r) && |r| <= |s| && r == s[..|r|]
    ensures |r| < |s| ==> !IsDigit(s[|r|])
    ensures AllDigits(s) ==> r == s
  {
    if s == [] || !IsDigit(s[0]) then "" else [s[0]] + DigitPrefix(s[1..])
  }

  /** White space and line terminators: the class `\s`, and what `trim` removes. */
  predicate IsSpace(c: char) {
    c == '\t' || c == '\n' || c == '\U{000B}' || c == '\U{000C}' || c == '\r' || c == ' '
    || c == '\U{00A0}' || c == '\U{1680}' || ('\U{2000}' <= c <= '\U{200A}')
    || c == '\U{2028}' || c == '\U{2029}' || c == '\U{202F}' || c == '\U{205F}'
    || c == '\U{3000}' || c == '\U{FEFF}'
  }

  function TrimStart(s: string): (r: string)
    ensures |r| <= |s|
    ensures r != [] ==> !IsSpace(r[0])
  {
    if s != [] && IsSpace(s[0]) then TrimStart(s[1..]) else s
  }

  /** `parseInt(s, 10)`: leading white space, an optional sign, then the
      longest run of digits; no digits gives NaN (None). */
  function ParseInt(s: string): (r: Option<int>)
    ensures AllDigits(s) && s != [] ==> r == Some(DigitsValue(s))
  {
    var t := TrimStart(s);
    var neg := |t| > 0 && t[0] == '-';
    var rest := if |t| > 0 && (t[0] == '-' || t[0] == '+') then t[1..] else t;
    var d := DigitPrefix(rest);
    var v: int := if d == "" then 0 else DigitsValue(d);
    if d == "" then None
    else if neg then Some(-v)
    else Some(v)
  }

  predicate IsHexDigit(c: char) {
    IsDigit(c) || 'a' <= c <= 'f' || 'A' <= c <= 'F'
  }

  predicate AllHexDigits(s: string) {
    forall i :: 0 <= i < |s| ==> IsHexDigit(s[i])
  }

  function HexDigitValue(c: char): (r: nat)
    requires IsHexDigit(c)
    ensures r < 16
  {
    if IsDigit(c) then DigitValue(c)
    else if 'a' <= c <= 'f' then (c as int - 'a' as int + 10) as nat
    else (c as int - 'A' as int + 10) as nat
  }

  /** The value of a string of hexadecimal digits. */
  function HexValue(s: string): nat
    requires AllHexDigits(s)
  {
    if s == [] then 0 else HexValue(s[..|s| - 1]) * 16 + HexDigitValue(s[|s| - 1])
  }

  /** The longest prefix of hexadecimal digits. */
  function HexPrefix(s: string): (r: string)
    ensures AllHexDigits(r) && |r| <= |s| && r == s[..|r|]
    ensures |r| < |s| ==> !IsHexDigit(s[|r|])
  {
    if s == [] || !IsHexDigit(s[0]) then "" else [s[0]] + HexPrefix(s[1..])
  }

  /** A `0x` or `0X` prefix. */
  predicate HasHexPrefix(t: string) {
    |t| >= 2 && t[0] == '0' && (t[1] == 'x' || t[1] == 'X')
  }

  /** What follows the optional sign. */
  function Unsigned(t: string): string {
    if |t| > 0 && (t[0] == '-' || t[0] == '+') then t[1..] else t
  }

  /** `parseInt(s)` with no radix: after white space and an optional sign, a
      `0x` or `0X` prefix reads the hexadecimal digits that follow (none
      gives NaN); without the prefix it is `parseInt(s, 10)`. */
  function ParseIntAuto(s: string): (r: Option<int>)
    ensures !HasHexPrefix(Unsigned(TrimStart(s))) ==> r == ParseInt(s)
    ensures HasHexPrefix(Unsigned(TrimStart(s))) ==>
      (r.None? <==> HexPrefix(Unsigned(TrimStart(s))[2..]) == "")
  {
    var t := TrimStart(s);
    var rest := Unsigned(t);
    if HasHexPrefix(rest) then
      var h := HexPrefix(rest[2..]);
      if h == "" then None
      else
        var v: int := HexValue(h);
        if |t| > 0 && t[0] == '-' then Some(-v) else Some(v)
    else ParseInt(s)
  }

  /** A hexadecimal literal reads as its value, which decimal reading would
      cut at the `x`. */
  lemma HexLiteralRead(h: string)
    requires h != [] && AllHexDigits(h)
    ensures ParseIntAuto("0x" + h) == Some(HexValue(h))
    ensures ParseInt("0x" + h) == Some(0)
  {
    var s := "0x" + h;
    assert s[0] == '0' && s[1] == 'x' && s[2..] == h;
    assert TrimStart(s) == s;
    assert Unsigned(s) == s;
    HexPrefixWhole(h);
    DecimalStopsAtX(s);
  }

  lemma HexPrefixWhole(h: string)
    requires AllHexDigits(h)
    ensures HexPrefix(h) == h
  {
  }

  /** Decimal reading of `0x…` stops at the `x`. */
  lemma DecimalStopsAtX(s: string)
    requires |s| >= 2 && s[0] == '0' && s[1] == 'x'
    ensures ParseInt(s) == Some(0)
  {
    assert TrimStart(s) == s;
    assert DigitPrefix(s[1..]) == "";
    assert DigitPrefix(s) == "0";
    assert DigitsValue("0") == 0 by {
      assert "0"[..0] == "";
    }
  }

  /** The number JavaScript stores for `parseInt(s, 10)`. */
  function ParseIntValue(s: string): JsValue {
    match ParseInt(s)
    case Some(i) => IntNum(i)
    case None => NaN
  }

  /** From this magnitude on, `String(n)` writes an exponent (`1e+21`). */
  const ExponentFrom: real := 1000000000000000000000.0

  /** `String(n)` of a number: an integer below 10^21 in magnitude in
      decimal, any other number as `numText` writes it. */
  function NumberToString(n: real, numText: real -> string): string {
    if n == n.Floor as real && -ExponentFrom < n < ExponentFrom then IntToString(n.Floor) else numText(n)
  }

  /** `String(v)`. Integral numbers below 10^21 in magnitude print in
      decimal; the text of any other number is what `numText` gives. */
  function ToJsString(v: JsValue, numText: real -> string): string {
    match v
    case Undefined => "undefined"
    case Null => "null"
    case Bool(b) => if b then "true" else "false"
    case Num(n) => NumberToString(n, numText)
    case NaN => "NaN"
    case Str(s) => s
    case Arr(items) => JoinElements(items, numText)
    case Obj(_) => "[object Object]"
  }

  /** `Array.prototype.join(',')`: null and undefined elements print as ''. */
  function JoinElements(items: seq<JsValue>, numText: real -> string): string
    decreases items
  {
    if items == [] then ""
    else
      var head := if items[0].Undefined? || items[0].Null? then "" else ToJsString(items[0], numText);
      if |items| == 1 then head else head + "," + JoinElements(items[1..], numText)
  }
}
