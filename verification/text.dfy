/** String operations the pipeline leans on (`trim`, `replace`, `split`,
    `padStart`, `toLowerCase`), character classes of its regular
    expressions, and the leftmost-first search every non-global `match`
    performs. */
module Text {
  import opened Js

  /** A precomposed Hangul syllable: the class `[가-힣]`. */
  predicate IsHangul(c: char) {
    '가' <= c <= '힣'
  }

  predicate IsAsciiUpper(c: char) {
    'A' <= c <= 'Z'
  }

  predicate IsAsciiLower(c: char) {
    'a' <= c <= 'z'
  }

  predicate IsAsciiLetter(c: char) {
    IsAsciiUpper(c) || IsAsciiLower(c)
  }

  /** The class `\w`. */
  predicate IsWordChar(c: char) {
    IsAsciiLetter(c) || IsDigit(c) || c == '_'
  }

  /** Characters that `.` does not match. */
  predicate IsLineTerminator(c: char) {
    c == '\n' || c == '\r' || c == '\U{2028}' || c == '\U{2029}'
  }

  predicate AllHangul(s: string) {
    forall i :: 0 <= i < |s| ==> IsHangul(s[i])
  }

  predicate HasHangul(s: string) {
    exists i :: 0 <= i < |s| && IsHangul(s[i])
  }

  /** How far a greedy `[class]{0,max}` reaches from `k`. */
  function ClassRun(s: string, k: nat, max: nat, cls: char -> bool): (n: nat)
    requires k <= |s|
    ensures n <= max && k + n <= |s|
    ensures forall m :: k <= m < k + n ==> cls(s[m])
    ensures n < max && k + n < |s| ==> !cls(s[k + n])
    decreases max
  {
    if max == 0 || k == |s| || !cls(s[k]) then 0 else 1 + ClassRun(s, k + 1, max - 1, cls)
  }

  // ------------------------------------------------------------ filtering

  /** `s.replace(/[class]/g, '')`: every character for which `drop` holds is
      removed, the others keep their order. */
  function RemoveWhere(s: string, drop: char -> bool): (r: string)
    ensures |r| <= |s|
    decreases |s|
  {
    if s == [] then []
    else (if drop(s[0]) then [] else [s[0]]) + RemoveWhere(s[1..], drop)
  }

  /** Nothing that `drop` selects is left. */
  lemma {:induction false} RemoveWhereDrops(s: string, drop: char -> bool)
    ensures forall i :: 0 <= i < |RemoveWhere(s, drop)| ==> !drop(RemoveWhere(s, drop)[i])
    decreases |s|
  {
    if s != [] {
      var rest := RemoveWhere(s[1..], drop);
      RemoveWhereDrops(s[1..], drop);
      if !drop(s[0]) {
        var r := [s[0]] + rest;
        assert RemoveWhere(s, drop) == r;
        assert forall i :: 1 <= i < |r| ==> r[i] == rest[i - 1];
      }
    }
  }

  /** A first character that is kept stays first. */
  lemma RemoveWhereHead(s: string, drop: char -> bool)
    requires s != [] && !drop(s[0])
    ensures RemoveWhere(s, drop) != [] && RemoveWhere(s, drop)[0] == s[0]
  {
    assert RemoveWhere(s, drop) == [s[0]] + RemoveWhere(s[1..], drop);
  }

  /** A text with nothing to drop is returned as it is. */
  lemma {:induction false} RemoveWhereKeeps(s: string, drop: char -> bool)
    requires forall i :: 0 <= i < |s| ==> !drop(s[i])
    ensures RemoveWhere(s, drop) == s
    decreases |s|
  {
    if s != [] {
      RemoveWhereKeeps(s[1..], drop);
      assert [s[0]] + s[1..] == s;
    }
  }

  /** Removing characters distributes over concatenation: what is kept keeps
      its order. */
  lemma {:induction false} RemoveWhereAppend(a: string, b: string, drop: char -> bool)
    ensures RemoveWhere(a + b, drop) == RemoveWhere(a, drop) + RemoveWhere(b, drop)
    decreases |a|
  {
    if a == [] {
      assert a + b == b;
    } else {
      assert (a + b)[0] == a[0];
      assert (a + b)[1..] == a[1..] + b;
      RemoveWhereAppend(a[1..], b, drop);
    }
  }

  /** Removing first what a later removal would drop anyway changes nothing. */
  lemma {:induction false} RemoveWhereSubsumed(s: string, p: char -> bool, q: char -> bool)
    requires forall i :: 0 <= i < |s| && p(s[i]) ==> q(s[i])
    ensures RemoveWhere(RemoveWhere(s, p), q) == RemoveWhere(s, q)
    decreases |s|
  {
    if s != [] {
      var rest := RemoveWhere(s[1..], p);
      RemoveWhereSubsumed(s[1..], p, q);
      assert RemoveWhere(s, q) == (if q(s[0]) then [] else [s[0]]) + RemoveWhere(s[1..], q);
      if p(s[0]) {
        assert RemoveWhere(s, p) == rest;
      } else {
        assert RemoveWhere(s, p) == [s[0]] + rest;
        assert ([s[0]] + rest)[1..] == rest;
        assert RemoveWhere([s[0]] + rest, q) == (if q(s[0]) then [] else [s[0]]) + RemoveWhere(rest, q);
      }
    }
  }

  /** `s.replace(/\s/g, '')` */
  function StripSpaces(s: string): string {
    RemoveWhere(s, IsSpace)
  }

  /** `s.replace(/,/g, '')` */
  function RemoveCommas(s: string): string {
    RemoveWhere(s, c => c == ',')
  }

  // ------------------------------------------------------------ trimming

  function TrimEnd(s: string): (r: string)
    ensures |r| <= |s|
    ensures r != [] ==> r[0] == s[0] && !IsSpace(r[|r| - 1])
    decreases |s|
  {
    if s != [] && IsSpace(s[|s| - 1]) then TrimEnd(s[..|s| - 1]) else s
  }

  /** `s.trim()`: the text between the leading and the trailing white space. */
  function Trim(s: string): (r: string)
    ensures |r| <= |s|
    ensures r != [] ==> !IsSpace(r[0]) && !IsSpace(r[|r| - 1])
  {
    TrimEnd(TrimStart(s))
  }

  /** `trimStart` drops a prefix. */
  lemma {:induction false} TrimStartSlice(s: string)
    ensures |TrimStart(s)| <= |s| && TrimStart(s) == s[|s| - |TrimStart(s)|..]
    decreases |s|
  {
    if s != [] && IsSpace(s[0]) {
      TrimStartSlice(s[1..]);
      assert s[1..][|s| - 1 - |TrimStart(s[1..])|..] == s[|s| - |TrimStart(s)|..];
    }
  }

  /** `trimEnd` drops a suffix. */
  lemma {:induction false} TrimEndSlice(s: string)
    ensures TrimEnd(s) == s[..|TrimEnd(s)|]
    decreases |s|
  {
    if s != [] && IsSpace(s[|s| - 1]) {
      TrimEndSlice(s[..|s| - 1]);
    }
  }

  /** `trim` keeps a contiguous part of the text. */
  lemma TrimSlice(s: string)
    ensures exists i, j :: 0 <= i <= j <= |s| && Trim(s) == s[i..j]
  {
    var t := TrimStart(s);
    TrimStartSlice(s);
    TrimEndSlice(t);
    var i := |s| - |t|;
    assert Trim(s) == s[i..i + |TrimEnd(t)|];
  }

  /** A text with nothing to trim is returned unchanged, so `trim` is idempotent. */
  lemma TrimUnchanged(s: string)
    requires s != [] ==> !IsSpace(s[0]) && !IsSpace(s[|s| - 1])
    ensures Trim(s) == s
  {
  }

  // ------------------------------------------------------------ case

  function LowerChar(c: char): char {
    if IsAsciiUpper(c) then (c as int + 32) as char else c
  }

  function UpperChar(c: char): char {
    if IsAsciiLower(c) then (c as int - 32) as char else c
  }

  /** `s.toLowerCase()`, on ASCII letters. */
  function ToLower(s: string): (r: string)
    ensures |r| == |s| && forall i :: 0 <= i < |s| ==> r[i] == LowerChar(s[i])
  {
    seq(|s|, i requires 0 <= i < |s| => LowerChar(s[i]))
  }

  /** `s.toUpperCase()`, on ASCII letters. */
  function ToUpper(s: string): (r: string)
    ensures |r| == |s| && forall i :: 0 <= i < |s| ==> r[i] == UpperChar(s[i])
  {
    seq(|s|, i requires 0 <= i < |s| => UpperChar(s[i]))
  }

  // ------------------------------------------------------------ search

  /** The leftmost position in [i, n] where `at` succeeds, with what it
      produced there: the way a non-global `exec` tries each start in turn. */
  function FindFrom<T>(at: nat -> Option<T>, i: nat, n: nat): (r: Option<(nat, T)>)
    ensures r.Some? ==> i <= r.value.0 <= n && at(r.value.0) == Some(r.value.1)
    ensures r.Some? ==> forall j :: i <= j < r.value.0 ==> at(j).None?
    ensures r.None? ==> forall j :: i <= j <= n ==> at(j).None?
    decreases n + 1 - i
  {
    if i > n then None
    else match at(i)
      case Some(v) => Some((i, v))
      case None => FindFrom(at, i + 1, n)
  }

  /** What a non-global `exec` returns: the outcome at the leftmost start
      position in [0, |s|] where the expression matches. */
  function Exec<T>(s: string, at: nat -> Option<T>): (r: Option<T>)
    ensures r.None? <==> forall i :: 0 <= i <= |s| ==> at(i).None?
    ensures r.Some? ==> exists i :: 0 <= i <= |s| && at(i) == r && forall j :: 0 <= j < i ==> at(j).None?
  {
    match FindFrom(at, 0, |s|)
    case Some((_, v)) => Some(v)
    case None => None
  }

  predicate OccursAt(s: string, p: string, i: nat) {
    i + |p| <= |s| && s[i..i + |p|] == p
  }

  /** `s.indexOf(p)`, None for -1. */
  function IndexOf(s: string, p: string): (r: Option<nat>)
    ensures r.Some? ==> OccursAt(s, p, r.value) && forall j :: 0 <= j < r.value ==> !OccursAt(s, p, j)
    ensures r.None? ==> forall j :: 0 <= j <= |s| ==> !OccursAt(s, p, j)
  {
    var at := (j: nat) => if OccursAt(s, p, j) then Some(()) else None;
    assert forall j: nat :: at(j).None? <==> !OccursAt(s, p, j);
    match FindFrom(at, 0, |s|)
    case Some((j, _)) => Some(j)
    case None => None
  }

  /** `s.includes(p)` */
  predicate Contains(s: string, p: string) {
    IndexOf(s, p).Some?
  }

  predicate StartsWith(s: string, p: string) {
    OccursAt(s, p, 0)
  }

  /** `s.replace(p, rep)` with a string pattern: only the first occurrence. */
  function ReplaceFirst(s: string, p: string, rep: string): (r: string)
    ensures IndexOf(s, p).None? ==> r == s
    ensures IndexOf(s, p).Some? ==>
      var i := IndexOf(s, p).value;
      r == s[..i] + rep + s[i + |p|..]
  {
    match IndexOf(s, p)
    case None => s
    case Some(i) => s[..i] + rep + s[i + |p|..]
  }

  // ------------------------------------------------------------ split / join

  /** `s.split(/[class]/)`: the pieces between separators, one more than
      there are separators, none of them holding a separator. */
  function SplitOn(s: string, isSep: char -> bool): (r: seq<string>)
    ensures |r| >= 1
    ensures forall k, j :: 0 <= k < |r| && 0 <= j < |r[k]| ==> !isSep(r[k][j])
    decreases |s|
  {
    if s == [] then [""]
    else
      var rest := SplitOn(s[1..], isSep);
      if isSep(s[0]) then [""] + rest else [[s[0]] + rest[0]] + rest[1..]
  }

  /** `parts.join(sep)` */
  function Join(parts: seq<string>, sep: string): string {
    if parts == [] then ""
    else if |parts| == 1 then parts[0]
    else parts[0] + sep + Join(parts[1..], sep)
  }

  /** Splitting at a character and joining with it gives back the text. */
  lemma {:induction false} SplitJoin(s: string, sep: char)
    ensures Join(SplitOn(s, c => c == sep), [sep]) == s
    decreases |s|
  {
    if s != [] {
      var rest := SplitOn(s[1..], c => c == sep);
      SplitJoin(s[1..], sep);
      if s[0] == sep {
        assert SplitOn(s, c => c == sep) == [""] + rest;
        assert ([""] + rest)[1..] == rest;
      } else {
        var r := [[s[0]] + rest[0]] + rest[1..];
        assert SplitOn(s, c => c == sep) == r;
        if |rest| == 1 {
          assert Join(rest, [sep]) == rest[0];
        } else {
          assert r[1..] == rest[1..];
          assert Join(rest, [sep]) == rest[0] + [sep] + Join(rest[1..], [sep]);
        }
      }
    }
  }

  // ------------------------------------------------------------ numbers

  /** `String(x).padStart(2, '0')` */
  function PadStart2(s: string): (r: string)
    ensures |s| >= 2 ==> r == s
    ensures |s| < 2 ==> |r| == 2 && r[2 - |s|..] == s && forall i :: 0 <= i < 2 - |s| ==> r[i] == '0'
  {
    if |s| >= 2 then s else if |s| == 1 then "0" + s else "00"
  }

  /** The first `n` characters: `s.slice(0, n)` and `s.substring(0, n)`. */
  function Prefix(s: string, n: nat): (r: string)
    ensures |r| == if n < |s| then n else |s|
    ensures r == s[..|r|]
  {
    if n < |s| then s[..n] else s
  }
}
