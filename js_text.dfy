/**
  The JavaScript string operations the pipeline relies on, written over Dafny
  strings (sequences of Unicode scalar values).
*/
module JsText {

  /** ECMAScript WhiteSpace and LineTerminator code points: what `trim()` removes. */
  predicate IsJsWhitespace(c: char) {
    c == '\t' || c == '\n' || c == '\U{000B}' || c == '\U{000C}' || c == '\r' || c == ' '
    || c == '\U{00A0}' || c == '\U{1680}' || ('\U{2000}' <= c <= '\U{200A}')
    || c == '\U{2028}' || c == '\U{2029}' || c == '\U{202F}' || c == '\U{205F}'
    || c == '\U{3000}' || c == '\U{FEFF}'
  }

  /** The characters at which the regular-expression `.` stops. */
  predicate IsLineTerminator(c: char) {
    c == '\n' || c == '\r' || c == '\U{2028}' || c == '\U{2029}'
  }

  /** `s.indexOf(c, from)`: the first index at or after `from` holding `c`,
      or -1. */
  function IndexOfFrom<T(==)>(s: seq<T>, c: T, from: nat): (r: int)
    ensures r == -1 ==> forall k :: from <= k < |s| ==> s[k] != c
    ensures r != -1 ==> from <= r < |s| && s[r] == c && forall k :: from <= k < r ==> s[k] != c
    decreases |s| - from
  {
    if from >= |s| then -1
    else if s[from] == c then from
    else IndexOfFrom(s, c, from + 1)
  }

  predicate IsBlank(s: string) {
    forall k :: 0 <= k < |s| ==> IsJsWhitespace(s[k])
  }

  function TrimStart(s: string): (r: string)
    ensures |r| <= |s| && r == s[|s| - |r|..]
    ensures forall k :: 0 <= k < |s| - |r| ==> IsJsWhitespace(s[k])
    ensures r != [] ==> !IsJsWhitespace(r[0])
  {
    if s != [] && IsJsWhitespace(s[0]) then TrimStart(s[1..]) else s
  }

  function TrimEnd(s: string): (r: string)
    ensures |r| <= |s| && r == s[..|r|]
    ensures forall k :: |r| <= k < |s| ==> IsJsWhitespace(s[k])
    ensures r != [] ==> !IsJsWhitespace(r[|r| - 1])
  {
    if s != [] && IsJsWhitespace(s[|s| - 1]) then TrimEnd(s[..|s| - 1]) else s
  }

  /** `s.trim()` */
  function Trim(s: string): (r: string)
    ensures r != [] ==> !IsJsWhitespace(r[0]) && !IsJsWhitespace(r[|r| - 1])
    ensures r == "" <==> IsBlank(s)
    ensures exists i, j :: 0 <= i <= j <= |s| && r == s[i..j] && IsBlank(s[..i]) && IsBlank(s[j..])
  {
    var t := TrimStart(s);
    var r := TrimEnd(t);
    TrimmedSlice(s, t, r);
    r
  }

  /** A suffix of `s` after leading whitespace, cut before trailing
      whitespace, is a slice between two blank parts, empty exactly when
      `s` is blank. */
  lemma TrimmedSlice(s: string, t: string, r: string)
    requires |t| <= |s| && t == s[|s| - |t|..]
    requires forall k :: 0 <= k < |s| - |t| ==> IsJsWhitespace(s[k])
    requires |r| <= |t| && r == t[..|r|]
    requires forall k :: |r| <= k < |t| ==> IsJsWhitespace(t[k])
    requires r != [] ==> !IsJsWhitespace(r[0])
    ensures r == "" <==> IsBlank(s)
    ensures exists i, j :: 0 <= i <= j <= |s| && r == s[i..j] && IsBlank(s[..i]) && IsBlank(s[j..])
  {
    var i := |s| - |t|;
    var j := i + |r|;
    assert r == s[i..j];
    assert IsBlank(s[..i]);
    assert IsBlank(s[j..]) by {
      forall k | 0 <= k < |s[j..]| ensures IsJsWhitespace(s[j..][k]) {
        assert s[j..][k] == t[|r| + k];
      }
    }
  }

  /** `String.prototype.toLowerCase` on one code point, for Basic Latin,
      Latin-1 Supplement and Latin Extended-A (other code points are kept). */
  function LowerOf(c: char): string {
    if 'A' <= c <= 'Z' then [(c as int + 32) as char]
    else if '\U{00C0}' <= c <= '\U{00DE}' && c != '\U{00D7}' then [(c as int + 32) as char]
    else if c == '\U{0130}' then "i\U{0307}"
    else if ('\U{0100}' <= c <= '\U{012F}' || '\U{0132}' <= c <= '\U{0137}' || '\U{014A}' <= c <= '\U{0177}')
            && c as int % 2 == 0 then [(c as int + 1) as char]
    else if ('\U{0139}' <= c <= '\U{0148}' || '\U{0179}' <= c <= '\U{017E}') && c as int % 2 == 1
      then [(c as int + 1) as char]
    else if c == '\U{0178}' then "\U{00FF}"
    else [c]
  }

  /** `String.prototype.toUpperCase` on one code point, same blocks as LowerOf. */
  function UpperOf(c: char): string {
    if 'a' <= c <= 'z' then [(c as int - 32) as char]
    else if '\U{00E0}' <= c <= '\U{00FE}' && c != '\U{00F7}' then [(c as int - 32) as char]
    else if c == '\U{00DF}' then "SS"
    else if c == '\U{00FF}' then "\U{0178}"
    else if c == '\U{00B5}' then "\U{039C}"
    else if c == '\U{0131}' then "I"
    else if c == '\U{017F}' then "S"
    else if c == '\U{0149}' then "\U{02BC}N"
    else if ('\U{0101}' <= c <= '\U{012F}' || '\U{0133}' <= c <= '\U{0137}' || '\U{014B}' <= c <= '\U{0177}')
            && c as int % 2 == 1 then [(c as int - 1) as char]
    else if ('\U{013A}' <= c <= '\U{0148}' || '\U{017A}' <= c <= '\U{017E}') && c as int % 2 == 0
      then [(c as int - 1) as char]
    else [c]
  }

  /** `s.toLowerCase()` */
  function Lower(s: string): string {
    if s == [] then [] else LowerOf(s[0]) + Lower(s[1..])
  }

  /** Every code point `LowerOf` produces is its own lower case. */
  lemma LowerOfFixed(c: char)
    ensures forall i :: 0 <= i < |LowerOf(c)| ==> LowerOf(LowerOf(c)[i]) == [LowerOf(c)[i]]
  {
  }

  lemma {:induction false} LowerAppend(a: string, b: string)
    ensures Lower(a + b) == Lower(a) + Lower(b)
  {
    if a != [] {
      assert (a + b)[1..] == a[1..] + b;
      LowerAppend(a[1..], b);
    } else {
      assert a + b == b;
    }
  }

  /** Lower-casing is empty only on the empty string, and lower-casing twice
      is lower-casing once. */
  lemma {:induction false} LowerIdempotent(s: string)
    ensures Lower(s) == "" <==> s == ""
    ensures Lower(Lower(s)) == Lower(s)
  {
    if s != [] {
      LowerIdempotent(s[1..]);
      LowerOfFixed(s[0]);
      var l := LowerOf(s[0]);
      LowerFixed(l);
      LowerAppend(l, Lower(s[1..]));
    }
  }

  lemma {:induction false} LowerFixed(s: string)
    requires forall i :: 0 <= i < |s| ==> LowerOf(s[i]) == [s[i]]
    ensures Lower(s) == s
  {
    if s != [] {
      LowerFixed(s[1..]);
    }
  }

  /** `s.charAt(0).toLowerCase() === s.charAt(0)`: true for lower-case letters
      and for everything that is not a letter (digits, spaces, punctuation). */
  predicate StartsLowercase(s: string) {
    s == [] || LowerOf(s[0]) == [s[0]]
  }

  /** `s.charAt(0).toUpperCase() + s.slice(1)` */
  function Capitalise(s: string): string {
    if s == [] then [] else UpperOf(s[0]) + s[1..]
  }

  predicate StartsWith(s: string, prefix: string) {
    |prefix| <= |s| && s[..|prefix|] == prefix
  }

  predicate EndsWith(s: string, suffix: string) {
    |suffix| <= |s| && s[|s| - |suffix|..] == suffix
  }

  /** `s.includes(sub)` */
  predicate Contains(s: string, sub: string) {
    StartsWith(s, sub) || (s != [] && Contains(s[1..], sub))
  }

  /** `parts.join(sep)` */
  function Join(parts: seq<string>, sep: string): string {
    if |parts| == 0 then ""
    else if |parts| == 1 then parts[0]
    else parts[0] + sep + Join(parts[1..], sep)
  }

  /** Decimal rendering of an integer, as JavaScript's `String(n)`. */
  function IntToString(n: int): string
    decreases if n < 0 then 1 - n else n
  {
    if n < 0 then "-" + IntToString(-n)
    else if n < 10 then [('0' as int + n) as char]
    else IntToString(n / 10) + [('0' as int + n % 10) as char]
  }

  /** A UTF-16 code unit: what JavaScript's `length`, indexing and
      `charCodeAt` count. */
  newtype CodeUnit = x: int | 0 <= x < 0x1_0000

  predicate IsHighSurrogate(u: CodeUnit) {
    0xD800 <= u <= 0xDBFF
  }

  predicate IsLowSurrogate(u: CodeUnit) {
    0xDC00 <= u <= 0xDFFF
  }

  /** The UTF-16 encoding of one Unicode scalar value. */
  function EncodeChar(c: char): (r: seq<CodeUnit>)
    ensures 1 <= |r| <= 2
    ensures |r| == 1 ==> !IsHighSurrogate(r[0])
    ensures |r| == 2 ==> IsHighSurrogate(r[0]) && IsLowSurrogate(r[1])
  {
    if c as int < 0x1_0000 then [c as int as CodeUnit]
    else
      var v := c as int - 0x1_0000;
      [(0xD800 + v / 0x400) as CodeUnit, (0xDC00 + v % 0x400) as CodeUnit]
  }

  /** A JavaScript string value built from Unicode text. */
  function Utf16(s: string): seq<CodeUnit> {
    if s == [] then [] else EncodeChar(s[0]) + Utf16(s[1..])
  }

  /** A high surrogate at `i` is followed by a low surrogate. */
  predicate PairedAt(u: seq<CodeUnit>, i: nat)
    requires i < |u|
  {
    IsHighSurrogate(u[i]) ==> i + 1 < |u| && IsLowSurrogate(u[i + 1])
  }

  /** Every high surrogate is followed by a low surrogate. */
  predicate WellFormedUtf16(u: seq<CodeUnit>) {
    forall i :: 0 <= i < |u| ==> PairedAt(u, i)
  }

  lemma {:induction false} Utf16WellFormed(s: string)
    ensures WellFormedUtf16(Utf16(s))
  {
    if s != [] {
      Utf16WellFormed(s[1..]);
      var e := EncodeChar(s[0]);
      var t := Utf16(s[1..]);
      var u := e + t;
      forall i | 0 <= i < |u| ensures PairedAt(u, i) {
        if i >= |e| {
          assert PairedAt(t, i - |e|);
          assert u[i] == t[i - |e|];
          if i + 1 < |u| { assert u[i + 1] == t[i + 1 - |e|]; }
        }
      }
    }
  }
}
