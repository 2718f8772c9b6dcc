/**
 * JavaScript strings and the few string and regular-expression operations the
 * bot applies to them: `String.prototype.trim`, the character classes `\s`,
 * `\w`, `\W`, `\d`, and case-insensitive matching of ASCII literals under the
 * `i` flag (without the `u` flag).
 *
 * A JavaScript string is a sequence of UTF-16 code units, and `.length`
 * counts code units, so a character outside the Basic Multilingual Plane
 * (an emoji, say) counts as two.
 */
module JsText {

  newtype CodeUnit = x: int | 0 <= x < 0x1_0000

  type JsString = seq<CodeUnit>

  // ---------------------------------------------------------------------------
  // Literals
  // ---------------------------------------------------------------------------

  /** A literal made only of Basic Multilingual Plane characters: one code unit each. */
  function Units(s: string): (r: JsString)
    requires forall i :: 0 <= i < |s| ==> s[i] as int < 0x1_0000
    ensures |r| == |s|
    ensures forall i :: 0 <= i < |s| ==> r[i] as int == s[i] as int
  {
    seq(|s|, i requires 0 <= i < |s| => s[i] as int as CodeUnit)
  }

  /** The UTF-16 encoding of one Unicode scalar value: one code unit, or a surrogate pair. */
  function EncodeChar(c: char): (r: seq<CodeUnit>)
    ensures (c as int < 0x1_0000) == (|r| == 1)
    ensures |r| == 1 || |r| == 2
    ensures |r| == 1 ==> r[0] as int == c as int
    ensures |r| == 2 ==> 0xD800 <= r[0] < 0xDC00 <= r[1] < 0xE000
    ensures |r| == 2 ==> (r[0] as int - 0xD800) * 0x400 + (r[1] as int - 0xDC00) + 0x1_0000 == c as int
  {
    var v := c as int;
    if v < 0x1_0000 then [v as CodeUnit]
    else
      var w := v - 0x1_0000;
      [(0xD800 + w / 0x400) as CodeUnit, (0xDC00 + w % 0x400) as CodeUnit]
  }

  /** A source-code string literal as the JavaScript engine stores it. */
  function Utf16(s: string): (r: JsString)
    ensures |r| >= |s|
  {
    if s == [] then [] else EncodeChar(s[0]) + Utf16(s[1..])
  }

  /** A literal without characters beyond the Basic Multilingual Plane takes one code unit per character. */
  lemma {:induction false} Utf16OfBmp(s: string)
    requires forall i :: 0 <= i < |s| ==> s[i] as int < 0x1_0000
    ensures Utf16(s) == Units(s)
    decreases |s|
  {
    if s != [] {
      var tail := s[1..];
      assert forall i :: 0 <= i < |tail| ==> tail[i] == s[i + 1];
      Utf16OfBmp(tail);
      var u := Units(s);
      assert u == [u[0]] + u[1..];
      assert u[1..] == Units(tail);
    }
  }

  /** Encoding a literal written in two pieces gives the two encodings, one after the other. */
  lemma {:induction false} Utf16Append(a: string, b: string)
    ensures Utf16(a + b) == Utf16(a) + Utf16(b)
    decreases |a|
  {
    if a != [] {
      assert (a + b)[1..] == a[1..] + b;
      Utf16Append(a[1..], b);
    } else {
      assert a + b == b;
    }
  }

  // ---------------------------------------------------------------------------
  // Character classes
  // ---------------------------------------------------------------------------

  /**
   * `\s`, and the code units `trim` removes: the WhiteSpace and
   * LineTerminator productions of ECMAScript.
   */
  predicate IsSpace(c: CodeUnit) {
    (0x09 <= c <= 0x0D) || c == 0x20 || c == 0xA0 || c == 0x1680
    || (0x2000 <= c <= 0x200A) || c == 0x2028 || c == 0x2029
    || c == 0x202F || c == 0x205F || c == 0x3000 || c == 0xFEFF
  }

  /** `\d`: the ASCII digits only. */
  predicate IsDigit(c: CodeUnit) {
    0x30 <= c <= 0x39
  }

  predicate IsAsciiUpper(c: CodeUnit) {
    0x41 <= c <= 0x5A
  }

  predicate IsAsciiLetter(c: CodeUnit) {
    IsAsciiUpper(c) || 0x61 <= c <= 0x7A
  }

  /** `\w`: `[A-Za-z0-9_]`; every other code unit, non-ASCII ones included, is `\W`. */
  predicate IsWordChar(c: CodeUnit) {
    IsAsciiLetter(c) || IsDigit(c) || c == 0x5F
  }

  /** ASCII lower-casing of one code unit; every other code unit is left alone. */
  function LowerAscii(c: CodeUnit): (r: CodeUnit)
    ensures !IsAsciiUpper(r)
    ensures IsAsciiLetter(c) <==> IsAsciiLetter(r)
    ensures IsAsciiUpper(c) ==> r as int == c as int + 0x20
    ensures !IsAsciiUpper(c) ==> r == c
    ensures IsSpace(r) <==> IsSpace(c)
  {
    if IsAsciiUpper(c) then c + 0x20 else c
  }

  /**
   * ASCII lower-casing of a whole string: the string with no ASCII capital
   * that equals `s` when case is ignored.
   */
  function LowerAsciiString(s: JsString): (r: JsString)
    ensures |r| == |s| && EqualsIgnoreCase(r, s)
    ensures forall i :: 0 <= i < |r| ==> !IsAsciiUpper(r[i])
  {
    seq(|s|, i requires 0 <= i < |s| => LowerAscii(s[i]))
  }

  /** Only one string has no ASCII capital and equals `s` ignoring case: its lower-casing. */
  lemma LowerAsciiStringUnique(s: JsString, t: JsString)
    requires |t| == |s| && EqualsIgnoreCase(t, s)
    requires forall i :: 0 <= i < |t| ==> !IsAsciiUpper(t[i])
    ensures t == LowerAsciiString(s)
  {
    var r := LowerAsciiString(s);
    forall i | 0 <= i < |t| ensures t[i] == r[i] {
      assert LowerAscii(t[i]) == LowerAscii(s[i]);
      assert LowerAscii(r[i]) == LowerAscii(s[i]);
    }
  }

  predicate AllSpace(s: JsString) {
    forall i :: 0 <= i < |s| ==> IsSpace(s[i])
  }

  // ---------------------------------------------------------------------------
  // String.prototype.trim
  // ---------------------------------------------------------------------------

  /** The first index at or after `i` whose code unit is not white space, or `|s|`. */
  function SkipLeading(s: JsString, i: nat): (n: nat)
    requires i <= |s|
    ensures i <= n <= |s|
    ensures forall k :: i <= k < n ==> IsSpace(s[k])
    ensures n < |s| ==> !IsSpace(s[n])
    decreases |s| - i
  {
    if i < |s| && IsSpace(s[i]) then SkipLeading(s, i + 1) else i
  }

  /** `hi` moved left over the white space that ends `s[lo..hi]`, never past `lo`. */
  function SkipTrailing(s: JsString, lo: nat, hi: nat): (n: nat)
    requires lo <= hi <= |s|
    ensures lo <= n <= hi
    ensures forall k :: n <= k < hi ==> IsSpace(s[k])
    ensures lo < n ==> !IsSpace(s[n - 1])
    decreases hi - lo
  {
    if lo < hi && IsSpace(s[hi - 1]) then SkipTrailing(s, lo, hi - 1) else hi
  }

  /** Where the text kept by `trim` starts. */
  function TrimStartIndex(s: JsString): (a: nat)
    ensures a <= |s|
  {
    SkipLeading(s, 0)
  }

  /** Where the text kept by `trim` ends. */
  function TrimEndIndex(s: JsString): (b: nat)
    ensures TrimStartIndex(s) <= b <= |s|
  {
    SkipTrailing(s, TrimStartIndex(s), |s|)
  }

  /**
   * `s.trim()`: the slice of `s` between its leading and its trailing white
   * space; it neither starts nor ends with white space, and is empty exactly
   * when `s` is all white space.
   */
  function Trim(s: JsString): (r: JsString)
    ensures |r| <= |s|
    ensures r == [] <==> AllSpace(s)
    ensures r != [] ==> !IsSpace(r[0]) && !IsSpace(r[|r| - 1])
    ensures forall k :: 0 <= k < TrimStartIndex(s) ==> IsSpace(s[k])
    ensures forall k :: TrimEndIndex(s) <= k < |s| ==> IsSpace(s[k])
    ensures r == s[TrimStartIndex(s)..TrimEndIndex(s)]
  {
    var a, b := TrimStartIndex(s), TrimEndIndex(s);
    assert a < b ==> !IsSpace(s[a]) && !IsSpace(s[b - 1]);
    assert a == b ==> AllSpace(s);
    s[a..b]
  }

  // ---------------------------------------------------------------------------
  // Case-insensitive matching of ASCII literals (regular expressions with `i`)
  // ---------------------------------------------------------------------------

  /** `p` occurs in `t` at offset `i`, ASCII letters compared without regard to case. */
  predicate MatchAt(t: JsString, p: JsString, i: int) {
    0 <= i && i + |p| <= |t|
    && forall j :: 0 <= j < |p| ==> LowerAscii(t[i + j]) == LowerAscii(p[j])
  }

  /** The unanchored alternative `/p/i`. */
  predicate ContainsIgnoreCase(t: JsString, p: JsString) {
    exists i :: 0 <= i <= |t| - |p| && MatchAt(t, p, i)
  }

  /** The alternative `/^p/i`. */
  predicate StartsWithIgnoreCase(t: JsString, p: JsString) {
    MatchAt(t, p, 0)
  }

  /** The alternative `/p$/i` (no `m` flag, so `$` is the end of the input). */
  predicate EndsWithIgnoreCase(t: JsString, p: JsString) {
    MatchAt(t, p, |t| - |p|)
  }

  /** Whole-string equality without regard to ASCII case. */
  predicate EqualsIgnoreCase(t: JsString, p: JsString) {
    |t| == |p| && MatchAt(t, p, 0)
  }
}
