/**
 * The part of JavaScript's `String.prototype.trim` the view relies on:
 * the code tests `!s.trim()`, i.e. "nothing but whitespace is left".
 * Whitespace is the union of the WhiteSpace and LineTerminator productions
 * of ECMA-262 (all of them lie in the Basic Multilingual Plane, so UTF-16
 * code units and Unicode scalar values agree on them).
 */
module JsString {

  /** The characters `trim` strips from both ends. */
  predicate IsWhitespace(c: char) {
    var n := c as int;
    // TAB, LF, VT, FF, CR, SPACE
    n == 0x09 || n == 0x0A || n == 0x0B || n == 0x0C || n == 0x0D || n == 0x20
    // NO-BREAK SPACE, OGHAM SPACE MARK, EN QUAD .. HAIR SPACE
    || n == 0xA0 || n == 0x1680 || (0x2000 <= n <= 0x200A)
    // LINE SEPARATOR, PARAGRAPH SEPARATOR, NARROW NO-BREAK SPACE
    || n == 0x2028 || n == 0x2029 || n == 0x202F
    // MEDIUM MATHEMATICAL SPACE, IDEOGRAPHIC SPACE, ZERO WIDTH NO-BREAK SPACE
    || n == 0x205F || n == 0x3000 || n == 0xFEFF
  }

  /** A string that is falsy once trimmed: empty or whitespace only. */
  predicate IsBlank(s: string) {
    forall i :: 0 <= i < |s| ==> IsWhitespace(s[i])
  }

  /** The length of the whitespace run at the front of `s`. */
  function LeadingSpace(s: string): (k: nat)
    ensures k <= |s|
    ensures forall i :: 0 <= i < k ==> IsWhitespace(s[i])
    ensures k < |s| ==> !IsWhitespace(s[k])
  {
    if |s| > 0 && IsWhitespace(s[0]) then 1 + LeadingSpace(s[1..]) else 0
  }

  /** The length of the whitespace run at the back of `s`. */
  function TrailingSpace(s: string): (k: nat)
    ensures k <= |s|
    ensures forall i :: |s| - k <= i < |s| ==> IsWhitespace(s[i])
    ensures k < |s| ==> !IsWhitespace(s[|s| - 1 - k])
  {
    if |s| > 0 && IsWhitespace(s[|s| - 1]) then 1 + TrailingSpace(s[..|s| - 1]) else 0
  }

  /**
   * `s.trim()`: the result is empty exactly when `s` is blank, and otherwise
   * starts and ends with a character that is not whitespace.
   */
  function Trim(s: string): (t: string)
    ensures |t| <= |s|
    ensures t == [] <==> IsBlank(s)
    ensures t != [] ==> !IsWhitespace(t[0]) && !IsWhitespace(t[|t| - 1])
  {
    var rest := s[LeadingSpace(s)..];
    var t := rest[..|rest| - TrailingSpace(rest)];
    // an empty result means the trailing run covers `rest`, which then has
    // no non-space first character, so the leading run covers all of `s`
    assert t == [] ==> rest == [];
    t
  }

  /** Trimming twice is trimming once. */
  lemma TrimIdempotent(s: string)
    ensures Trim(Trim(s)) == Trim(s)
  {
  }

  /** Trimming keeps the inner text: whatever is removed is whitespace, at either end. */
  lemma TrimRemovesOnlyWhitespace(s: string)
    ensures exists i {:trigger s[i..]} :: 0 <= i <= |s| - |Trim(s)| && s[i..i + |Trim(s)|] == Trim(s)
              && IsBlank(s[..i]) && IsBlank(s[i + |Trim(s)|..])
  {
    var k := LeadingSpace(s);
    var rest := s[k..];
    var j := TrailingSpace(rest);
    var t := Trim(s);
    assert t == rest[..|rest| - j];
    assert s[k..k + |t|] == t;
    assert IsBlank(s[..k]);
    assert forall i :: k + |t| <= i < |s| ==> s[i] == rest[i - k];
    assert IsBlank(s[k + |t|..]);
    assert s[k..] == rest;
  }
}
