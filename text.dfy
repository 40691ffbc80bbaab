/**
 * String primitives the client relies on: JavaScript's `String.prototype.trim`
 * (used as a blank test, `!s.trim()`) and `String.prototype.toLowerCase`
 * (used to normalise agent names before a `switch`).
 */
module Text {

  /** ECMAScript WhiteSpace and LineTerminator code points, which `trim` strips. */
  predicate IsJsWhitespace(c: char)
  {
    c == '\t' || c == '\n' || c == '\U{B}' || c == '\U{C}' || c == '\r' || c == ' '
    || c == '\U{A0}' || c == '\U{1680}' || ('\U{2000}' <= c <= '\U{200A}')
    || c == '\U{2028}' || c == '\U{2029}' || c == '\U{202F}' || c == '\U{205F}'
    || c == '\U{3000}' || c == '\U{FEFF}'
  }

  /** Every character is whitespace (the empty string included). */
  predicate IsBlank(s: string)
  {
    forall i :: 0 <= i < |s| ==> IsJsWhitespace(s[i])
  }

  /** Leading whitespace removed: a suffix of `s` that starts with a non-blank character. */
  function TrimStart(s: string): (r: string)
    ensures |r| <= |s| && r == s[|s| - |r|..]
    ensures forall i :: 0 <= i < |s| - |r| ==> IsJsWhitespace(s[i])
    ensures r != [] ==> !IsJsWhitespace(r[0])
  {
    if s != [] && IsJsWhitespace(s[0]) then TrimStart(s[1..]) else s
  }

  /** Trailing whitespace removed: a prefix of `s` that ends with a non-blank character. */
  function TrimEnd(s: string): (r: string)
    ensures |r| <= |s| && r == s[..|r|]
    ensures forall i :: |r| <= i < |s| ==> IsJsWhitespace(s[i])
    ensures r != [] ==> !IsJsWhitespace(r[|r| - 1])
  {
    if s != [] && IsJsWhitespace(s[|s| - 1]) then TrimEnd(s[..|s| - 1]) else s
  }

  /** `s.trim()` */
  function Trim(s: string): string
  {
    TrimEnd(TrimStart(s))
  }

  /** `!s.trim()` holds exactly when the string is nothing but whitespace. */
  lemma TrimEmptyIffBlank(s: string)
    ensures Trim(s) == [] <==> IsBlank(s)
  {
    var t := TrimStart(s);
    if t != [] {
      assert t[0] == s[|s| - |t|];
      assert TrimEnd(t) != [] by {
        assert 0 < |t| && !IsJsWhitespace(t[0]);
      }
    }
  }

  /**
   * `toLowerCase` for one character. Exact on ASCII letters and on the Kelvin
   * sign (U+212A), the one non-ASCII character that lowercases to an ASCII
   * letter without adding a combining mark; every other character is left as
   * it is, which never changes whether a lowercased string equals an ASCII
   * literal.
   */
  function LowerChar(c: char): (r: char)
    ensures !('A' <= r <= 'Z')
  {
    if 'A' <= c <= 'Z' then (c as int + 32) as char
    else if c == '\U{212A}' then 'k'
    else c
  }

  function ToLower(s: string): (r: string)
    ensures |r| == |s|
    ensures forall i :: 0 <= i < |s| ==> r[i] == LowerChar(s[i])
  {
    if s == [] then [] else [LowerChar(s[0])] + ToLower(s[1..])
  }

  /** Lowercasing twice is lowercasing once. */
  lemma ToLowerIdempotent(s: string)
    ensures ToLower(ToLower(s)) == ToLower(s)
  {
    var once := ToLower(s);
    var twice := ToLower(once);
    assert forall i :: 0 <= i < |s| ==> twice[i] == LowerChar(LowerChar(s[i])) == once[i];
  }
}
