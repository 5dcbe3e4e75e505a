/**
 * The string operations of JavaScript that the storefront relies on:
 * `toLowerCase`, `toUpperCase`, `includes` and the blank test `!s.trim()`.
 *
 * Case mapping is modelled for ASCII letters only: every other character,
 * Persian text included, is its own lower and upper case.
 */
module Text {

  function LowerChar(c: char): char {
    if 'A' <= c <= 'Z' then (c as int + 32) as char else c
  }

  function UpperChar(c: char): char {
    if 'a' <= c <= 'z' then (c as int - 32) as char else c
  }

  /** `s.toLowerCase()` */
  function Lower(s: string): string {
    seq(|s|, i requires 0 <= i < |s| => LowerChar(s[i]))
  }

  /** `s.toUpperCase()` */
  function Upper(s: string): string {
    seq(|s|, i requires 0 <= i < |s| => UpperChar(s[i]))
  }

  /** The characters `String.prototype.trim` removes: ECMAScript WhiteSpace and LineTerminator. */
  predicate IsWhitespace(c: char) {
    || c == '\t' || c == '\n' || c == '\U{B}' || c == '\U{C}' || c == '\r' || c == ' '
    || c == '\U{A0}' || c == '\U{1680}' || ('\U{2000}' <= c <= '\U{200A}')
    || c == '\U{2028}' || c == '\U{2029}' || c == '\U{202F}' || c == '\U{205F}'
    || c == '\U{3000}' || c == '\U{FEFF}'
  }

  /** `!s.trim()`: trimming leaves the empty string, i.e. `s` is empty or all whitespace. */
  predicate IsBlank(s: string) {
    forall i :: 0 <= i < |s| ==> IsWhitespace(s[i])
  }

  /** `needle` occurs in `hay` starting at index `i`. */
  ghost predicate OccursAt(needle: string, hay: string, i: int) {
    0 <= i && i + |needle| <= |hay| && hay[i..i + |needle|] == needle
  }

  ghost predicate IsSubstring(needle: string, hay: string) {
    exists i :: OccursAt(needle, hay, i)
  }

  /** `hay.includes(needle)`: a left-to-right scan for an occurrence. */
  function Includes(hay: string, needle: string): (r: bool)
    ensures r <==> IsSubstring(needle, hay)
    decreases |hay|
  {
    if |needle| > |hay| then
      assert forall i :: !OccursAt(needle, hay, i);
      false
    else if hay[..|needle|] == needle then
      assert OccursAt(needle, hay, 0);
      true
    else
      var rest := Includes(hay[1..], needle);
      ShiftOccurrence(needle, hay);
      rest
  }

  /** With no occurrence at 0, `needle` occurs in `hay` iff it occurs in `hay[1..]`. */
  lemma ShiftOccurrence(needle: string, hay: string)
    requires |needle| <= |hay| && hay[..|needle|] != needle
    ensures IsSubstring(needle, hay) <==> IsSubstring(needle, hay[1..])
  {
    if IsSubstring(needle, hay) {
      var i :| OccursAt(needle, hay, i);
      assert i != 0;
      assert hay[1..][i - 1..i - 1 + |needle|] == hay[i..i + |needle|];
      assert OccursAt(needle, hay[1..], i - 1);
    }
    if IsSubstring(needle, hay[1..]) {
      var i :| OccursAt(needle, hay[1..], i);
      assert hay[1..][i..i + |needle|] == hay[i + 1..i + 1 + |needle|];
      assert OccursAt(needle, hay, i + 1);
    }
  }

  /** Upper-casing twice is upper-casing once, so a stored upper-case code is its own key. */
  lemma UpperIdempotent(s: string)
    ensures Upper(Upper(s)) == Upper(s)
  {
  }
}
