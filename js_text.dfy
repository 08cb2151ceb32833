/** The part of JavaScript string semantics the notebook relies on:
    `String.prototype.trim` and the truthiness of the trimmed result. */
module JsText {

  /** The ECMAScript WhiteSpace and LineTerminator code points, the set that
      `trim` strips from both ends of a string, as inclusive ranges: tab to
      carriage return (tab, line feed, vertical tab, form feed, carriage
      return), space, no-break space, the other space separators of Unicode
      category Zs, line and paragraph separator, and the byte order mark. */
  const WhitespaceRanges: seq<(char, char)> := [
    ('\t', '\r'), (' ', ' '), ('\U{00A0}', '\U{00A0}'), ('\U{1680}', '\U{1680}'),
    ('\U{2000}', '\U{200A}'), ('\U{2028}', '\U{2029}'), ('\U{202F}', '\U{202F}'),
    ('\U{205F}', '\U{205F}'), ('\U{3000}', '\U{3000}'), ('\U{FEFF}', '\U{FEFF}')
  ]

  /** `c` lies in one of the inclusive ranges `rs`. */
  predicate InRanges(c: char, rs: seq<(char, char)>) {
    rs != [] && ((rs[0].0 <= c <= rs[0].1) || InRanges(c, rs[1..]))
  }

  predicate IsJsWhitespace(c: char) {
    InRanges(c, WhitespaceRanges)
  }

  /** A character outside each of the ranges is in none of them. */
  lemma {:induction false} OutsideAllRanges(c: char, rs: seq<(char, char)>)
    requires forall j :: 0 <= j < |rs| ==> !(rs[j].0 <= c <= rs[j].1)
    ensures !InRanges(c, rs)
  {
    if rs != [] {
      OutsideAllRanges(c, rs[1..]);
    }
  }

  /** The position of the first non-whitespace character of `s` at or after
      `i`, or `|s|` when there is none. */
  function SkipLeading(s: string, i: nat): (a: nat)
    requires i <= |s|
    ensures i <= a <= |s|
    ensures forall k :: i <= k < a ==> IsJsWhitespace(s[k])
    ensures a == |s| || !IsJsWhitespace(s[a])
    decreases |s| - i
  {
    if i < |s| && IsJsWhitespace(s[i]) then SkipLeading(s, i + 1) else i
  }

  /** One past the last non-whitespace character of `s[a..j]`, or `a` when
      there is none. */
  function SkipTrailing(s: string, a: nat, j: nat): (b: nat)
    requires a <= j <= |s|
    ensures a <= b <= j
    ensures forall k :: b <= k < j ==> IsJsWhitespace(s[k])
    ensures b == a || !IsJsWhitespace(s[b - 1])
  {
    if a < j && IsJsWhitespace(s[j - 1]) then SkipTrailing(s, a, j - 1) else j
  }

  /** `r` is the slice of `s` starting at `a`, and everything of `s` before
      and after that slice is whitespace. */
  ghost predicate CutFrom(s: string, a: int, r: string) {
    && 0 <= a <= a + |r| <= |s|
    && r == s[a..a + |r|]
    && (forall i :: 0 <= i < a ==> IsJsWhitespace(s[i]))
    && (forall i :: a + |r| <= i < |s| ==> IsJsWhitespace(s[i]))
  }

  /** `s.trim()`: a slice of `s` that neither starts nor ends with
      whitespace (`TrimIsCut` shows only whitespace is cut off). */
  function Trim(s: string): (r: string)
    ensures |r| <= |s|
    ensures r == [] || (!IsJsWhitespace(r[0]) && !IsJsWhitespace(r[|r| - 1]))
  {
    var a := SkipLeading(s, 0);
    s[a..SkipTrailing(s, a, |s|)]
  }

  /** `Trim` cuts only whitespace off either end of `s`. */
  lemma TrimIsCut(s: string)
    ensures CutFrom(s, SkipLeading(s, 0), Trim(s))
  {
  }

  /** A string is blank when `s.trim()` is the empty, falsy string. */
  predicate IsBlank(s: string) {
    Trim(s) == []
  }

  /** Blank strings are exactly the strings made of whitespace only. */
  lemma BlankIffAllWhitespace(s: string)
    ensures IsBlank(s) <==> forall i :: 0 <= i < |s| ==> IsJsWhitespace(s[i])
  {
  }

  /** The empty input and an input of spaces are blank. */
  lemma BlankExamples()
    ensures IsBlank("") && IsBlank("   ")
  {
  }

  /** A word padded with spaces is not blank. */
  lemma PaddedWordIsNotBlank()
    ensures !IsBlank(" Go ")
  {
    OutsideAllRanges('G', WhitespaceRanges);
    BlankIffAllWhitespace(" Go ");
  }
}
