// The part of JavaScript's String.prototype.trim that the chat handler relies
// on: `newMessage.trim()` is truthy exactly when the pending text is not blank.
module Text {

  /** ECMAScript WhiteSpace and LineTerminator code points: tab, vertical tab,
      form feed, the byte-order mark, the space separators (category Zs:
      space, no-break space, ogham space mark, U+2000 to U+200A, narrow
      no-break space, medium mathematical space, ideographic space) and the
      four line terminators. */
  const Whitespace: set<char> := {
    '\t', '\n', '\U{B}', '\U{C}', '\r', '\U{FEFF}',
    ' ', '\U{A0}', '\U{1680}',
    '\U{2000}', '\U{2001}', '\U{2002}', '\U{2003}', '\U{2004}', '\U{2005}',
    '\U{2006}', '\U{2007}', '\U{2008}', '\U{2009}', '\U{200A}',
    '\U{202F}', '\U{205F}', '\U{3000}',
    '\U{2028}', '\U{2029}'
  }

  predicate IsWhitespace(c: char) {
    c in Whitespace
  }

  /** Every character of `s` is whitespace (the empty string is blank). */
  predicate IsBlank(s: string) {
    forall i :: 0 <= i < |s| ==> IsWhitespace(s[i])
  }

  /** The first index at or after `i` whose character is not whitespace,
      or `|s|` when there is none. */
  function SkipForward(s: string, i: nat): (j: nat)
    requires i <= |s|
    ensures i <= j <= |s|
    ensures forall k :: i <= k < j ==> IsWhitespace(s[k])
    ensures j < |s| ==> !IsWhitespace(s[j])
    decreases |s| - i
  {
    if i < |s| && IsWhitespace(s[i]) then SkipForward(s, i + 1) else i
  }

  /** The index just past the last character of `s[lo..j]` that is not
      whitespace, or `lo` when there is none. */
  function SkipBackward(s: string, lo: nat, j: nat): (i: nat)
    requires lo <= j <= |s|
    ensures lo <= i <= j
    ensures forall k :: i <= k < j ==> IsWhitespace(s[k])
    ensures i > lo ==> !IsWhitespace(s[i - 1])
    decreases j - lo
  {
    if lo < j && IsWhitespace(s[j - 1]) then SkipBackward(s, lo, j - 1) else j
  }

  /** `s.trim()`: the slice of `s` left after removing the longest blank
      prefix, which ends at `SkipForward(s, 0)`, and the longest blank suffix.
      The result is empty exactly when `s` is blank, and otherwise starts and
      ends with a character that is not whitespace. */
  function Trim(s: string): (r: string)
    ensures var b := SkipForward(s, 0);
      b + |r| <= |s| && r == s[b..b + |r|] && IsBlank(s[..b]) && IsBlank(s[b + |r|..])
    ensures r == [] <==> IsBlank(s)
    ensures r != [] ==> !IsWhitespace(r[0]) && !IsWhitespace(r[|r| - 1])
  {
    var b := SkipForward(s, 0);
    var e := SkipBackward(s, b, |s|);
    s[b..e]
  }
}
