/**
 * The parts of Go's `unicode`, `unicode/utf8` and `strings` packages that both
 * lexers rely on, over Dafny's `char` (a Unicode scalar value, i.e. a Go rune).
 */
module Runes {

  /** Go's zero rune. Both lexers use it as their end-of-input marker. */
  const NUL: char := 0 as char

  /** The rune at position `i` of a rune sequence, or the zero rune past its end. */
  function CharAt(s: string, i: nat): (c: char)
    ensures i < |s| ==> c == s[i]
    ensures i >= |s| ==> c == NUL
  {
    if i < |s| then s[i] else NUL
  }

  /**
   * `unicode.IsSpace`: the Latin-1 white space characters and the characters
   * with the Unicode White_Space property above Latin-1.
   */
  predicate IsSpace(c: char) {
    c == '\t' || c == '\n' || c == '\U{B}' || c == '\U{C}' || c == '\r' || c == ' '
    || c == '\U{85}' || c == '\U{A0}'
    || c == '\U{1680}' || ('\U{2000}' <= c <= '\U{200A}')
    || c == '\U{2028}' || c == '\U{2029}' || c == '\U{202F}' || c == '\U{205F}' || c == '\U{3000}'
  }

  /** `unicode.IsLetter`, restricted to ASCII letters. */
  predicate IsLetter(c: char) {
    ('a' <= c <= 'z') || ('A' <= c <= 'Z')
  }

  /** `unicode.IsDigit`, restricted to the ASCII digits. */
  predicate IsDigit(c: char) {
    '0' <= c <= '9'
  }

  /** The number of bytes UTF-8 uses to encode `c` (what `utf8.DecodeRuneInString` reports). */
  function Width(c: char): (w: nat)
    ensures 1 <= w <= 4
    ensures w == 1 <==> c < '\U{80}'
  {
    if c < '\U{80}' then 1
    else if c < '\U{800}' then 2
    else if c < '\U{10000}' then 3
    else 4
  }

  /** `len(s)` of a Go string holding the runes `s`: its UTF-8 byte length. */
  function ByteLen(s: string): nat {
    if s == [] then 0 else ByteLen(s[..|s| - 1]) + Width(s[|s| - 1])
  }

  /** Appending one rune adds its width to the byte length. */
  lemma ByteLenSnoc(s: string, c: char)
    ensures ByteLen(s + [c]) == ByteLen(s) + Width(c)
  {
    assert (s + [c])[..|s + [c]| - 1] == s;
  }

  /** A prefix one rune longer is longer by the width of that rune. */
  lemma ByteLenStep(s: string, k: nat)
    requires k < |s|
    ensures ByteLen(s[..k + 1]) == ByteLen(s[..k]) + Width(s[k])
  {
    assert s[..k + 1] == s[..k] + [s[k]];
    ByteLenSnoc(s[..k], s[k]);
  }

  /** For ASCII text the byte length is the rune count. */
  lemma {:induction false} ByteLenAscii(s: string)
    requires forall k :: 0 <= k < |s| ==> s[k] < '\U{80}'
    ensures ByteLen(s) == |s|
  {
    if s != [] {
      ByteLenAscii(s[..|s| - 1]);
    }
  }

  /** Every rune takes at least one byte and at most four. */
  lemma {:induction false} ByteLenBounds(s: string)
    ensures |s| <= ByteLen(s) <= 4 * |s|
  {
    if s != [] {
      ByteLenBounds(s[..|s| - 1]);
    }
  }

  /** `strings.Join`: `parts` with `sep` between consecutive parts. */
  function Join(sep: string, parts: seq<string>): string {
    if parts == [] then ""
    else if |parts| == 1 then parts[0]
    else Join(sep, parts[..|parts| - 1]) + sep + parts[|parts| - 1]
  }

  /** Joining one more part adds the separator and that part, or just the part to nothing. */
  lemma JoinSnoc(sep: string, parts: seq<string>, x: string)
    ensures Join(sep, parts + [x]) == if parts == [] then x else Join(sep, parts) + sep + x
  {
    assert (parts + [x])[..|parts|] == parts;
  }

  /** The number of white space runes at the start of `s`. */
  function LeadingSpaces(s: string): (n: nat)
    ensures n <= |s|
    ensures forall k :: 0 <= k < n ==> IsSpace(s[k])
    ensures n < |s| ==> !IsSpace(s[n])
  {
    if s != [] && IsSpace(s[0]) then 1 + LeadingSpaces(s[1..]) else 0
  }

  /** The number of white space runes at the end of `s`. */
  function TrailingSpaces(s: string): (n: nat)
    ensures n <= |s|
    ensures forall k :: |s| - n <= k < |s| ==> IsSpace(s[k])
    ensures n < |s| ==> !IsSpace(s[|s| - n - 1])
  {
    if s != [] && IsSpace(s[|s| - 1]) then 1 + TrailingSpaces(s[..|s| - 1]) else 0
  }

  /**
   * `strings.TrimSpace`: `s` without its leading and trailing white space.
   * The result is the slice of `s` after the leading spaces, only white space
   * is cut at either end, and the result neither starts nor ends with it.
   */
  function TrimSpace(s: string): (r: string)
    ensures LeadingSpaces(s) + |r| <= |s|
    ensures r == s[LeadingSpaces(s)..LeadingSpaces(s) + |r|]
    ensures forall k :: LeadingSpaces(s) + |r| <= k < |s| ==> IsSpace(s[k])
    ensures r == [] || (!IsSpace(r[0]) && !IsSpace(r[|r| - 1]))
  {
    var l := s[LeadingSpaces(s)..];
    l[..|l| - TrailingSpaces(l)]
  }
}
