/**
 * The binder's error kinds (`errors.go`) and their messages. Each message embeds
 * the offending type name the way Go's `%q` verb writes it (`strconv.Quote`),
 * and the name can be read back from the message.
 */
module Errors {
  import opened Wrappers

  datatype Error =
    | TypeNameNotUnique(name: string)
    | TypeInfoNotPresent(name: string)
    | SuperfluousType(name: string)
    /** An error raised outside this model (reflection, parsing), passed on unchanged. */
    | Foreign(message: string)

  // ---------------------------------------------------------------------------
  // Go's %q

  /** The letter of a one-letter backslash escape, for the runes that have one. */
  function ShortEscape(c: char): Option<char> {
    match c
    case '\U{7}' => Some('a')
    case '\U{8}' => Some('b')
    case '\U{C}' => Some('f')
    case '\n' => Some('n')
    case '\r' => Some('r')
    case '\t' => Some('t')
    case '\U{B}' => Some('v')
    case '\\' => Some('\\')
    case '"' => Some('"')
    case _ => None
  }

  function ShortUnescape(l: char): (r: Option<char>)
    ensures r.Some? ==> ShortEscape(r.value) == Some(l)
  {
    match l
    case 'a' => Some('\U{7}')
    case 'b' => Some('\U{8}')
    case 'f' => Some('\U{C}')
    case 'n' => Some('\n')
    case 'r' => Some('\r')
    case 't' => Some('\t')
    case 'v' => Some('\U{B}')
    case '\\' => Some('\\')
    case '"' => Some('"')
    case _ => None
  }

  function HexDigit(n: nat): (c: char)
    requires n < 16
  {
    if n < 10 then (48 + n) as char else (87 + n) as char
  }

  function HexValue(c: char): (r: Option<nat>)
    ensures r.Some? ==> r.value < 16 && HexDigit(r.value) == c
  {
    if '0' <= c <= '9' then Some(c as nat - 48)
    else if 'a' <= c <= 'f' then Some(c as nat - 87)
    else None
  }

  function Pow16(w: nat): (p: nat)
    ensures p >= 1
  {
    if w == 0 then 1 else 16 * Pow16(w - 1)
  }

  /** `n` as exactly `w` lower-case hexadecimal digits. */
  function Hex(n: nat, w: nat): (s: string)
    requires n < Pow16(w)
    ensures |s| == w
  {
    if w == 0 then [] else Hex(n / 16, w - 1) + [HexDigit(n % 16)]
  }

  function ParseHex(s: string): Option<nat> {
    if s == [] then Some(0)
    else match (ParseHex(s[..|s| - 1]), HexValue(s[|s| - 1]))
      case (Some(hi), Some(lo)) => Some(16 * hi + lo)
      case _ => None
  }

  lemma {:induction false} ParseHexOfHex(n: nat, w: nat)
    requires n < Pow16(w)
    ensures ParseHex(Hex(n, w)) == Some(n)
  {
    if w > 0 {
      ParseHexOfHex(n / 16, w - 1);
      var s := Hex(n, w);
      assert s[..|s| - 1] == Hex(n / 16, w - 1);
      assert HexValue(s[|s| - 1]) == Some(n % 16);
    }
  }

  /** Runes `strconv.Quote` writes as `\u` escapes: the Latin-1 runes that are not printable. */
  predicate NeedsUnicodeEscape(c: char) {
    '\U{80}' <= c <= '\U{A0}' || c == '\U{AD}'
  }

  /** How `strconv.Quote` writes one rune. */
  function EscapeRune(c: char): (s: string)
    ensures |s| >= 1
  {
    if ShortEscape(c).Some? then ['\\', ShortEscape(c).value]
    else if c < ' ' || c == '\U{7F}' then "\\x" + Hex(c as nat, 2)
    else if NeedsUnicodeEscape(c) then "\\u" + Hex(c as nat, 4)
    else [c]
  }

  function Escape(s: string): string {
    if s == [] then [] else EscapeRune(s[0]) + Escape(s[1..])
  }

  /** `%q`: the name in double quotes, escaped. */
  function Quote(s: string): (q: string)
    ensures |q| >= 2 && q[0] == '"' && q[|q| - 1] == '"'
  {
    "\"" + Escape(s) + "\""
  }

  /** Reads back the runes of a quoted body; fails on a stray quote or a malformed escape. */
  function Unescape(s: string): Option<string>
    decreases |s|
  {
    if s == [] then Some([])
    else if s[0] == '"' then None
    else if s[0] != '\\' then
      match Unescape(s[1..])
      case Some(rest) => Some([s[0]] + rest)
      case None => None
    else if |s| < 2 then None
    else if s[1] == 'x' || s[1] == 'u' then
      var w := if s[1] == 'x' then 2 else 4;
      if |s| < 2 + w then None
      else match (ParseHex(s[2..2 + w]), Unescape(s[2 + w..]))
        case (Some(n), Some(rest)) =>
          if n < 0xD800 then Some([n as char] + rest) else None
        case _ => None
    else match (ShortUnescape(s[1]), Unescape(s[2..]))
      case (Some(c), Some(rest)) => Some([c] + rest)
      case _ => None
  }

  function Unquote(q: string): Option<string> {
    if |q| >= 2 && q[0] == '"' && q[|q| - 1] == '"' then Unescape(q[1..|q| - 1]) else None
  }

  /** A rune written as its short escape reads back as that rune. */
  lemma UnescapeShort(c: char, t: string)
    requires ShortEscape(c).Some?
    ensures Unescape(['\\', ShortEscape(c).value] + t) ==
      match Unescape(t)
      case Some(rest) => Some([c] + rest)
      case None => None
  {
    var s := ['\\', ShortEscape(c).value] + t;
    assert s[2..] == t;
  }

  /** A rune written as `\x` or `\u` and `w` hexadecimal digits reads back as that rune. */
  lemma UnescapeHex(c: char, letter: char, w: nat, t: string)
    requires (letter == 'x' && w == 2) || (letter == 'u' && w == 4)
    requires c as nat < Pow16(w) && c as nat < 0xD800
    ensures Unescape(['\\', letter] + Hex(c as nat, w) + t) ==
      match Unescape(t)
      case Some(rest) => Some([c] + rest)
      case None => None
  {
    var s := ['\\', letter] + Hex(c as nat, w) + t;
    ParseHexOfHex(c as nat, w);
    assert s[2..2 + w] == Hex(c as nat, w);
    assert s[2 + w..] == t;
  }

  /** Escaping one rune and then unescaping gives the rune back, ahead of whatever follows. */
  lemma UnescapeRune(c: char, t: string)
    ensures Unescape(EscapeRune(c) + t) ==
      match Unescape(t)
      case Some(rest) => Some([c] + rest)
      case None => None
  {
    if ShortEscape(c).Some? {
      UnescapeShort(c, t);
    } else if c < ' ' || c == '\U{7F}' {
      assert "\\x" + Hex(c as nat, 2) + t == ['\\', 'x'] + Hex(c as nat, 2) + t;
      UnescapeHex(c, 'x', 2, t);
    } else if NeedsUnicodeEscape(c) {
      assert "\\u" + Hex(c as nat, 4) + t == ['\\', 'u'] + Hex(c as nat, 4) + t;
      UnescapeHex(c, 'u', 4, t);
    } else {
      var s := EscapeRune(c) + t;
      assert s[1..] == t;
    }
  }

  lemma {:induction false} UnescapeEscape(s: string)
    ensures Unescape(Escape(s)) == Some(s)
    decreases |s|
  {
    if s != [] {
      UnescapeEscape(s[1..]);
      UnescapeRune(s[0], Escape(s[1..]));
      assert [s[0]] + s[1..] == s;
    }
  }

  /** `%q` loses nothing: the quoted form reads back as the name. */
  lemma UnquoteQuote(s: string)
    ensures Unquote(Quote(s)) == Some(s)
  {
    var q := Quote(s);
    assert q[1..|q| - 1] == Escape(s);
    UnescapeEscape(s);
  }

  // ---------------------------------------------------------------------------
  // Messages

  const NotUniquePrefix := "names for supplied types are not unique; "
  const NotUniqueSuffix := " is ambiguous"
  const NotPresentPrefix := "identity "
  const NotPresentSuffix := " has no associated object from which to derive type information"
  const SuperfluousPrefix := "type with name "
  const SuperfluousSuffix := " was supplied, but is not used in the statement"

  /** `Error()`. */
  function Message(e: Error): (m: string)
    ensures e.TypeNameNotUnique? ==> m == NotUniquePrefix + Quote(e.name) + NotUniqueSuffix
    ensures e.TypeInfoNotPresent? ==> m == NotPresentPrefix + Quote(e.name) + NotPresentSuffix
    ensures e.SuperfluousType? ==> m == SuperfluousPrefix + Quote(e.name) + SuperfluousSuffix
    ensures e.Foreign? ==> m == e.message
  {
    match e
    case TypeNameNotUnique(name) => NotUniquePrefix + Quote(name) + NotUniqueSuffix
    case TypeInfoNotPresent(name) => NotPresentPrefix + Quote(name) + NotPresentSuffix
    case SuperfluousType(name) => SuperfluousPrefix + Quote(name) + SuperfluousSuffix
    case Foreign(message) => message
  }

  /** The quoted part of `m` between `prefix` and `suffix`, read back. */
  function Framed(m: string, prefix: string, suffix: string): Option<string> {
    if |m| >= |prefix| + |suffix| && m[..|prefix|] == prefix && m[|m| - |suffix|..] == suffix
    then Unquote(m[|prefix|..|m| - |suffix|])
    else None
  }

  /** Recovers a binder error from its message. */
  function ParseMessage(m: string): Option<Error> {
    match Framed(m, NotUniquePrefix, NotUniqueSuffix)
    case Some(name) => Some(TypeNameNotUnique(name))
    case None =>
      match Framed(m, NotPresentPrefix, NotPresentSuffix)
      case Some(name) => Some(TypeInfoNotPresent(name))
      case None =>
        match Framed(m, SuperfluousPrefix, SuperfluousSuffix)
        case Some(name) => Some(SuperfluousType(name))
        case None => None
  }

  lemma FramedOf(prefix: string, q: string, suffix: string)
    ensures Framed(prefix + q + suffix, prefix, suffix) == Unquote(q)
  {
    var m := prefix + q + suffix;
    assert m[..|prefix|] == prefix;
    assert m[|m| - |suffix|..] == suffix;
    assert m[|prefix|..|m| - |suffix|] == q;
  }

  /**
   * The message of a binder error names its kind and the exact offending name:
   * both can be read back from it.
   */
  lemma MessageRoundTrip(e: Error)
    requires !e.Foreign?
    ensures ParseMessage(Message(e)) == Some(e)
  {
    var m := Message(e);
    UnquoteQuote(e.name);
    match e
    case TypeNameNotUnique(name) =>
      FramedOf(NotUniquePrefix, Quote(name), NotUniqueSuffix);
    case TypeInfoNotPresent(name) =>
      assert m[0] == 'i';
      assert Framed(m, NotUniquePrefix, NotUniqueSuffix).None? by {
        assert m[..|NotUniquePrefix|][0] != NotUniquePrefix[0];
      }
      FramedOf(NotPresentPrefix, Quote(name), NotPresentSuffix);
    case SuperfluousType(name) =>
      assert m[0] == 't';
      assert Framed(m, NotUniquePrefix, NotUniqueSuffix).None? by {
        assert m[..|NotUniquePrefix|][0] != NotUniquePrefix[0];
      }
      assert Framed(m, NotPresentPrefix, NotPresentSuffix).None? by {
        assert m[..|NotPresentPrefix|][0] != NotPresentPrefix[0];
      }
      FramedOf(SuperfluousPrefix, Quote(name), SuperfluousSuffix);
  }

  /** Different binder errors, even of different kinds with the same name, have different messages. */
  lemma MessageInjective(e1: Error, e2: Error)
    requires !e1.Foreign? && !e2.Foreign?
    requires Message(e1) == Message(e2)
    ensures e1 == e2
  {
    MessageRoundTrip(e1);
    MessageRoundTrip(e2);
  }
}
