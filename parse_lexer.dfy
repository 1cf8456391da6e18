/**
 * The older generation's lexer (`parse/lexer.go`). Unlike the current one it
 * works on runes (offsets count runes), counts lines from zero, has no column,
 * turns each run of white space into one SEPARATOR token, lets identifiers
 * contain `-`, and ends strings at a quote followed by a delimiter.
 *
 * As in `InternalLexer`, a pure specification (`Scan`) states what one call of
 * `NextToken` produces, and the class `Lexer` is proved against it.
 */
module ParseLexer {
  import opened Runes
  import opened ParseToken

  // ---------------------------------------------------------------------------
  // Rune classes

  /** `isLetter`: ASCII letters and the underscore. */
  predicate IsLetterOrUnderscore(c: char) {
    IsLetter(c) || c == '_'
  }

  /** `isSingleQuote`: rune 39. */
  predicate IsSingleQuote(c: char) {
    c == 39 as char
  }

  /** The apostrophe is the single quote, and the double quote is not. */
  lemma SingleQuoteExample()
    ensures IsSingleQuote('\'') && !IsSingleQuote('"')
  {
  }

  predicate IsIdentPart(c: char) {
    IsLetterOrUnderscore(c) || IsDigit(c) || c == '-'
  }

  /** The runes after a quote that make `readString` treat the quote as closing. */
  predicate IsCloser(c: char) {
    c == ' ' || c == '\n' || c == NUL || c == ';' || c == ',' || c == ')'
  }

  // ---------------------------------------------------------------------------
  // Specification of the cursor

  function Min(a: nat, b: nat): nat {
    if a <= b then a else b
  }

  /** The number of newlines in `s`. */
  function Newlines(s: string): nat {
    multiset(s)['\n']
  }

  /**
   * `position()` with the cursor on rune `i`: the rune offset, and the zero-based
   * line counter after rune `i` was read.
   */
  function PositionAt(input: string, i: nat): (p: Position)
    ensures p.offset == i && p.column == 0
  {
    Position(i, Newlines(input[..Min(i + 1, |input|)]), 0)
  }

  /** A rune that is not a newline is on the line numbered by the newlines before it. */
  lemma LineOfRune(input: string, i: nat)
    requires i < |input| && input[i] != '\n'
    ensures PositionAt(input, i).line == Newlines(input[..i])
  {
    assert input[..i + 1] == input[..i] + [input[i]];
  }

  // ---------------------------------------------------------------------------
  // Specification of the scanning loops

  /** Where repeated `skipWhitespace` stops. */
  function SkipEnd(input: string, i: nat): (j: nat)
    ensures i <= j && (j == i || j <= |input|)
    ensures forall k :: i <= k < j ==> IsSpace(input[k])
    ensures !IsSpace(CharAt(input, j))
    decreases |input| - i
  {
    if IsSpace(CharAt(input, i)) then SkipEnd(input, i + 1) else i
  }

  /** Where `readIdentifier` stops. */
  function IdentEnd(input: string, i: nat): (e: nat)
    ensures i <= e && (e == i || e <= |input|)
    ensures forall k :: i <= k < e ==> IsIdentPart(input[k])
    ensures !IsIdentPart(CharAt(input, e))
    decreases |input| - i
  {
    if IsIdentPart(CharAt(input, i)) then IdentEnd(input, i + 1) else i
  }

  /** Where the loop of `readNumber` stops: before a non-number rune, or before `..`. */
  function NumberEnd(input: string, i: nat): (e: nat)
    ensures i <= e && (e == i || e <= |input|)
    ensures forall k :: i <= k < e ==> IsDigit(input[k]) || input[k] == '.'
    ensures var c := CharAt(input, e);
      !(IsDigit(c) || c == '.') || (c == '.' && CharAt(input, e + 1) == '.')
    decreases |input| - i
  {
    var c := CharAt(input, i);
    if !(IsDigit(c) || c == '.') then i
    else if c == '.' && CharAt(input, i + 1) == '.' then i
    else NumberEnd(input, i + 1)
  }

  /**
   * `readString(r)` after the opening quote, from rune `k`: the end of the
   * gathered literal, and where the cursor is left. The literal ends with the
   * first quote followed by a delimiter, or just before a zero rune, which is
   * consumed but not gathered.
   */
  function StringEnd(input: string, k: nat, r: char): (e: (nat, nat))
    requires k <= |input|
    ensures k <= e.0 <= |input| && e.0 <= e.1 <= e.0 + 1
    decreases |input| - k
  {
    var c := CharAt(input, k);
    if c == NUL then (k, k + 1)
    else if c == r && IsCloser(CharAt(input, k + 1)) then (k + 1, k + 1)
    else StringEnd(input, k + 1, r)
  }

  /**
   * The literal `readString` gathers from rune `k` ends with the first quote
   * followed by a delimiter, which it includes, and the cursor stays after that
   * quote; failing that, it ends just before a zero rune, which the cursor steps
   * past. No rune before the end is zero or a closing quote.
   */
  lemma {:induction false} StringEndShape(input: string, k: nat, r: char)
    requires k <= |input|
    ensures var e := StringEnd(input, k, r);
      && (forall m :: k <= m < e.0 - 1 ==> input[m] != NUL && !(input[m] == r && IsCloser(CharAt(input, m + 1))))
      && (|| (e.1 == e.0 && k < e.0 && input[e.0 - 1] == r && IsCloser(CharAt(input, e.0)))
          || (e.1 == e.0 + 1 && CharAt(input, e.0) == NUL
              && (k < e.0 ==> input[e.0 - 1] != NUL && !(input[e.0 - 1] == r && IsCloser(CharAt(input, e.0))))))
    decreases |input| - k
  {
    var c := CharAt(input, k);
    if c != NUL && !(c == r && IsCloser(CharAt(input, k + 1))) {
      StringEndShape(input, k + 1, r);
    }
  }

  /** One unfolding of `NumberEnd`. */
  lemma NumberEndAt(input: string, k: nat)
    ensures var c := CharAt(input, k);
      NumberEnd(input, k) ==
        if !(IsDigit(c) || c == '.') || (c == '.' && CharAt(input, k + 1) == '.') then k
        else NumberEnd(input, k + 1)
  {
  }

  /** A slice one rune longer is the slice followed by that rune. */
  lemma SliceExtend(s: string, a: nat, b: nat)
    requires a <= b < |s|
    ensures s[a..b + 1] == s[a..b] + [s[b]]
  {
  }

  /** Where the `readString` loop stops: at a zero rune, or after a quote followed by a delimiter. */
  lemma StringEndStop(input: string, k: nat, r: char)
    requires k <= |input| && r != NUL
    ensures CharAt(input, k) == NUL ==> StringEnd(input, k, r) == (k, k + 1)
    ensures CharAt(input, k) == r && IsCloser(CharAt(input, k + 1)) ==> StringEnd(input, k, r) == (k + 1, k + 1)
  {
  }

  /** One step of the `readString` loop over a rune that neither is zero nor closes the string. */
  lemma StringEndStep(input: string, k: nat, r: char)
    requires k < |input| && input[k] != NUL && !(input[k] == r && IsCloser(CharAt(input, k + 1)))
    ensures StringEnd(input, k, r) == StringEnd(input, k + 1, r)
  {
  }

  /**
   * The token for a rune that starts no other token: the rune itself. (As
   * written, the source takes the rune after it; see `UnknownTokenAsWritten`.)
   */
  function UnknownToken(input: string, i: nat, pos: Position): Token {
    Token(Unknown, [CharAt(input, i)], pos)
  }

  /** The fallback branch of `readToken` as written: it moves on first, then takes the rune now under the cursor. */
  function UnknownTokenAsWritten(input: string, i: nat, pos: Position): Token {
    Token(Unknown, [CharAt(input, i + 1)], pos)
  }

  /** `readToken` with the cursor on rune `i`, which is neither white space nor a single-rune token. */
  function ReadTokenAt(input: string, i: nat, pos: Position): (Token, nat) {
    var c := CharAt(input, i);
    if c == NUL then (Token(Eof, "", pos), i)
    else if IsDigit(c) then
      var e := NumberEnd(input, i + 1);
      (Token(Int, input[i..e], pos), e)
    else if IsLetterOrUnderscore(c) then
      var e := IdentEnd(input, i);
      (Token(Ident, input[i..e], pos), e)
    else if IsSingleQuote(c) then
      var (e, next) := StringEnd(input, i + 1, c);
      (Token(String, input[i..e], pos), next)
    else (UnknownToken(input, i, pos), i + 1)
  }

  /** What one call of `NextToken` produces with the cursor on rune `i`, and where it leaves the cursor. */
  function Scan(input: string, i: nat): (r: (Token, nat))
    ensures r.0.pos == PositionAt(input, i)
    ensures r.0.kind == Eof <==> CharAt(input, i) == NUL
    ensures r.0.kind == Eof ==> r.1 == i
    ensures r.0.kind != Eof ==> i < r.1 <= |input| + 1
  {
    var pos := PositionAt(input, i);
    var j := SkipEnd(input, i);
    if j != i then (SeparatorToken(pos), j)
    else
      var (rt, isRune) := MaybeRuneToken(CharAt(input, i), pos);
      if isRune then (rt, i + 1)
      else ReadTokenAt(input, i, pos)
  }

  // ---------------------------------------------------------------------------
  // The lexer object

  class Lexer {
    /** The statement, trimmed, as runes. */
    const input: string
    var ch: char
    var offset: nat
    var readOffset: nat
    var line: nat

    /** The line counter agrees with the runes read so far. */
    ghost predicate ReadConsistent()
      reads this
    {
      line == Newlines(input[..Min(readOffset, |input|)])
    }

    ghost predicate Valid()
      reads this
    {
      && ReadConsistent()
      && readOffset == offset + 1
      && offset <= |input| + 1
      && ch == CharAt(input, offset)
    }

    /** `NewLexer`: trims the input and primes the cursor on its first rune. */
    constructor (source: string)
      ensures Valid()
      ensures input == TrimSpace(source) && offset == 0
    {
      input := TrimSpace(source);
      ch := NUL;
      offset, readOffset, line := 0, 0, 0;
      new;
      NextChar();
    }

    /** `nextChar`: moves to the rune at `readOffset`, or the zero rune past the end. */
    method NextChar()
      requires ReadConsistent()
      modifies this
      ensures ReadConsistent()
      ensures offset == old(readOffset) && readOffset == offset + 1
      ensures ch == CharAt(input, offset)
    {
      if readOffset >= |input| {
        ch := NUL;
      } else {
        assert input[..readOffset + 1] == input[..readOffset] + [input[readOffset]];
        ch := input[readOffset];
        if ch == '\n' {
          line := line + 1;
        }
      }
      offset := readOffset;
      readOffset := readOffset + 1;
    }

    /** `peekN`: the rune `n` places after the one under the cursor. */
    function PeekN(n: nat): (c: char)
      reads this
      requires Valid()
      ensures c == CharAt(input, offset + 1 + n)
    {
      if readOffset + n >= |input| then NUL else input[readOffset + n]
    }

    /** `peek`. */
    function Peek(): (c: char)
      reads this
      requires Valid()
      ensures c == CharAt(input, offset + 1)
    {
      PeekN(0)
    }

    /** `position`. */
    function Position(): (p: ParseToken.Position)
      reads this
      requires Valid()
      ensures p == PositionAt(input, offset)
    {
      ParseToken.Position(offset, line, 0)
    }

    /** `skipWhitespace`. */
    method SkipWhitespace() returns (skipped: bool)
      requires Valid()
      modifies this
      ensures Valid()
      ensures skipped == IsSpace(old(ch))
      ensures offset == if skipped then old(offset) + 1 else old(offset)
    {
      if !IsSpace(ch) {
        return false;
      }
      NextChar();
      return true;
    }

    /** `NextToken`: one SEPARATOR for a run of white space, else a rune token, else `readToken`. */
    method NextToken() returns (tok: Token)
      requires Valid()
      modifies this
      ensures Valid()
      ensures (tok, offset) == Scan(input, old(offset))
    {
      var pos := Position();

      var skipped := false;
      while true
        invariant Valid()
        invariant old(offset) <= offset
        invariant SkipEnd(input, offset) == SkipEnd(input, old(offset))
        invariant skipped <==> offset != old(offset)
        decreases |input| + 1 - offset
      {
        var more := SkipWhitespace();
        if !more {
          break;
        }
        skipped := true;
      }
      if skipped {
        return SeparatorToken(pos);
      }

      var (rt, isRune) := MaybeRuneToken(ch, pos);
      if isRune {
        NextChar();
        return rt;
      }

      tok := ReadToken(pos);
    }

    /** `readToken`: end of input, numbers, identifiers, strings, and anything else as UNKNOWN. */
    method ReadToken(pos: ParseToken.Position) returns (tok: Token)
      requires Valid() && pos == PositionAt(input, offset)
      modifies this
      ensures Valid()
      ensures (tok, offset) == ReadTokenAt(input, old(offset), pos)
    {
      tok := Token(Eof, "", pos);

      if ch == NUL {
        return tok;
      } else if IsDigit(ch) {
        var lit := ReadNumber();
        return tok.(kind := Int, literal := lit);
      } else if IsLetterOrUnderscore(ch) {
        var lit := ReadIdentifier();
        return tok.(kind := Ident, literal := lit);
      } else if IsSingleQuote(ch) {
        var lit := ReadString(ch);
        return tok.(kind := String, literal := lit);
      }

      var lit := [ch];
      NextChar();
      tok := tok.(kind := Unknown, literal := lit);
    }

    /** `readIdentifier`: letters, digits, `_` and `-`. */
    method ReadIdentifier() returns (lit: string)
      requires Valid() && offset <= |input|
      modifies this
      ensures Valid()
      ensures offset == IdentEnd(input, old(offset))
      ensures lit == input[old(offset)..offset]
    {
      var start := offset;
      while IsIdentPart(ch)
        invariant Valid() && start <= offset <= |input|
        invariant IdentEnd(input, offset) == IdentEnd(input, start)
        decreases |input| - offset
      {
        NextChar();
      }
      lit := input[start..offset];
    }

    /** `readString(r)`: from the opening quote to the first quote followed by a delimiter. */
    method ReadString(r: char) returns (lit: string)
      requires Valid() && ch == r && r != NUL
      modifies this
      ensures Valid()
      ensures lit == input[old(offset)..StringEnd(input, old(offset) + 1, r).0]
      ensures offset == StringEnd(input, old(offset) + 1, r).1
    {
      var start := offset;
      ghost var end := StringEnd(input, start + 1, r);
      var ret: string := [];
      var i := 0;
      while true
        invariant Valid() && start <= offset <= |input|
        invariant i == offset - start
        invariant ret == input[start..offset]
        invariant i > 0 ==> StringEnd(input, offset, r) == end
        decreases |input| - offset
      {
        StringEndStop(input, offset, r);
        if ch == NUL {
          // Unterminated: the zero rune is stepped over but not gathered.
          NextChar();
          return ret;
        }
        // The opening quote, any other rune, and a later quote are all gathered.
        ret := ret + [ch];
        SliceExtend(input, start, offset);
        if ch == r && i != 0 {
          var next := Peek();
          if IsCloser(next) {
            NextChar();
            return ret;
          }
        }
        if i > 0 {
          StringEndStep(input, offset, r);
        }
        NextChar();
        i := i + 1;
      }
    }

    /** `readNumber`: the first digit, then digits and `.`, stopping before `..`. */
    method ReadNumber() returns (lit: string)
      requires Valid() && IsDigit(ch)
      modifies this
      ensures Valid()
      ensures offset == NumberEnd(input, old(offset) + 1)
      ensures lit == input[old(offset)..offset]
    {
      var start := offset;
      var ret := [ch];
      assert ret == input[start..start + 1];
      NextChar();

      while IsDigit(ch) || ch == '.'
        invariant Valid() && start < offset <= |input|
        invariant ret == input[start..offset]
        invariant NumberEnd(input, offset) == NumberEnd(input, start + 1)
        decreases |input| - offset
      {
        NumberEndAt(input, offset);
        if ch == '.' {
          if Peek() == '.' {
            return ret;
          }
        }
        SliceExtend(input, start, offset);
        ret := ret + [ch];
        NextChar();
      }
      NumberEndAt(input, offset);
      return ret;
    }
  }

  // ---------------------------------------------------------------------------
  // Properties of one call of NextToken

  /**
   * A run of white space yields exactly one SEPARATOR, positioned at the start
   * of the run; the cursor moves past the whole run, so the next token is not a
   * separator.
   */
  lemma SeparatorPerRun(input: string, i: nat)
    ensures Scan(input, i).0.kind == Separator <==> IsSpace(CharAt(input, i))
    ensures IsSpace(CharAt(input, i)) ==>
      && Scan(input, i) == (SeparatorToken(PositionAt(input, i)), SkipEnd(input, i))
      && (forall k :: i <= k < Scan(input, i).1 ==> IsSpace(input[k]))
      && Scan(input, Scan(input, i).1).0.kind != Separator
  {
    var j := SkipEnd(input, i);
    assert SkipEnd(input, j) == j;
  }

  /** At the end of the input `NextToken` yields EOF without moving, so EOF repeats at the same position. */
  lemma EofRepeats(input: string, i: nat)
    ensures Scan(input, i).0.kind == Eof <==> CharAt(input, i) == NUL
    ensures CharAt(input, i) == NUL ==> Scan(input, i) == (Token(Eof, "", PositionAt(input, i)), i)
  {
  }

  /** A recognised single-rune character produces its token and consumes exactly that rune. */
  lemma RuneTokenConsumesOne(input: string, i: nat)
    requires CharAt(input, i) in RuneTokens
    ensures Scan(input, i) == (Token(RuneTokens[input[i]], [input[i]], PositionAt(input, i)), i + 1)
  {
  }

  /**
   * Apart from EOF and SEPARATOR, every token's literal is the slice of the
   * input at its offset, and the cursor moves past at least that slice.
   */
  lemma LiteralIsSlice(input: string, i: nat)
    requires Scan(input, i).0.kind !in {Eof, Separator}
    ensures var (tok, next) := Scan(input, i);
      && i < |input| && tok.pos.offset == i
      && i + |tok.literal| <= |input| && tok.literal == input[i..i + |tok.literal|]
      && i + |tok.literal| <= next
  {
  }

  /** An identifier starts with a letter or `_` and runs over letters, digits, `_` and `-`. */
  lemma IdentShape(input: string, i: nat)
    requires Scan(input, i).0.kind == Ident
    ensures var (tok, next) := Scan(input, i);
      && |tok.literal| > 0 && IsLetterOrUnderscore(tok.literal[0])
      && (forall k :: 0 <= k < |tok.literal| ==> IsIdentPart(tok.literal[k]))
      && next == i + |tok.literal| && !IsIdentPart(CharAt(input, next))
  {
  }

  /**
   * A number always takes its first digit, then digits and `.`; it stops before
   * a rune that is neither, or before a `.` that is followed by another `.`.
   */
  lemma NumberShape(input: string, i: nat)
    requires Scan(input, i).0.kind == Int
    ensures var (tok, next) := Scan(input, i);
      && |tok.literal| > 0 && IsDigit(tok.literal[0])
      && (forall k :: 1 <= k < |tok.literal| ==> IsDigit(tok.literal[k]) || tok.literal[k] == '.')
      && next == i + |tok.literal|
      && var c := CharAt(input, next);
         !(IsDigit(c) || c == '.') || (c == '.' && CharAt(input, next + 1) == '.')
  {
  }

  /**
   * A string keeps its opening quote. It ends with the first later quote that
   * is followed by a space, newline, `;`, `,`, `)` or the end, and includes that
   * quote; otherwise it is unterminated and holds what was gathered up to a zero
   * rune or the end, which the cursor steps past.
   */
  lemma StringShape(input: string, i: nat)
    requires Scan(input, i).0.kind == String
    ensures var (tok, next) := Scan(input, i);
      var lit := tok.literal;
      && |lit| > 0 && lit[0] == '\''
      && (forall m :: 1 <= m < |lit| - 1 ==> lit[m] != NUL && !(lit[m] == '\'' && IsCloser(CharAt(input, i + m + 1))))
      && ((|lit| >= 2 && lit[|lit| - 1] == '\'' && IsCloser(CharAt(input, next)) && next == i + |lit|)
          || (CharAt(input, i + |lit|) == NUL && next == i + |lit| + 1))
  {
    var (tok, next) := Scan(input, i);
    var lit := tok.literal;
    var (e, n) := StringEnd(input, i + 1, '\'');
    StringEndShape(input, i + 1, '\'');
    assert lit == input[i..e];
    forall m | 1 <= m < |lit| - 1
      ensures lit[m] != NUL && !(lit[m] == '\'' && IsCloser(CharAt(input, i + m + 1)))
    {
      assert lit[m] == input[i + m];
    }
  }

  // ---------------------------------------------------------------------------
  // The UNKNOWN literal

  /**
   * As written, the fallback branch of `readToken` gives `#a` the literal `a`,
   * the rune after the unrecognised one, which is not the input at the token's
   * offset.
   */
  lemma UnknownLiteralAsWritten()
    ensures UnknownTokenAsWritten("#a", 0, PositionAt("#a", 0)).literal == "a"
    ensures "#a"[0..1] != "a"
  {
  }

  /** With the literal taken before moving on, `#a` starts with the one-rune UNKNOWN token `#`. */
  lemma UnknownLiteralCorrected()
    ensures Scan("#a", 0) == (Token(Unknown, "#", PositionAt("#a", 0)), 1)
  {
    assert CharAt("#a", 0) == '#';
    assert !IsSpace('#') && '#' !in RuneTokens;
  }
}
