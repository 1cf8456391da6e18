/**
 * The current generation's lexer (`internal/parse/lexer.go`): a lazy cursor over
 * the trimmed statement that tracks a byte offset, a 1-based line and column,
 * skips white space and produces one token per call.
 *
 * The first half of the module is a pure specification of what one call of
 * `NextToken` produces from a given rune position (`Scan`); the class `Lexer`
 * is the Go struct, and each of its methods is proved against that specification.
 */
module InternalLexer {
  import opened Runes
  import opened InternalToken

  // ---------------------------------------------------------------------------
  // Specification of the cursor

  /** The position `nextChar` moves to from `i`; it stays put at the end. */
  function NextIndex(input: string, i: nat): (j: nat)
    ensures i <= |input| ==> j <= |input|
  {
    if i < |input| then i + 1 else i
  }

  /** The line counter after the runes `s` have been read: 1 plus one per newline. */
  function LineAfter(s: string): int {
    if s == [] then 1 else LineAfter(s[..|s| - 1]) + (if s[|s| - 1] == '\n' then 1 else 0)
  }

  /** The column counter after the runes `s` have been read; a newline resets it to 1. */
  function ColumnAfter(s: string): int {
    if s == [] then 1
    else if s[|s| - 1] == '\n' then 1
    else ColumnAfter(s[..|s| - 1]) + 1
  }

  /** Reading one more rune updates both counters the way `nextChar` does. */
  lemma CountersStep(input: string, k: nat)
    requires k < |input|
    ensures LineAfter(input[..k + 1]) == LineAfter(input[..k]) + (if input[k] == '\n' then 1 else 0)
    ensures ColumnAfter(input[..k + 1]) == (if input[k] == '\n' then 0 else ColumnAfter(input[..k])) + 1
  {
    assert input[..k + 1][..k] == input[..k];
  }

  /**
   * The position `position()` reports when the cursor is on rune `j`: the byte
   * offset of `j`, and the line and column counters after `j` itself was read.
   */
  function PositionAt(input: string, j: nat): Position
    requires j <= |input|
  {
    var read := input[..NextIndex(input, j)];
    Position(ByteLen(input[..j]), LineAfter(read), ColumnAfter(read) - 1)
  }

  // ---------------------------------------------------------------------------
  // Specification of the scanning loops

  predicate IsIdentStart(c: char) {
    IsLetter(c) || c == '_'
  }

  predicate IsIdentPart(c: char) {
    IsLetter(c) || IsDigit(c) || c == '_'
  }

  /** Where `skipWhitespace`, called until it returns false, leaves the cursor. */
  function SkipEnd(input: string, i: nat): (j: nat)
    requires i <= |input|
    ensures i <= j <= |input|
    ensures forall k :: i <= k < j ==> IsSpace(input[k])
    ensures !IsSpace(CharAt(input, j))
    decreases |input| - i
  {
    if IsSpace(CharAt(input, i)) then SkipEnd(input, i + 1) else i
  }

  /** Where `readIdentifier` stops: the first rune that cannot continue an identifier. */
  function IdentEnd(input: string, i: nat): (e: nat)
    requires i <= |input|
    ensures i <= e <= |input|
    ensures forall k :: i <= k < e ==> IsIdentPart(input[k])
    ensures !IsIdentPart(CharAt(input, e))
    ensures IsIdentPart(CharAt(input, i)) ==> i < e
    decreases |input| - i
  {
    if IsIdentPart(CharAt(input, i)) then IdentEnd(input, i + 1) else i
  }

  /**
   * Where `readNumber` stops. `oneDecimal` records that a `.` has been seen; once
   * it has, the loop takes the current rune and stops if the next one is a `.`.
   */
  function NumberEnd(input: string, i: nat, oneDecimal: bool): (e: nat)
    requires i <= |input|
    ensures i <= e <= |input|
    ensures IsDigit(CharAt(input, i)) ==> i < e
    decreases |input| - i
  {
    var c := CharAt(input, i);
    if !(IsDigit(c) || c == '.') then i
    else
      var seen := oneDecimal || c == '.';
      if seen && CharAt(input, i + 1) == '.' then i + 1
      else NumberEnd(input, i + 1, seen)
  }

  /**
   * Where `readString(r)` stops. Each quote flips `maybeCloser`; a quote that
   * leaves it set and is not followed by another quote closes the string and is
   * taken. Reaching the zero rune ends an unterminated string.
   */
  function StringEnd(input: string, i: nat, r: char, maybeCloser: bool): (e: nat)
    requires i <= |input|
    ensures i <= e <= |input|
    ensures i < |input| ==> i < e
    decreases |input| - i
  {
    var c := CharAt(input, i);
    if c == NUL then NextIndex(input, i)
    else if c == r then
      var closer := !maybeCloser;
      if closer && CharAt(input, i + 1) != r then i + 1
      else StringEnd(input, i + 1, r, closer)
    else StringEnd(input, i + 1, r, maybeCloser)
  }

  /**
   * The token `NextToken` produces when white space has been skipped and the
   * cursor is on rune `j`, and the position it leaves the cursor on.
   */
  function ScanFrom(input: string, j: nat): (r: (Token, nat))
    requires j <= |input|
    ensures j <= r.1 <= |input|
    ensures r.0.pos == PositionAt(input, j)
    ensures r.0.kind == Eof <==> CharAt(input, j) == NUL
    ensures r.0.kind == Eof ==> r.1 == j && r.0.literal == []
    ensures r.0.kind != Eof ==> j < r.1 && r.0.literal == input[j..r.1]
    ensures r.0.kind == Unknown ==> r.1 == j + 1
  {
    var c := CharAt(input, j);
    var pos := PositionAt(input, j);
    if c in KnownRuneTokens then (Token(KnownRuneTokens[c], [c], pos), j + 1)
    else if c == NUL then (Token(Eof, "", pos), j)
    else if IsDigit(c) then
      var e := NumberEnd(input, j, false);
      (Token(Num, input[j..e], pos), e)
    else if IsIdentStart(c) then
      var e := IdentEnd(input, j);
      (Token(Ident, input[j..e], pos), e)
    else if c == '\'' then
      var e := StringEnd(input, j, c, true);
      (Token(String, input[j..e], pos), e)
    else (Token(Unknown, [c], pos), j + 1)
  }

  /** What one call of `NextToken` produces from rune position `i`. */
  function Scan(input: string, i: nat): (Token, nat)
    requires i <= |input|
  {
    ScanFrom(input, SkipEnd(input, i))
  }

  // ---------------------------------------------------------------------------
  // The lexer object

  class Lexer {
    /** The statement with its surrounding white space trimmed. */
    const input: string
    /** The rune under the cursor; the zero rune at the end. */
    var ch: char
    /** Byte offset of `ch`. */
    var offset: nat
    /** Byte offset of the rune after `ch`. */
    var readOffset: nat
    var line: int
    var column: int
    /** Rune positions of `offset` and `readOffset`, used to slice `input`. */
    var index: nat
    var readIndex: nat

    /** The counters agree with the runes read so far. */
    ghost predicate ReadConsistent()
      reads this
    {
      && readIndex <= |input|
      && readOffset == ByteLen(input[..readIndex])
      && line == LineAfter(input[..readIndex])
      && column == ColumnAfter(input[..readIndex])
    }

    /** The cursor is on rune `index` and every field agrees with it. */
    ghost predicate Valid()
      reads this
    {
      && ReadConsistent()
      && index <= |input|
      && readIndex == NextIndex(input, index)
      && ch == CharAt(input, index)
      && offset == ByteLen(input[..index])
    }

    /** `NewLexer`: trims the input and primes the cursor on its first rune. */
    constructor (source: string)
      ensures Valid()
      ensures input == TrimSpace(source) && index == 0
    {
      input := TrimSpace(source);
      ch := NUL;
      offset, readOffset := 0, 0;
      line, column := 1, 1;
      index, readIndex := 0, 0;
      new;
      NextChar();
    }

    /** `nextChar`: reads the rune at `readOffset`, or the zero rune at the end. */
    method NextChar()
      requires ReadConsistent()
      modifies this
      ensures Valid()
      ensures index == old(readIndex)
    {
      if readIndex >= |input| {
        ch := NUL;
        offset := readOffset;
        index := readIndex;
        return;
      }
      CountersStep(input, readIndex);
      ByteLenStep(input, readIndex);
      ch := input[readIndex];
      var size := Width(ch);
      if ch == '\n' {
        line := line + 1;
        column := 0;
      }
      column := column + 1;
      offset := readOffset;
      index := readIndex;
      readOffset := readOffset + size;
      readIndex := readIndex + 1;
    }

    /** `peek`: the rune after the cursor, without moving. */
    function Peek(): (c: char)
      reads this
      requires Valid()
      ensures c == CharAt(input, index + 1)
    {
      if readIndex >= |input| then NUL else input[readIndex]
    }

    /** `position`: where the rune under the cursor is. */
    function Position(): (p: InternalToken.Position)
      reads this
      requires Valid()
      ensures p == PositionAt(input, index)
    {
      InternalToken.Position(offset, line, column - 1)
    }

    /** `skipWhitespace`: steps over one white space rune, if the cursor is on one. */
    method SkipWhitespace() returns (skipped: bool)
      requires Valid()
      modifies this
      ensures Valid()
      ensures skipped == IsSpace(old(ch))
      ensures index == if skipped then old(index) + 1 else old(index)
    {
      if !IsSpace(ch) {
        return false;
      }
      NextChar();
      return true;
    }

    /** `readIdentifier`: the run of identifier runes from the cursor. */
    method ReadIdentifier() returns (lit: string)
      requires Valid()
      modifies this
      ensures Valid()
      ensures index == IdentEnd(input, old(index))
      ensures lit == input[old(index)..index]
    {
      var start := index;
      while IsIdentPart(ch)
        invariant Valid() && start <= index <= |input|
        invariant IdentEnd(input, index) == IdentEnd(input, start)
        decreases |input| - index
      {
        NextChar();
      }
      lit := input[start..index];
    }

    /** `readString`: a quoted string from the opening quote `r`, quotes included. */
    method ReadString(r: char) returns (lit: string)
      requires Valid()
      modifies this
      ensures Valid()
      ensures index == StringEnd(input, old(index), r, true)
      ensures lit == input[old(index)..index]
    {
      var start := index;
      var maybeCloser := true;
      while true
        invariant Valid() && start <= index <= |input|
        invariant StringEnd(input, index, r, maybeCloser) == StringEnd(input, start, r, true)
        decreases |input| - index
      {
        if ch == NUL {
          NextChar();
          break;
        }
        if ch == r {
          maybeCloser := !maybeCloser;
          if maybeCloser && Peek() != r {
            NextChar();
            break;
          }
        }
        NextChar();
      }
      lit := input[start..index];
    }

    /** `readNumber`: digits with at most one embedded decimal point. */
    method ReadNumber() returns (lit: string)
      requires Valid()
      modifies this
      ensures Valid()
      ensures index == NumberEnd(input, old(index), false)
      ensures lit == input[old(index)..index]
    {
      var start := index;
      var oneDecimal := false;
      while IsDigit(ch) || ch == '.'
        invariant Valid() && start <= index <= |input|
        invariant NumberEnd(input, index, oneDecimal) == NumberEnd(input, start, false)
        decreases |input| - index
      {
        if ch == '.' {
          oneDecimal := true;
        }
        if oneDecimal && Peek() == '.' {
          NextChar();
          break;
        }
        NextChar();
      }
      lit := input[start..index];
    }

    /** `readComplexToken`: end of input, numbers, identifiers, strings and unknown runes. */
    method ReadComplexToken(pos: InternalToken.Position) returns (tok: Token)
      requires Valid() && ch !in KnownRuneTokens && pos == PositionAt(input, index)
      modifies this
      ensures Valid()
      ensures (tok, index) == ScanFrom(input, old(index))
    {
      tok := Token(Unknown, "", pos);
      if ch == NUL {
        tok := tok.(kind := Eof);
        return;
      } else if IsDigit(ch) {
        var lit := ReadNumber();
        tok := tok.(kind := Num, literal := lit);
        return;
      } else if IsLetter(ch) || ch == '_' {
        var lit := ReadIdentifier();
        tok := tok.(kind := Ident, literal := lit);
        return;
      } else if ch == '\'' {
        var lit := ReadString(ch);
        tok := tok.(kind := String, literal := lit);
        return;
      }
      tok := tok.(kind := Unknown, literal := [ch]);
      NextChar();
    }

    /** `NextToken`: skips white space, then reads one token. */
    method NextToken() returns (tok: Token)
      requires Valid()
      modifies this
      ensures Valid()
      ensures (tok, index) == Scan(input, old(index))
    {
      var skipping := SkipWhitespace();
      while skipping
        invariant Valid()
        invariant old(index) <= index <= |input|
        invariant skipping ==> SkipEnd(input, index) == SkipEnd(input, old(index))
        invariant !skipping ==> index == SkipEnd(input, old(index))
        decreases |input| - index, skipping
      {
        skipping := SkipWhitespace();
      }

      var pos := Position();

      if ch in KnownRuneTokens {
        var lit := [ch];
        var kind := KnownRuneTokens[ch];
        NextChar();
        return Token(kind, lit, pos);
      }

      tok := ReadComplexToken(pos);
    }
  }

  // ---------------------------------------------------------------------------
  // Properties of one call of NextToken

  /**
   * White space never produces a token: everything `NextToken` steps over is
   * white space, the token starts at the first rune that is not, and a
   * non-empty literal never starts with white space.
   */
  lemma ScanSkipsOnlySpace(input: string, i: nat)
    requires i <= |input|
    ensures var j := SkipEnd(input, i);
      && (forall k :: i <= k < j ==> IsSpace(input[k]))
      && Scan(input, i).0.pos == PositionAt(input, j)
      && (Scan(input, i).0.literal != [] ==> !IsSpace(Scan(input, i).0.literal[0]))
  {
    var j := SkipEnd(input, i);
    var (tok, next) := ScanFrom(input, j);
    if tok.literal != [] {
      assert tok.literal[0] == input[j];
    }
  }

  /**
   * Once the input is exhausted, `NextToken` yields EOF at the same position
   * again and again: the cursor does not move.
   */
  lemma EofRepeats(input: string, i: nat)
    requires i <= |input|
    requires Scan(input, i).0.kind == Eof
    ensures Scan(input, Scan(input, i).1) == Scan(input, i)
  {
    var j := SkipEnd(input, i);
    assert Scan(input, i).1 == j;
    assert SkipEnd(input, j) == j;
  }

  /** EOF is produced exactly at the end of the trimmed input or at an embedded zero rune. */
  lemma EofAtEnd(input: string, i: nat)
    requires i <= |input|
    ensures Scan(input, i).0.kind == Eof <==> SkipEnd(input, i) == |input| || input[SkipEnd(input, i)] == NUL
  {
  }

  /** The literal of a non-EOF token is the slice of the input at its byte offset. */
  lemma LiteralIsSlice(input: string, i: nat)
    requires i <= |input|
    requires Scan(input, i).0.kind != Eof
    ensures var j := SkipEnd(input, i);
      && Scan(input, i).0.pos.offset == ByteLen(input[..j])
      && Scan(input, i).0.literal == input[j..Scan(input, i).1]
      && |Scan(input, i).0.literal| > 0
  {
  }

  /** An unrecognised rune becomes a one-rune UNKNOWN token and lexing moves past it. */
  lemma UnknownIsOneRune(input: string, i: nat)
    requires i <= |input|
    requires Scan(input, i).0.kind == Unknown
    ensures var j := SkipEnd(input, i);
      && Scan(input, i).1 == j + 1
      && Scan(input, i).0.literal == [input[j]]
      && input[j] !in KnownRuneTokens && input[j] != NUL && input[j] != '\''
      && !IsDigit(input[j]) && !IsIdentStart(input[j]) && !IsSpace(input[j])
  {
  }

  // ---------------------------------------------------------------------------
  // Numbers

  /** No two `.` in `s`. */
  predicate AtMostOneDot(s: string) {
    forall a, b :: 0 <= a < b < |s| && s[a] == '.' ==> s[b] != '.'
  }

  lemma {:induction false} NumberEndShape(input: string, i: nat, seen: bool)
    requires i <= |input|
    requires seen ==> CharAt(input, i) != '.'
    ensures var e := NumberEnd(input, i, seen);
      && (forall k :: i <= k < e ==> IsDigit(input[k]) || input[k] == '.')
      && AtMostOneDot(input[i..e])
      && (seen ==> forall k :: i <= k < e ==> input[k] != '.')
      && !IsDigit(CharAt(input, e))
      && (CharAt(input, e) == '.' ==> i < e && (seen || '.' in input[i..e]))
    decreases |input| - i
  {
    var c := CharAt(input, i);
    if !(IsDigit(c) || c == '.') {
      return;
    }
    var now := seen || c == '.';
    if now && CharAt(input, i + 1) == '.' {
      assert input[i..i + 1][0] == c;
      return;
    }
    NumberEndShape(input, i + 1, now);
    var e := NumberEnd(input, i, seen);
    var s := input[i..e];
    assert s[0] == c && s[1..] == input[i + 1..e];
    forall a, b | 0 <= a < b < |s| && s[a] == '.'
      ensures s[b] != '.'
    {
      if a == 0 {
        assert input[i + b] == s[b];
      } else {
        assert input[i + 1..e][a - 1] == s[a];
        assert input[i + 1..e][b - 1] == s[b];
      }
    }
  }

  /**
   * A number literal starts with a digit, holds only digits and `.`, and has at
   * most one `.`. It stops before a rune that is no digit, and stops before a
   * `.` only when it already holds one.
   */
  lemma NumberShape(input: string, i: nat)
    requires i <= |input|
    requires Scan(input, i).0.kind == Num
    ensures var lit := Scan(input, i).0.literal;
      && |lit| > 0 && IsDigit(lit[0])
      && (forall k :: 0 <= k < |lit| ==> IsDigit(lit[k]) || lit[k] == '.')
      && AtMostOneDot(lit)
    ensures !IsDigit(CharAt(input, Scan(input, i).1))
    ensures CharAt(input, Scan(input, i).1) == '.' ==> '.' in Scan(input, i).0.literal
  {
    var j := SkipEnd(input, i);
    NumberEndShape(input, j, false);
  }

  // ---------------------------------------------------------------------------
  // Strings

  /**
   * A string body in which the quote `q` only appears doubled, and which holds
   * no zero rune.
   */
  predicate Escaped(s: string, q: char)
    decreases |s|
  {
    if s == [] then true
    else if s[0] == q then |s| >= 2 && s[1] == q && Escaped(s[2..], q)
    else s[0] != NUL && Escaped(s[1..], q)
  }

  lemma {:induction false} EscapedAppend(s: string, t: string, q: char)
    requires Escaped(s, q) && Escaped(t, q)
    ensures Escaped(s + t, q)
    decreases |s|
  {
    if s == [] {
      assert s + t == t;
    } else if s[0] == q {
      EscapedAppend(s[2..], t, q);
      assert (s + t)[2..] == s[2..] + t;
    } else {
      EscapedAppend(s[1..], t, q);
      assert (s + t)[1..] == s[1..] + t;
    }
  }

  /** The part of a string after its opening quote, as `readString` delimits it. */
  predicate StringRest(input: string, i: nat, e: nat, q: char)
    requires i <= e <= |input|
  {
    // closed by a quote that is not followed by another quote
    || (i < e && input[e - 1] == q && CharAt(input, e) != q && Escaped(input[i..e - 1], q))
    // unterminated: runs to the end of the input
    || (e == |input| && Escaped(input[i..e], q))
    // unterminated: stops after a zero rune
    || (i < e && input[e - 1] == NUL && Escaped(input[i..e - 1], q))
  }

  /** An escaped run in front of a string's rest extends that rest. */
  lemma StringRestExtend(input: string, i: nat, k: nat, e: nat, q: char)
    requires i <= k <= e <= |input|
    requires Escaped(input[i..k], q) && StringRest(input, k, e, q)
    ensures StringRest(input, i, e, q)
  {
    var head := input[i..k];
    if k < e && input[e - 1] == q && CharAt(input, e) != q && Escaped(input[k..e - 1], q) {
      EscapedAppend(head, input[k..e - 1], q);
      assert input[i..e - 1] == head + input[k..e - 1];
    } else if e == |input| && Escaped(input[k..e], q) {
      EscapedAppend(head, input[k..e], q);
      assert input[i..e] == head + input[k..e];
    } else {
      EscapedAppend(head, input[k..e - 1], q);
      assert input[i..e - 1] == head + input[k..e - 1];
    }
  }

  lemma {:induction false} StringEndShape(input: string, i: nat, q: char)
    requires i <= |input| && q != NUL
    ensures StringRest(input, i, StringEnd(input, i, q, false), q)
    decreases |input| - i
  {
    var c := CharAt(input, i);
    if c == NUL {
      assert input[i..i] == [];
    } else if c == q && CharAt(input, i + 1) != q {
      assert input[i..i] == [];
    } else if c == q {
      assert StringEnd(input, i, q, false) == StringEnd(input, i + 2, q, false);
      StringEndShape(input, i + 2, q);
      var pair := input[i..i + 2];
      assert Escaped(pair[2..], q);
      assert Escaped(pair, q);
      StringRestExtend(input, i, i + 2, StringEnd(input, i, q, false), q);
    } else {
      assert StringEnd(input, i, q, false) == StringEnd(input, i + 1, q, false);
      StringEndShape(input, i + 1, q);
      var one := input[i..i + 1];
      assert Escaped(one[1..], q);
      StringRestExtend(input, i, i + 1, StringEnd(input, i, q, false), q);
    }
  }

  /**
   * A string literal keeps its opening quote; after it, a doubled quote is an
   * escape and not a terminator. The literal either ends with a closing quote
   * that is not followed by another quote, or is unterminated and holds the rest
   * of the input up to its end or to a zero rune.
   */
  lemma StringShape(input: string, i: nat)
    requires i <= |input|
    requires Scan(input, i).0.kind == String
    ensures var j := SkipEnd(input, i);
      && Scan(input, i).0.literal[0] == '\''
      && StringRest(input, j + 1, Scan(input, i).1, '\'')
  {
    var j := SkipEnd(input, i);
    assert StringEnd(input, j, '\'', true) == StringEnd(input, j + 1, '\'', false);
    StringEndShape(input, j + 1, '\'');
  }

  // ---------------------------------------------------------------------------
  // Lines and columns

  lemma {:induction false} LineAfterCounts(s: string)
    ensures LineAfter(s) == 1 + multiset(s)['\n']
    decreases |s|
  {
    if s != [] {
      LineAfterCounts(s[..|s| - 1]);
      assert s == s[..|s| - 1] + [s[|s| - 1]];
    }
  }

  /** `k` is where the last line of `s` starts. */
  predicate LastLineStart(s: string, k: nat) {
    && k <= |s|
    && (k == 0 || s[k - 1] == '\n')
    && forall m :: k <= m < |s| ==> s[m] != '\n'
  }

  lemma {:induction false} ColumnAfterCounts(s: string, k: nat)
    requires LastLineStart(s, k)
    ensures ColumnAfter(s) == |s| - k + 1
    decreases |s|
  {
    if s != [] && s[|s| - 1] != '\n' {
      ColumnAfterCounts(s[..|s| - 1], k);
    }
  }

  /**
   * The position of a rune that is not a newline: its line is 1 plus the number
   * of newlines before it, and its column counts the runes since the start of
   * its line, starting at 1.
   */
  lemma PositionCounts(input: string, j: nat, k: nat)
    requires j < |input| && input[j] != '\n'
    requires LastLineStart(input[..j], k)
    ensures PositionAt(input, j).offset == ByteLen(input[..j])
    ensures PositionAt(input, j).line == 1 + multiset(input[..j])['\n']
    ensures PositionAt(input, j).column == j - k + 1
  {
    CountersStep(input, j);
    LineAfterCounts(input[..j]);
    ColumnAfterCounts(input[..j], k);
  }

  /** An unterminated string holds the rest of the statement: `select 's` (column 8). */
  /**
   * A number with two dots: `100000.5.6;` lexes as the number `100000.5`, a
   * period, the number `6` and a semicolon.
   */
  lemma BadNumberExample()
    ensures var input := "100000.5.6;";
      && Scan(input, 0).0.kind == Num && Scan(input, 0).0.literal == "100000.5" && Scan(input, 0).1 == 8
      && Scan(input, 8).0.kind == Period && Scan(input, 8).0.literal == "." && Scan(input, 8).1 == 9
      && Scan(input, 9).0.kind == Num && Scan(input, 9).0.literal == "6" && Scan(input, 9).1 == 10
      && Scan(input, 10).0.kind == Semicolon && Scan(input, 10).0.literal == ";" && Scan(input, 10).1 == 11
  {
    BadNumberHead();
    BadNumberTail();
  }

  lemma BadNumberHead()
    ensures var input := "100000.5.6;";
      Scan(input, 0).0.kind == Num && Scan(input, 0).0.literal == "100000.5" && Scan(input, 0).1 == 8
  {
    var input := "100000.5.6;";
    assert SkipEnd(input, 0) == 0;
    assert NumberEnd(input, 7, true) == 8;
    assert NumberEnd(input, 6, false) == 8;
    assert NumberEnd(input, 3, false) == 8;
    assert NumberEnd(input, 0, false) == 8;
  }

  lemma BadNumberTail()
    ensures var input := "100000.5.6;";
      && Scan(input, 8).0.kind == Period && Scan(input, 8).0.literal == "." && Scan(input, 8).1 == 9
      && Scan(input, 9).0.kind == Num && Scan(input, 9).0.literal == "6" && Scan(input, 9).1 == 10
      && Scan(input, 10).0.kind == Semicolon && Scan(input, 10).0.literal == ";" && Scan(input, 10).1 == 11
  {
    var input := "100000.5.6;";
    assert SkipEnd(input, 8) == 8 && SkipEnd(input, 9) == 9 && SkipEnd(input, 10) == 10;
    assert NumberEnd(input, 9, false) == 10;
  }

  lemma UnterminatedStringExample()
    ensures Scan("select 's", 6) == (Token(String, "'s", Position(7, 1, 8)), 9)
  {
    var input := "select 's";
    assert SkipEnd(input, 6) == 7;
    assert StringEnd(input, 7, '\'', true) == 9;
    ByteLenAscii(input[..7]);
    var read := input[..8];
    ColumnAfterCounts(read, 0);
    LineAfterCounts(read);
    assert multiset(read)['\n'] == 0;
    assert PositionAt(input, 7) == Position(7, 1, 8);
    assert input[7..9] == "'s";
    assert ScanFrom(input, 7) == (Token(String, "'s", Position(7, 1, 8)), 9);
  }
}
