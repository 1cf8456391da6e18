/**
 * Tokens of the older generation (`parse/token.go`): the token kinds, positions,
 * the single-rune token table and the two token constructors.
 */
module ParseToken {

  /**
   * `TokenType`. In Go `UNKNOWN` is -1 and `EOF` is 0, so the zero `Token` has
   * kind EOF.
   */
  datatype TokenType =
    | Unknown | Eof | Separator
    | Ident | Int | String
    | Comma
    | LParen | RParen | LBracket | RBracket
    | BitAnd | Period | Asterisk | Dollar | Equal | Semicolon

  /**
   * `Position`: a rune offset and a zero-based line. The older syntax tree also
   * reads a `Column`, which this lexer never sets, so it is always zero here.
   */
  datatype Position = Position(offset: int, line: int, column: int)

  datatype Token = Token(kind: TokenType, literal: string, pos: Position)

  const ZeroPosition := Position(0, 0, 0)

  /** Go's zero `Token{}`. */
  const ZeroToken := Token(Eof, "", ZeroPosition)

  /** `runeTokens`. */
  const RuneTokens: map<char, TokenType> := map[
    '(' := LParen,
    ')' := RParen,
    '[' := LBracket,
    ']' := RBracket,
    ',' := Comma,
    '&' := BitAnd,
    '.' := Period,
    '*' := Asterisk,
    '$' := Dollar,
    '=' := Equal,
    ';' := Semicolon
  ]

  /** `separatorToken`: a single space standing for a run of white space. */
  function SeparatorToken(pos: Position): (t: Token)
    ensures t.kind == Separator && t.literal == " " && t.pos == pos
  {
    Token(Separator, " ", pos)
  }

  /**
   * `maybeRuneToken`: the token for one of the eleven recognised runes, which
   * keeps the rune as its literal and the given position; the zero token and
   * false for any other rune.
   */
  function MaybeRuneToken(c: char, pos: Position): (r: (Token, bool))
    ensures r.1 <==> c in "()[],&.*$=;"
    ensures r.1 ==> r.0.kind == RuneTokens[c] && r.0.literal == [c] && r.0.pos == pos
    ensures !r.1 ==> r.0 == ZeroToken
  {
    if c !in RuneTokens then (ZeroToken, false)
    else (Token(RuneTokens[c], [c], pos), true)
  }

  /** Distinct runes of the table give distinct token kinds. */
  lemma RuneTokensInjective(c: char, d: char)
    requires c in RuneTokens && d in RuneTokens && c != d
    ensures RuneTokens[c] != RuneTokens[d]
  {
  }

  /** None of the kinds that carry text comes from the table. */
  lemma RuneTokenKinds(c: char)
    requires c in RuneTokens
    ensures RuneTokens[c] !in {Unknown, Eof, Separator, Ident, Int, String}
  {
  }

  /** A digit is not a single-rune token: `maybeRuneToken('6', …)` is the zero token and false. */
  lemma DigitIsNotRuneToken(pos: Position)
    ensures MaybeRuneToken('6', pos) == (ZeroToken, false)
  {
  }
}
