/**
 * Token kinds, positions and tokens of the current generation (`internal/parse`).
 * The file that declares them there is not part of this model; its content is
 * mirrored from the older generation's token table, with the integer literal
 * kind named `Num` and a `column` added to positions, as the internal lexer uses them.
 */
module InternalToken {

  /** The kinds of token the internal lexer produces. */
  datatype TokenType =
    | Unknown | Eof | Ident | Num | String
    | Comma | LParen | RParen | LBracket | RBracket
    | BitAnd | Period | Asterisk | Dollar | Equal | Semicolon

  /** Where a token starts: a byte offset, a 1-based line and a 1-based column. */
  datatype Position = Position(offset: int, line: int, column: int)

  /** Go's zero `Position{}`. */
  const ZeroPosition := Position(0, 0, 0)

  datatype Token = Token(kind: TokenType, literal: string, pos: Position)

  /** `knownRuneTokens`: the single characters that are tokens by themselves. */
  const KnownRuneTokens: map<char, TokenType> := map[
    '(' := LParen, ')' := RParen, '[' := LBracket, ']' := RBracket,
    ',' := Comma, '&' := BitAnd, '.' := Period, '*' := Asterisk,
    '$' := Dollar, '=' := Equal, ';' := Semicolon
  ]

  /** The table holds exactly the eleven punctuation characters of the dialect. */
  lemma KnownRuneTokensDomain()
    ensures KnownRuneTokens.Keys == {'(', ')', '[', ']', ',', '&', '.', '*', '$', '=', ';'}
  {
  }

  /** Distinct characters map to distinct kinds, and never to a literal-carrying kind. */
  lemma KnownRuneTokensInjective(c: char, d: char)
    requires c in KnownRuneTokens && d in KnownRuneTokens && c != d
    ensures KnownRuneTokens[c] != KnownRuneTokens[d]
    ensures KnownRuneTokens[c] !in {Unknown, Eof, Ident, Num, String}
  {
  }
}
