# sqlair prototype — a verified Dafny model

sqlair lets Go programs write SQL statements annotated with Go types:
`SELECT &Person.* FROM person WHERE id = $Manager.id`. An output target
(`&Type.field`) says which type a result column fills, and an input source
(`$Type.field`) says which argument supplies a value. `Prepare` lexes and parses the
statement and reflects the argument types. It then checks that every annotation
names a supplied type and that every supplied type is used.

The repository holds two generations of the front end, and both are modelled:

* **the current one** (`internal/parse`): a lexer over UTF-8 text with
  byte offsets and 1-based lines and columns, and an expression tree with
  rendering, positions and a pre-order `Walk`. It is used by `statement.go`
  (`Prepare`, `typesForStatement`, `interpret`, `validateExpressionType`) and by
  the error kinds of `errors.go`;
* **the older one** (`parse`): a rune lexer that emits SEPARATOR tokens, a
  Pratt parser with a two-token window, and a small syntax tree.

Each Go file is one Dafny module:

| module | Go file | form |
|---|---|---|
| `Wrappers` | — | `Option`, `Result` |
| `Runes` | parts of `unicode`, `unicode/utf8`, `strings` | functions |
| `InternalToken` | the token kinds used by `internal/parse/lexer.go` | datatypes |
| `InternalLexer` | `internal/parse/lexer.go` | class `Lexer`, proved against the function `Scan` |
| `InternalAst` | `internal/parse/ast.go` | datatype `Expression`, functions, class `ParentExpression` |
| `Errors` | `errors.go` | datatype `Error`, message functions |
| `Binder` | `statement.go` | methods proved against functions |
| `ParseToken` | `parse/token.go` | functions |
| `ParseLexer` | `parse/lexer.go` | class `Lexer`, proved against the function `Scan` |
| `ParseParser` | `parse/parser.go` | class `Parser`, proved against the functions `Expr`, `Group`, `RunFrom` |
| `ParseAst` | `parse/ast.go` | datatype `Expression`, functions |

The imperative Go code keeps its imperative form:

* Both lexers are classes whose fields (`ch`, `offset`, `readOffset`, `line`,
  `column`) are advanced by `NextChar`. Each reading method is a loop.
* Every method's postcondition equates its token and new cursor with a pure
  function of the input. What the source promises (shapes of literals,
  positions, EOF behaviour) is proved as lemmas about those functions.
* The parser is a class whose `current`/`peek` window is shifted by
  `NextToken`. `Run` and `parseGroup` are loops.
* The lexer's whole state is fixed by its offset. So a parser state is the value
  `State(current, peek, offset, errors)`, and each parsing method is proved to
  act on it as a pure function does.

Where the source files disagree with each other, the model follows the code that runs:

* The older parser's prefix table uses `NUM` for the token kind that
  `parse/token.go` calls `INT`. Here it is `Int`.
* `parse/parser.go` builds `SQLExpression`, `GroupedColumnsExpression`,
  `OutputTargetExpression` and the like, which are not the types of
  `parse/ast.go`. They are modelled as the records `ParseParser.Node` and
  `ParseParser.SQLExpression`.
* The older `Position` has no `Column`, but `parse/ast.go` reads one, so it is
  always zero here.
* `Parser.errors` is declared but nothing in `parse/parser.go` appends to it.
  The parser checks no period, and its group loop stops only at `)` (see
  Findings). The tests of the newer parser expect an error for a missing period
  (internal/parse/parser_test.go:213-224), which the older parser never gives.

## Model

| member | source | states |
|---|---|---|
| `Runes.CharAt` | internal/parse/lexer.go:181-184 | the rune at an index, or the zero rune past the end (the lexers' end marker) |
| `Runes.Width` | internal/parse/lexer.go:187-188 | a rune takes one to four UTF-8 bytes, exactly one iff it is ASCII |
| `Runes.ByteLenAscii` | internal/parse/lexer.go:187-195 | for ASCII text the byte length equals the rune count |
| `Runes.ByteLenBounds` | internal/parse/lexer.go:187-195 | the byte length of a text is between one and four times its rune count |
| `Runes.TrimSpace` | internal/parse/lexer.go:28 | the result is the input without leading and trailing white space: a slice of it that neither starts nor ends with white space, with only white space cut at the ends |
| `InternalToken.KnownRuneTokensDomain` | internal/parse/lexer.go:46-55 | exactly the eleven runes `( ) [ ] , & . * $ = ;` are single-rune tokens |
| `InternalToken.KnownRuneTokensInjective` | internal/parse/lexer.go:46-55 | distinct single-rune tokens have distinct kinds, none of them a kind that carries text |
| `InternalLexer.CountersStep` | internal/parse/lexer.go:189-193 | reading a rune adds one line for a newline, and resets the column after a newline, then adds one |
| `InternalLexer.SkipEnd` | internal/parse/lexer.go:41-42 | the whitespace loop passes only white space and stops at the first rune that is not |
| `InternalLexer.IdentEnd` | internal/parse/lexer.go:111-119 | an identifier runs over letters, digits and `_` and stops at the first other rune |
| `InternalLexer.ScanFrom` | internal/parse/lexer.go:79-107 | a token other than EOF is the non-empty slice of the input at its position; EOF exactly at the zero rune, without moving; UNKNOWN consumes one rune |
| `InternalLexer.Lexer.constructor` | internal/parse/lexer.go:26-34 | the lexer holds the trimmed input and is primed on its first rune |
| `InternalLexer.Lexer.NextChar` | internal/parse/lexer.go:180-196 | the cursor moves to the next rune, with byte offset, line and column kept consistent with the runes read |
| `InternalLexer.Lexer.Peek` | internal/parse/lexer.go:199-206 | the rune after the cursor, or zero at the end |
| `InternalLexer.Lexer.Position` | internal/parse/lexer.go:60-66 | the byte offset, line and column of the rune under the cursor |
| `InternalLexer.Lexer.SkipWhitespace` | internal/parse/lexer.go:70-77 | true and one rune further exactly when the current rune is white space |
| `InternalLexer.Lexer.ReadIdentifier` | internal/parse/lexer.go:111-119 | the literal is the input from the start to where `IdentEnd` stops |
| `InternalLexer.Lexer.ReadString` | internal/parse/lexer.go:124-152 | the literal is the input from the opening quote to where `StringEnd` stops |
| `InternalLexer.Lexer.ReadNumber` | internal/parse/lexer.go:156-176 | the literal is the input from the first digit to where `NumberEnd` stops |
| `InternalLexer.Lexer.ReadComplexToken` | internal/parse/lexer.go:79-107 | the token and new cursor are those of `ScanFrom` |
| `InternalLexer.Scan` | internal/parse/lexer.go:40-58 | one `NextToken` call: white space skipped, then `ScanFrom` at the first other rune (no contract of its own; the shape, EOF and position lemmas below are about it) |
| `InternalLexer.Lexer.NextToken` | internal/parse/lexer.go:40-58 | the token and new cursor are those of `Scan` |
| `InternalLexer.ScanSkipsOnlySpace` | internal/parse/lexer.go:40-44 | white space before a token is skipped and produces nothing; the token starts after it and its literal does not start with white space |
| `InternalLexer.EofRepeats` | internal/parse/lexer.go:83-85 | after EOF the next call yields the same EOF token at the same position |
| `InternalLexer.EofAtEnd` | internal/parse/lexer.go:83-85 | EOF comes exactly when only white space (or a zero rune) is left |
| `InternalLexer.LiteralIsSlice` | internal/parse/lexer.go:44-57 | every token but EOF is the non-empty slice of the trimmed input at its byte offset |
| `InternalLexer.UnknownIsOneRune` | internal/parse/lexer.go:103-106 | an unrecognised rune becomes a one-rune UNKNOWN token holding that rune, and lexing goes on after it |
| `InternalLexer.NumberEndShape` | internal/parse/lexer.go:156-176 | the number loop passes only digits and dots, at most one dot; it stops before a rune that is no digit, and before a `.` only once it has passed one |
| `InternalLexer.NumberShape` | internal/parse/lexer.go:156-176 | a number literal starts with a digit, holds only digits and dots, and has at most one dot; the next rune is no digit, and is a `.` only when the literal already holds one |
| `InternalLexer.BadNumberExample` | internal/parse/lexer_test.go:39-51 | `100000.5.6;` lexes as the number `100000.5`, a period, the number `6` and a semicolon |
| `InternalLexer.EscapedAppend` | internal/parse/lexer.go:135-146 | two runs of doubled quotes and non-quote runes concatenate into one |
| `InternalLexer.StringEndShape` | internal/parse/lexer.go:124-152 | the string loop passes doubled quotes as escapes and ends after a quote not followed by another, or at the end of the input |
| `InternalLexer.StringShape` | internal/parse/lexer.go:124-152 | a string literal keeps its opening quote, treats `''` as an escape, and is either closed by a lone quote or runs to the end of the input |
| `InternalLexer.UnterminatedStringExample` | internal/parse/lexer.go:129-133 | `select 's` lexes its second token as STRING `'s` at byte 7, line 1, column 8 |
| `InternalLexer.LineAfterCounts` | internal/parse/lexer.go:187-193 | the line counter is one more than the number of newlines read |
| `InternalLexer.ColumnAfterCounts` | internal/parse/lexer.go:187-193 | the column counter is one more than the number of runes since the last newline |
| `InternalLexer.PositionCounts` | internal/parse/lexer.go:60-66 | a token's offset is the byte length before it, its line is one plus the newlines before it, and its column is one plus the runes since the last newline |
| `InternalAst.Expressions` | internal/parse/ast.go:158-162 | a type mapping's children are its name then its field, an identity has none, and the children account for every node below |
| `InternalAst.TypeName` | internal/parse/ast.go:176-178 | the type name is the first child of a type mapping, an identity holding the name token |
| `InternalAst.Render` | internal/parse/ast.go:253-255 | an identity renders as its literal, and grouped columns are wrapped in parentheses |
| `InternalAst.RenderAppend` | internal/parse/ast.go:75-133 | appending a child adds one space (SQL), `, ` inside the parentheses (grouped columns) or nothing (DML, DDL, pass-through) before the child's rendering |
| `InternalAst.RenderTypeMapping` | internal/parse/ast.go:172-174 | an annotation renders as marker + name + `.` + field |
| `InternalAst.TokenEnd` | internal/parse/ast.go:247-251 | an identity ends at its start offset plus its literal's byte length |
| `InternalAst.TypeMappingPositions` | internal/parse/ast.go:164-170 | an annotation begins at its marker and ends where its field ends |
| `InternalAst.TokensAllLast` | internal/parse/ast.go:48-62 | the tokens of a list of children start with the first child's and end with the last child's |
| `InternalAst.Begin` | internal/parse/ast.go:48-55 | a parent begins where its first child begins, or at the zero position when it has none; an annotation at its marker; an identity at its token (no contract of its own; `PositionsOfTokens` and `TypeMappingPositions` state what it means) |
| `InternalAst.End` | internal/parse/ast.go:57-62 | a parent ends where its last child ends, or at the zero position when it has none; an annotation where its field ends; an identity where its token ends (no contract of its own; `PositionsOfTokens` and `TypeMappingPositions` state what it means) |
| `InternalAst.PositionsOfTokens` | internal/parse/ast.go:48-62 | without empty parents, a tree begins at its first token and ends at the end of its last token |
| `InternalAst.Preorder` | internal/parse/ast.go:274-284 | the pre-order sequence starts with the node and has one entry per node |
| `InternalAst.Replay` | internal/parse/ast.go:275-281 | the visited nodes are a prefix of the sequence; all of it on success, at least one node on failure |
| `InternalAst.ReplayAppend` | internal/parse/ast.go:274-284 | replaying two sequences one after the other is resuming the second after the first |
| `InternalAst.Walk` | internal/parse/ast.go:274-284 | `Walk` visits a node before its children, children left to right, and stops at the first error: it is the replay of the pre-order sequence |
| `InternalAst.WalkAll` | internal/parse/ast.go:278-282 | walking a list of children is replaying their concatenated pre-order sequences |
| `InternalAst.WalkVisitsAll` | internal/parse/ast.go:274-284 | if no visit fails, every node is visited exactly once, in pre-order |
| `InternalAst.ReplayFirstError` | internal/parse/ast.go:275-281 | with a stateless visitor, every node before the last visited passes, the error is the last visited node's, and success means every node passes |
| `InternalAst.ParentExpression.Value` | internal/parse/ast.go:42-44 | a parent's children are the ones it holds |
| `InternalAst.ParentExpression.constructor` | internal/parse/ast.go:37-39 | a new parent has no children |
| `InternalAst.ParentExpression.AppendExpression` | internal/parse/ast.go:65-67 | the child is added at the end, the earlier children are unchanged, the parent's begin is kept and its end becomes the child's |
| `Errors.ShortUnescape` | errors.go:20 | a short escape letter maps back to the rune it escapes |
| `Errors.HexValue` | errors.go:20 | a hexadecimal digit maps back to its value |
| `Errors.ParseHexOfHex` | errors.go:20 | a fixed-width hexadecimal numeral reads back as its value |
| `Errors.Quote` | errors.go:20 | `%q` yields a string between double quotes |
| `Errors.UnescapeEscape` | errors.go:20 | unescaping an escaped name gives the name back |
| `Errors.UnquoteQuote` | errors.go:20 | unquoting a quoted name gives the name back |
| `Errors.Message` | errors.go:19-59 | the three messages, exactly as formatted, around the quoted name |
| `Errors.FramedOf` | errors.go:19-21 | the name can be read back from between a message's fixed prefix and suffix |
| `Errors.MessageRoundTrip` | errors.go:14-59 | an error's kind and name can be recovered from its message, so each constructor stores exactly the name it is given |
| `Errors.MessageInjective` | errors.go:8-59 | two errors with the same message are the same error: the kinds are distinct even with the same name |
| `Binder.TypesFor` | statement.go:69-88 | the type table of the arguments, starting empty (no contract of its own; `TypesForSuccess` and `TypesForFailure` state what it gives) |
| `Binder.Visit` | statement.go:97-106 | the closure `interpret` walks with: annotations are checked by `ValidateExpressionType`, other nodes pass (no contract of its own; `ReplayVisit` states what walking with it gives) |
| `Binder.TypesForStatement` | statement.go:69-88 | the loop's result is `TypesFor` of the arguments |
| `Binder.TypesFromSucceeds` | statement.go:73-87 | building the table succeeds iff every argument reflects and their names are distinct and new |
| `Binder.TypesFromTable` | statement.go:73-87 | on success the table keeps what it had and maps each reflected name to its info, one entry per argument |
| `Binder.TypesForSuccess` | statement.go:71-87 | success iff every argument reflects and the names are distinct; then one entry per argument, keyed by its reflected name |
| `Binder.TypesFromFailure` | statement.go:74-82 | the first reflection error is returned unchanged; the first name already seen gives `TypeNameNotUnique` of that name |
| `Binder.TypesForFailure` | statement.go:74-82 | the same for a statement's arguments, starting from the empty table |
| `Binder.ValidateExpressionType` | statement.go:127-137 | an absent name gives `TypeInfoNotPresent` of it with `seen` unchanged; a present one is added to `seen` |
| `Binder.FirstMissing` | statement.go:98-111 | no missing name iff every annotation name is a key; otherwise a used name that is not a key |
| `Binder.ReplayVisit` | statement.go:98-111 | walking with the visitor reports `TypeInfoNotPresent` for the first annotation in pre-order with a missing name, else succeeds having seen every annotation name |
| `Binder.Interpret` | statement.go:94-122 | the first missing annotation type is reported; otherwise an unused supplied type is; success iff the annotation names are exactly the supplied names |
| `Binder.ExampleNames` | statement.go:94-122 | for `&Person.*` and `$address.id` the names are `Person` and `address`, and with only `Person` supplied `address` is reported |
| `Binder.Prepare` | statement.go:28-50 | parse errors first, then table errors, then interpretation's: the first annotation in pre-order whose type is missing, or else a supplied type no annotation uses; success iff all pass, holding exactly the parsed tree and the table |
| `ParseToken.SeparatorToken` | parse/token.go:57-63 | kind SEPARATOR, literal one space, the given position |
| `ParseToken.MaybeRuneToken` | parse/token.go:68-79 | succeeds exactly for the eleven runes, with the mapped kind, the rune as literal and the given position; otherwise the zero token and false |
| `ParseToken.RuneTokensInjective` | parse/token.go:81-93 | distinct runes map to distinct kinds |
| `ParseToken.RuneTokenKinds` | parse/token.go:81-93 | no table kind is one that carries text |
| `ParseToken.DigitIsNotRuneToken` | parse/token.go:69-72 | `'6'` gives the zero token and false |
| `ParseLexer.PositionAt` | parse/lexer.go:52-57 | the position has the rune offset and no column |
| `ParseLexer.LineOfRune` | parse/lexer.go:171-183 | lines are zero-based: a rune's line is the number of newlines before it |
| `ParseLexer.SkipEnd` | parse/lexer.go:37-39 | the whitespace loop passes only white space and stops at the first rune that is not |
| `ParseLexer.IdentEnd` | parse/lexer.go:103-111 | an identifier runs over letters, `_`, digits and `-` |
| `ParseLexer.NumberEnd` | parse/lexer.go:156-165 | the number loop passes digits and dots, stopping before a dot that is followed by another dot |
| `ParseLexer.StringEndShape` | parse/lexer.go:113-147 | a string ends with the first later quote followed by a space, newline, zero, `;`, `,` or `)`, or just before a zero rune, which is consumed |
| `ParseLexer.Scan` | parse/lexer.go:33-50 | the position is that of the rune under the cursor; EOF exactly at the zero rune, without moving; any other token moves the cursor |
| `ParseLexer.Lexer.constructor` | parse/lexer.go:25-29 | the lexer holds the trimmed runes and is primed on the first |
| `ParseLexer.Lexer.NextChar` | parse/lexer.go:171-183 | the cursor moves one rune on, the zero rune past the end, and the line counter counts the newlines read |
| `ParseLexer.Lexer.PeekN` | parse/lexer.go:192-197 | the rune `n` places after the cursor, or zero |
| `ParseLexer.Lexer.Peek` | parse/lexer.go:186-188 | the rune after the cursor, or zero |
| `ParseLexer.Lexer.Position` | parse/lexer.go:52-57 | the rune offset and zero-based line of the rune under the cursor |
| `ParseLexer.Lexer.SkipWhitespace` | parse/lexer.go:61-68 | true and one rune further exactly when the current rune is white space |
| `ParseLexer.Lexer.NextToken` | parse/lexer.go:33-50 | the token and new cursor are those of `Scan` |
| `ParseLexer.Lexer.ReadToken` | parse/lexer.go:70-99 | (corrected; see Findings) the token and new cursor are those of `ReadTokenAt` |
| `ParseLexer.ReadTokenAt` | parse/lexer.go:70-99 | (corrected; see Findings) `readToken`'s branches in the source's order: EOF at the zero rune, then number, identifier, string, and otherwise a one-rune UNKNOWN token |
| `ParseLexer.UnknownTokenAsWritten` | parse/lexer.go:94-98 | as written, the UNKNOWN token holds the rune after the unrecognised one |
| `ParseLexer.Lexer.ReadIdentifier` | parse/lexer.go:103-111 | the literal is the input from the start to where `IdentEnd` stops |
| `ParseLexer.Lexer.ReadString` | parse/lexer.go:113-147 | the literal and new cursor are those `StringEnd` gives |
| `ParseLexer.Lexer.ReadNumber` | parse/lexer.go:150-167 | the literal is the input from the first digit to where `NumberEnd` stops |
| `ParseLexer.SeparatorPerRun` | parse/lexer.go:33-42 | a run of white space gives exactly one SEPARATOR, positioned at its start, and the next token is not a separator |
| `ParseLexer.EofRepeats` | parse/lexer.go:74-76 | EOF comes exactly at the zero rune, without moving, so it repeats at the same position |
| `ParseLexer.RuneTokenConsumesOne` | parse/lexer.go:44-47 | a single-rune token consumes exactly its rune |
| `ParseLexer.SingleQuoteExample` | parse/lexer_test.go:10-13 | the apostrophe is a single quote and the double quote is not |
| `ParseLexer.IsSingleQuote` | parse/lexer.go:210-212 | rune 39, the apostrophe (no contract of its own; `SingleQuoteExample` states it) |
| `ParseLexer.LiteralIsSlice` | parse/lexer.go:70-99 | (corrected; see Findings) apart from EOF and SEPARATOR, a token's literal is the input at its offset |
| `ParseLexer.IdentShape` | parse/lexer.go:103-111 | an identifier starts with a letter or `_` and runs over letters, digits, `_` and `-` to the first other rune |
| `ParseLexer.NumberShape` | parse/lexer.go:150-167 | a number takes its first digit, then digits and dots, stopping only before a non-number rune or a `..` |
| `ParseLexer.StringShape` | parse/lexer.go:113-147 | a string keeps its opening quote and ends with the first later quote before a delimiter, or holds what was gathered up to the end |
| `ParseLexer.UnknownLiteralAsWritten` | parse/lexer.go:94-98 | as written, `#a` gets the UNKNOWN literal `a`, which is not the input at the token's offset |
| `ParseLexer.UnknownLiteralCorrected` | parse/lexer.go:94-98 | corrected, `#a` starts with the one-rune UNKNOWN token `#` |
| `ParseParser.Precedence` | parse/parser.go:187-193 | HIGHEST exactly for `]`, `.` and `)`, LOWEST otherwise |
| `ParseParser.Prefix` | parse/parser.go:53-65 | no prefix function exactly for UNKNOWN, EOF, SEPARATOR, `[`, `]` and `.`; an identity for `*`, `=`, identifiers, numbers, `;`, strings, `)` and `,`; annotations for `&` and `$`; a group for `(` |
| `ParseParser.ParseIndex` | parse/parser.go:175-180 | a pass-through of the left expression and an identity for the current token |
| `ParseParser.Advance` | parse/parser.go:182-185 | the lookahead becomes current and the lexer gives the next lookahead; the parser state stays consistent and the cursor never moves back |
| `ParseParser.Start` | parse/parser.go:74-77 | after construction the current token is the first token and the lookahead the second |
| `ParseParser.Infix` | parse/parser.go:110-122 | the infix loop leaves the prefix result and cursor alone at LOWEST or HIGHEST precedence; below LOWEST it wraps once per `[` |
| `ParseParser.Expr` | parse/parser.go:100-123 | no prefix function: nothing, without moving; otherwise a node; the cursor never moves back |
| `ParseParser.TypeMapping` | parse/parser.go:125-147 | the marker is the current token and the cursor moves forward |
| `ParseParser.Group` | parse/parser.go:162-173 | (corrected; see Findings) a group of columns that ends on `)` or on EOF, with the cursor moved forward |
| `ParseParser.Columns` | parse/parser.go:166-171 | (corrected; see Findings) earlier columns are kept; the loop stops on `)` or on EOF, earlier messages are kept, and the loop adds no message other than the missing-parenthesis one |
| `ParseParser.ColumnsAtEof` | parse/parser.go:166-171 | (corrected; see Findings) when the loop stops on EOF, the last message recorded is the missing-parenthesis one |
| `ParseParser.ColumnAtEof` | parse/parser.go:167-170 | on EOF one pass of the loop body adds an absent column and leaves the window where it is |
| `ParseParser.Column` | parse/parser.go:167-170 | a comma adds no column; any other token adds the expression parsed there |
| `ParseParser.ColumnsAsWritten` | parse/parser.go:166-171 | as written, the loop can finish only on `)` |
| `ParseParser.GroupAsWritten` | parse/parser.go:162-173 | as written, a group can finish only on `)` |
| `ParseParser.Statement` | parse/parser.go:88-91 | one child per top-level expression until the current token is EOF, earlier children kept |
| `ParseParser.RunFrom` | parse/parser.go:83-98 | a failure exactly when messages were recorded, holding them joined by newlines |
| `ParseParser.Parse` | parse/parser.go:83-98 | (corrected; see Findings) every failure consists of missing-parenthesis messages |
| `ParseParser.IdentityDoesNotAdvance` | parse/parser.go:149-160 | identifiers, numbers, strings, `*`, `=`, `;`, `)` and `,` give one identity holding the current token, without moving |
| `ParseParser.TypeMappingSkipsAnyTwo` | parse/parser.go:125-147 | the name and field are parsed two tokens apart, and the token between them (meant to be the period) is never checked |
| `ParseParser.EmptyStatement` | parse/parser.go:83-98 | the empty statement parses to no children and no error |
| `ParseParser.ColumnsAsWrittenStuckAtEof` | parse/parser.go:166-171 | as written, once the group loop is on EOF it never finishes, whatever the fuel |
| `ParseParser.UnclosedGroupAsWritten` | parse/parser.go:162-173 | as written, `(` then an identifier then the end never finishes |
| `ParseParser.UnclosedGroupCorrected` | parse/parser.go:162-173 | corrected, it gives the group of that identifier and records one message |
| `ParseParser.UnclosedGroupInput` | parse/parser.go:74-77 | the statement `(a` starts with `(` and an identifier, then ends |
| `ParseParser.UnclosedGroupStatement` | parse/parser.go:83-98 | (corrected; see Findings) a statement that is such an unclosed group fails with the one message |
| `ParseParser.UnclosedGroupFails` | parse/parser.go:162-173 | parsing `(a` does not finish as written, and fails with the missing-parenthesis message once corrected |
| `ParseParser.Parser.constructor` | parse/parser.go:45-79 | the window holds the lexer's first two tokens |
| `ParseParser.Parser.NextToken` | parse/parser.go:182-185 | the new state is `Advance` of the old one |
| `ParseParser.Parser.ParseExpression` | parse/parser.go:100-123 | the node and new state are those of `Expr` |
| `ParseParser.Parser.ParseTypeMapping` | parse/parser.go:125-147 | the marker, name, field and new state are those of `TypeMapping` |
| `ParseParser.Parser.ParseGroup` | parse/parser.go:162-173 | (corrected; see Findings) the group and new state are those of `Group` |
| `ParseParser.Parser.Run` | parse/parser.go:83-98 | the result and new state are those of `RunFrom` |
| `ParseAst.ElementPos` | parse/ast.go:150-152 | an element starts at its token's position |
| `ParseAst.ElementEnd` | parse/ast.go:155-161 | an element ends on its token's line, at its column plus the literal's rune count, with offset zero |
| `ParseAst.ElementSpansString` | parse/ast.go:150-166 | an element ends on the line it starts on, as many columns on as its rendering has runes |
| `ParseAst.Pos` | parse/ast.go:33-122 | a query or pass-through starts at its first part, or at the zero position when empty; an annotation at its marker (no contract of its own; `PositionsOfElements` states what it means) |
| `ParseAst.End` | parse/ast.go:41-130 | a query or pass-through ends where its last part ends, or at the zero position when empty; an annotation where its columns element ends (no contract of its own; `PositionsOfElements` states what it means) |
| `ParseAst.String` | parse/ast.go:49-140 | every expression renders as its parts with nothing between them (no contract of its own; `StringIsLiterals` and the append lemmas state what it means) |
| `ParseAst.ElementString` | parse/ast.go:164-166 | an element renders as its token's literal |
| `ParseAst.LiteralsAppend` | parse/ast.go:132-140 | rendering a run of elements distributes over concatenation |
| `ParseAst.LiteralsOfFour` | parse/ast.go:79-81 | an annotation's four elements render one after another |
| `ParseAst.StringIsLiterals` | parse/ast.go:49-57 | every expression renders as the literals of its elements, concatenated with no separator |
| `ParseAst.StringAllIsLiterals` | parse/ast.go:49-57 | a list of expressions renders as the literals of all their elements |
| `ParseAst.QueryStringAppend` | parse/ast.go:49-57 | a query's rendering distributes over concatenation of its expressions |
| `ParseAst.PassthroughStringAppend` | parse/ast.go:132-140 | a pass-through's rendering distributes over concatenation of its elements |
| `ParseAst.EmptyParts` | parse/ast.go:33-46 | an empty query or pass-through renders as nothing and sits at the zero position |
| `ParseAst.ElementsAllEnds` | parse/ast.go:116-129 | the elements of a list of expressions start with the first one's and end with the last one's |
| `ParseAst.PositionsOfElements` | parse/ast.go:33-46 | without empty parts, an expression starts at its first element and ends where its last element ends |

## Left out

- Reflection (`reflect/info.go`, the type cache and its concurrency): an argument's reflection is a parameter `reflect: A -> Result<Info, Error>` of `Binder.TypesFor` and `Binder.Prepare`.
- `internal/parse/parser.go` is a stub that returns no tree; `Binder.Prepare` takes the parse step as a parameter.
- `Runes.IsLetter` and `Runes.IsDigit` cover ASCII only; the letters and digits that Go's `unicode` tables add above ASCII are not modelled.
- `Runes.Width` assumes valid UTF-8: the input is a sequence of Unicode scalar values, so the replacement rune Go decodes from invalid bytes is not modelled.
- `Errors.Quote` escapes as `strconv.Quote` does up to Latin-1; runes above Latin-1 are written as themselves, where Go would escape the non-printable ones.
- `Binder.Interpret` leaves open which unused type it reports, because Go's map iteration order is unspecified.
- `Binder.ValidateExpressionType` keeps `seen` as a set; Go's `map[string]bool` only ever holds `true`.
- `InternalAst.ParentExpression` holds children as values, so two parents sharing a child (Go pointers) is not modelled.
- `ParseParser.RunFrom` omits the `fmt.Println` on an empty statement, and takes the joined messages as the error text without the format-string interpretation of `fmt.Errorf`.
- `ParseLexer.Lexer.ReadToken` gives an UNKNOWN token the unrecognised rune itself; the source moves on first and gives it the rune after (see Findings).
- `ParseLexer.ReadTokenAt` gives the corrected UNKNOWN literal, as `ParseLexer.Lexer.ReadToken` does.
- `ParseLexer.Scan` gives the corrected UNKNOWN literal, as `ParseLexer.Lexer.ReadToken` does.
- `ParseLexer.LiteralIsSlice` holds only of the corrected lexer; in the source an UNKNOWN token's literal is the rune after its offset, not the input at it.
- `ParseParser.Group` stops at EOF and records a missing-parenthesis message; the source's group loop never ends there (see Findings), and the message text is this model's own.
- `ParseParser.Columns` records a message at EOF and stops; the source never stops there (see Findings).
- `ParseParser.Parser.ParseGroup` runs the corrected loop of `ParseParser.Group`, so it ends at EOF where the source loops forever.
- `ParseParser.ColumnsAtEof` is about the message that only the corrected loop records; the source records none.
- `ParseParser.Parse` can fail only through the corrected group's message; the source's `Run` never fails, because nothing appends to `Parser.errors`.
- `ParseParser.UnclosedGroupStatement` fails only with the corrected loop; as written, parsing `(a` never ends (`ParseParser.UnclosedGroupAsWritten`).
- `ParseParser.Expr`, `ParseParser.Statement`, `ParseParser.RunFrom`, `ParseParser.Parser.ParseExpression` and `ParseParser.Parser.Run` reach groups through the corrected loop, so they finish on unclosed groups where the source does not.

## Findings

| source | as written | input that shows it | evidently intended | confidence | as-written member | corrected member |
|---|---|---|---|---|---|---|
| parse/lexer.go:94-98 | `nextChar` runs before the UNKNOWN literal is taken, so the literal is the rune after the unrecognised one | `#a` gives UNKNOWN with literal `a` at offset 0 | the literal is the unrecognised rune itself, `#`, as every other token's literal is the input at its offset | high, not executed | `ParseLexer.UnknownTokenAsWritten`, `ParseLexer.UnknownLiteralAsWritten` | `ParseLexer.Lexer.ReadToken`, `ParseLexer.UnknownLiteralCorrected`, `ParseLexer.LiteralIsSlice` |
| parse/parser.go:162-173 | the group loop stops only at `)`; at EOF the window stays on EOF and the loop appends absent columns forever | `(a` | stop at EOF as well and record a missing-parenthesis message, so `Run` returns an error | high, not executed | `ParseParser.ColumnsAsWritten`, `ParseParser.UnclosedGroupAsWritten`, `ParseParser.UnclosedGroupFails` | `ParseParser.Columns`, `ParseParser.ColumnsAtEof`, `ParseParser.Parser.ParseGroup`, `ParseParser.UnclosedGroupCorrected`, `ParseParser.UnclosedGroupFails` |
