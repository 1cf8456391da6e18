/**
 * The older generation's Pratt parser (`parse/parser.go`). A parser holds the
 * lexer, the accumulated error messages and a two-token window (`current` and
 * `peek`). The prefix table decides what a token starts, the only infix entry
 * is `[`, and the precedence table gives `]`, `.` and `)` the higher level.
 *
 * Because the lexer's whole state is determined by its offset (see
 * `ParseLexer.Lexer.Valid`), a parser state is the value `State(current, peek,
 * offset, errors)`. The pure functions below say what each parsing routine does
 * to such a value, and the class `Parser` is proved against them.
 */
module ParseParser {
  import opened Wrappers
  import opened Runes
  import opened ParseToken
  import opened ParseLexer

  // ---------------------------------------------------------------------------
  // Tables

  /** The two precedence levels, `LOWEST` and `HIGHEST`. */
  const Lowest: int := 0
  const Highest: int := 1

  /** `Precedence`: HIGHEST for `]`, `.` and `)`, LOWEST for every other kind. */
  function Precedence(t: Token): (p: int)
    ensures p == Highest <==> t.kind in {RBracket, Period, RParen}
    ensures p == Lowest <==> t.kind !in {RBracket, Period, RParen}
  {
    if t.kind in {RBracket, Period, RParen} then Highest else Lowest
  }

  /** The prefix functions: `parseIdent`, `parseString` and `parseInteger` all build an identity. */
  datatype PrefixFn = IdentityPrefix | OutputPrefix | InputPrefix | GroupPrefix

  /** The prefix table. */
  function Prefix(k: TokenType): (f: Option<PrefixFn>)
    ensures f == None <==> k in {Unknown, Eof, Separator, LBracket, RBracket, Period}
    ensures f == Some(IdentityPrefix) <==> k in {Asterisk, Equal, Ident, Int, Semicolon, String, RParen, Comma}
    ensures f == Some(OutputPrefix) <==> k == BitAnd
    ensures f == Some(InputPrefix) <==> k == Dollar
    ensures f == Some(GroupPrefix) <==> k == LParen
  {
    match k
    case Asterisk | Equal | Ident | Int | Semicolon | String | RParen | Comma => Some(IdentityPrefix)
    case BitAnd => Some(OutputPrefix)
    case Dollar => Some(InputPrefix)
    case LParen => Some(GroupPrefix)
    case _ => None
  }

  /** The infix table has one entry, `[`. */
  predicate HasInfix(k: TokenType) {
    k == LBracket
  }

  // ---------------------------------------------------------------------------
  // The nodes the parser builds

  /**
   * The expression nodes built by the parser. An absent expression (Go's nil)
   * is `None`; grouped columns and annotations can hold one.
   */
  datatype Node =
    | Identity(token: Token)
    | OutputTarget(marker: Token, name: Option<Node>, field: Option<Node>)
    | InputSource(marker: Token, name: Option<Node>, field: Option<Node>)
    | GroupedColumns(columns: seq<Option<Node>>)
    | PassThrough(parts: seq<Node>)

  /** The statement: one entry per top-level call of `parseExpression`. */
  datatype SQLExpression = SQLExpression(children: seq<Option<Node>>)

  /** `parseIndex`: the left expression followed by an identity for the current token. */
  function ParseIndex(left: Node, t: Token): (n: Node)
    ensures n.PassThrough? && |n.parts| == 2
    ensures n.parts[0] == left && n.parts[1].Identity? && n.parts[1].token == t
  {
    PassThrough([left, Identity(t)])
  }

  /** The message recorded for a group that the input ends inside. */
  const MissingParen := "expected closing parenthesis"

  // ---------------------------------------------------------------------------
  // Parser states

  datatype State = State(current: Token, peek: Token, offset: nat, errors: seq<string>)

  /**
   * The states a parser can be in: the lexer offset within bounds, an EOF
   * lookahead only once the lexer sits on the zero rune, and an EOF current
   * token only behind an EOF lookahead.
   */
  predicate Good(input: string, s: State) {
    && s.offset <= |input| + 1
    && (s.peek.kind == Eof ==> CharAt(input, s.offset) == NUL)
    && (s.current.kind == Eof ==> s.peek.kind == Eof)
  }

  /** A measure that no step increases and every step off a non-EOF token decreases. */
  function Progress(input: string, s: State): nat
    requires s.offset <= |input| + 1
  {
    2 * (|input| + 1 - s.offset)
    + (if s.peek.kind != Eof then 1 else 0)
    + (if s.current.kind != Eof then 1 else 0)
  }

  /**
   * `NextToken`: the lookahead becomes the current token and the lexer yields
   * the next lookahead. It keeps a state good, never increases the measure, and
   * decreases it when the current token is not EOF.
   */
  function Advance(input: string, s: State): (t: State)
    requires s.offset <= |input| + 1
    ensures t.current == s.peek && (t.peek, t.offset) == Scan(input, s.offset) && t.errors == s.errors
    ensures t.offset <= |input| + 1
    ensures (s.peek.kind == Eof ==> CharAt(input, s.offset) == NUL) ==> Good(input, t)
    ensures Progress(input, t) <= Progress(input, s)
    ensures s.current.kind != Eof ==> Progress(input, t) < Progress(input, s)
  {
    var (tok, next) := Scan(input, s.offset);
    State(s.peek, tok, next, s.errors)
  }

  /** `NewParser` on a fresh lexer: two calls of `NextToken` from the zero tokens. */
  function Start(input: string): (s: State)
    ensures Good(input, s) && s.errors == []
    ensures s.current == Scan(input, 0).0
    ensures s.peek == Scan(input, Scan(input, 0).1).0
  {
    Advance(input, Advance(input, State(ZeroToken, ZeroToken, 0, [])))
  }

  /** Every message a parse can record is the missing-parenthesis message. */
  predicate OnlyMissingParen(errors: seq<string>) {
    forall k :: 0 <= k < |errors| ==> errors[k] == MissingParen
  }

  // ---------------------------------------------------------------------------
  // Specification of the parsing routines

  /**
   * The infix loop of `parseExpression`: while the lookahead binds tighter than
   * `prec` and has an infix function, move onto it and wrap `left`. Only `[` has
   * one and its precedence is LOWEST, so the loop does nothing unless `prec` is
   * below LOWEST; otherwise it wraps once per `[` and stops before a token that
   * is not `[`.
   */
  function Infix(input: string, s: State, prec: int, left: Node): (r: (Node, State))
    requires Good(input, s)
    ensures Good(input, r.1) && r.1.errors == s.errors
    ensures Progress(input, r.1) < Progress(input, s) || r.1 == s
    ensures prec >= Lowest ==> r == (left, s)
    ensures prec < Lowest ==> r.1.peek.kind != LBracket
    ensures prec < Lowest && s.peek.kind == LBracket ==>
      && r.0.PassThrough? && |r.0.parts| == 2
      && r.0.parts[1].Identity? && r.0.parts[1].token.kind == LBracket
    decreases Progress(input, s)
  {
    if prec < Precedence(s.peek) && HasInfix(s.peek.kind) then
      var t := Advance(input, s);
      Infix(input, t, prec, ParseIndex(left, t.current))
    else (left, s)
  }

  /**
   * `parseExpression(prec)`: nothing, without moving, when the current kind has
   * no prefix function; otherwise the prefix function's node, passed through the
   * infix loop. The result never moves the cursor backwards, and leaves the
   * state exactly as it was unless it moves forward.
   */
  function Expr(input: string, s: State, prec: int): (r: (Option<Node>, State))
    requires Good(input, s)
    ensures Good(input, r.1) && s.errors <= r.1.errors
    ensures OnlyMissingParen(s.errors) ==> OnlyMissingParen(r.1.errors)
    ensures Progress(input, r.1) < Progress(input, s) || r.1 == s
    ensures r.0 == None <==> Prefix(s.current.kind) == None
    ensures Prefix(s.current.kind) == None ==> r.1 == s
    decreases Progress(input, s), 1
  {
    match Prefix(s.current.kind)
    case None => (None, s)
    case Some(f) =>
      var lt: (Node, State) :=
        if f == IdentityPrefix then (Identity(s.current), s)
        else if f == GroupPrefix then Group(input, s)
        else
          var (m, n, fd, t) := TypeMapping(input, s);
          (if f == OutputPrefix then OutputTarget(m, n, fd) else InputSource(m, n, fd), t);
      var (e, u) := Infix(input, lt.1, prec, lt.0);
      (Some(e), u)
  }

  /**
   * `parseOutputTarget` and `parseInputSource`: keep the marker, move on and
   * parse the name, skip two tokens whatever they are, and parse the field.
   */
  function TypeMapping(input: string, s: State): (r: (Token, Option<Node>, Option<Node>, State))
    requires Good(input, s) && s.current.kind in {BitAnd, Dollar}
    ensures r.0 == s.current
    ensures Good(input, r.3) && s.errors <= r.3.errors
    ensures OnlyMissingParen(s.errors) ==> OnlyMissingParen(r.3.errors)
    ensures Progress(input, r.3) < Progress(input, s)
    decreases Progress(input, s), 0
  {
    var s1 := Advance(input, s);
    var (name, s2) := Expr(input, s1, Precedence(s1.current));
    var s3 := Advance(input, Advance(input, s2));
    var (field, s4) := Expr(input, s3, Precedence(s3.current));
    (s.current, name, field, s4)
  }

  /** `parseGroup`, with the loop also stopping at EOF: skip `(`, then the columns. */
  function Group(input: string, s: State): (r: (Node, State))
    requires Good(input, s) && s.current.kind == LParen
    ensures r.0.GroupedColumns?
    ensures r.1.current.kind in {RParen, Eof}
    ensures Good(input, r.1) && s.errors <= r.1.errors
    ensures OnlyMissingParen(s.errors) ==> OnlyMissingParen(r.1.errors)
    ensures Progress(input, r.1) < Progress(input, s)
    decreases Progress(input, s), 0
  {
    Columns(input, Advance(input, s), [])
  }

  /**
   * The loop of `parseGroup`: one column, possibly absent, per token that is not
   * a comma, until `)`. At EOF it stops and records `MissingParen`, leaving the
   * cursor on EOF; at `)` it records nothing and leaves the cursor on `)`.
   */
  function Columns(input: string, s: State, columns: seq<Option<Node>>): (r: (Node, State))
    requires Good(input, s)
    ensures r.0.GroupedColumns? && columns <= r.0.columns
    ensures r.1.current.kind in {RParen, Eof}
    ensures Good(input, r.1) && s.errors <= r.1.errors
    ensures OnlyMissingParen(s.errors) ==> OnlyMissingParen(r.1.errors)
    ensures Progress(input, r.1) <= Progress(input, s)
    decreases Progress(input, s), 3
  {
    if s.current.kind == RParen then (GroupedColumns(columns), s)
    else if s.current.kind == Eof then (GroupedColumns(columns), s.(errors := s.errors + [MissingParen]))
    else
      var (cs, t) := Column(input, s, columns);
      var u := Advance(input, t);
      assert Good(input, u) && Progress(input, u) < Progress(input, s);
      Columns(input, u, cs)
  }

  /** `after` holds more messages than `before`, the last one the missing-parenthesis message. */
  predicate RecordedMissingParen(before: seq<string>, after: seq<string>) {
    |after| > |before| && after[|after| - 1] == MissingParen
  }

  /** When the group loop stops at EOF it has recorded the missing-parenthesis message last. */
  lemma {:induction false} ColumnsAtEof(input: string, s: State, columns: seq<Option<Node>>)
    requires Good(input, s)
    ensures Columns(input, s, columns).1.current.kind == Eof ==>
      RecordedMissingParen(s.errors, Columns(input, s, columns).1.errors)
    decreases Progress(input, s)
  {
    if s.current.kind == Eof {
      var errors := s.errors + [MissingParen];
      assert Columns(input, s, columns).1.errors == errors;
      assert errors[|errors| - 1] == MissingParen;
    } else if s.current.kind != RParen {
      var (cs, t) := Column(input, s, columns);
      var u := Advance(input, t);
      assert Columns(input, s, columns) == Columns(input, u, cs);
      assert |s.errors| <= |u.errors|;
      ColumnsAtEof(input, u, cs);
    }
  }

  /** One pass of the loop of `parseGroup` before it moves on: a comma adds nothing, any other token one column. */
  function Column(input: string, s: State, columns: seq<Option<Node>>): (r: (seq<Option<Node>>, State))
    requires Good(input, s)
    ensures r.0 == if s.current.kind == Comma then columns else columns + [Expr(input, s, Lowest).0]
    ensures Good(input, r.1) && s.errors <= r.1.errors
    ensures OnlyMissingParen(s.errors) ==> OnlyMissingParen(r.1.errors)
    ensures s.current.kind != Eof ==> Progress(input, Advance(input, r.1)) < Progress(input, s)
    decreases Progress(input, s), 2
  {
    if s.current.kind == Comma then (columns, s)
    else
      var (c, t) := Expr(input, s, Lowest);
      (columns + [c], t)
  }

  /**
   * The loop of `parseGroup` as written, which stops only at `)`. It is given
   * `fuel` iterations and is `None` when they run out.
   */
  function ColumnsAsWritten(input: string, s: State, columns: seq<Option<Node>>, fuel: nat): (r: Option<(Node, State)>)
    requires Good(input, s)
    ensures r.Some? ==> r.value.1.current.kind == RParen && r.value.0.GroupedColumns?
    decreases fuel
  {
    if fuel == 0 then None
    else if s.current.kind == RParen then Some((GroupedColumns(columns), s))
    else
      var (cs, t) := Column(input, s, columns);
      ColumnsAsWritten(input, Advance(input, t), cs, fuel - 1)
  }

  /** `parseGroup` as written: skip `(`, then the loop that stops only at `)`. */
  function GroupAsWritten(input: string, s: State, fuel: nat): (r: Option<(Node, State)>)
    requires Good(input, s) && s.current.kind == LParen
    ensures r.Some? ==> r.value.1.current.kind == RParen && r.value.0.GroupedColumns?
  {
    ColumnsAsWritten(input, Advance(input, s), [], fuel)
  }

  /**
   * The loop of `Run`: one child, possibly absent, per top-level expression,
   * moving on after each, until the current token is EOF.
   */
  function Statement(input: string, s: State, children: seq<Option<Node>>): (r: (seq<Option<Node>>, State))
    requires Good(input, s)
    ensures children <= r.0 && r.1.current.kind == Eof
    ensures Good(input, r.1) && s.errors <= r.1.errors
    ensures OnlyMissingParen(s.errors) ==> OnlyMissingParen(r.1.errors)
    decreases Progress(input, s)
  {
    if s.current.kind == Eof then (children, s)
    else
      var (c, t) := Expr(input, s, Lowest);
      Statement(input, Advance(input, t), children + [c])
  }

  /**
   * `Run`: the statement, or the recorded messages joined by newlines when
   * there are any.
   */
  function RunFrom(input: string, s: State): (r: (Result<SQLExpression, string>, State))
    requires Good(input, s)
    ensures r.0.Failure? <==> r.1.errors != []
    ensures r.0.Failure? ==> r.0.error == Join("\n", r.1.errors)
    ensures r.1.current.kind == Eof && s.errors <= r.1.errors
  {
    var (children, t) := Statement(input, s, []);
    if |t.errors| > 0 then (Failure(Join("\n", t.errors)), t)
    else (Success(SQLExpression(children)), t)
  }

  /** `NewParser(NewLexer(stmt)).Run()`. Every failure consists of missing-parenthesis messages. */
  function Parse(stmt: string): (r: Result<SQLExpression, string>)
    ensures r.Failure? ==> exists errors :: errors != [] && OnlyMissingParen(errors) && r.error == Join("\n", errors)
  {
    var input := TrimSpace(stmt);
    var (res, t) := RunFrom(input, Start(input));
    assert res.Failure? ==> t.errors != [] && OnlyMissingParen(t.errors) && res.error == Join("\n", t.errors);
    res
  }

  // ---------------------------------------------------------------------------
  // Properties of the parsing routines

  /**
   * At LOWEST or HIGHEST precedence an identity-making token yields one
   * identity holding it, and the cursor does not move.
   */
  lemma IdentityDoesNotAdvance(input: string, s: State, prec: int)
    requires Good(input, s) && prec >= Lowest
    requires s.current.kind in {Asterisk, Equal, Ident, Int, Semicolon, String, RParen, Comma}
    ensures Expr(input, s, prec) == (Some(Identity(s.current)), s)
  {
  }

  /**
   * `parseOutputTarget` and `parseInputSource` never look at the token between
   * the name and the field: with identity-making tokens for the name and for the
   * token two places after it, the name and the field are those two identities,
   * whatever the token in between is.
   */
  lemma TypeMappingSkipsAnyTwo(input: string, s: State)
    requires Good(input, s) && s.current.kind in {BitAnd, Dollar}
    requires Prefix(s.peek.kind) == Some(IdentityPrefix)
    requires Prefix(Scan(input, Scan(input, s.offset).1).0.kind) == Some(IdentityPrefix)
    ensures TypeMapping(input, s).0 == s.current
    ensures TypeMapping(input, s).1 == Some(Identity(s.peek))
    ensures TypeMapping(input, s).2 == Some(Identity(Scan(input, Scan(input, s.offset).1).0))
  {
    var s1 := Advance(input, s);
    IdentityDoesNotAdvance(input, s1, Precedence(s1.current));
    var s3 := Advance(input, Advance(input, s1));
    IdentityDoesNotAdvance(input, s3, Precedence(s3.current));
  }

  /** The empty statement parses to a statement with no children and no error. */
  lemma EmptyStatement()
    ensures Parse("") == Success(SQLExpression([]))
  {
    assert TrimSpace("") == "";
    assert Start("").current.kind == Eof;
  }

  /** On EOF one pass of the group loop adds an absent column and does not move. */
  lemma ColumnAtEof(input: string, s: State, columns: seq<Option<Node>>)
    requires Good(input, s) && s.current.kind == Eof
    ensures Column(input, s, columns) == (columns + [None], s)
  {
    assert Expr(input, s, Lowest) == (None, s);
  }

  /**
   * As written, once the loop of `parseGroup` is on EOF it never leaves it: no
   * amount of fuel lets it finish.
   */
  lemma {:induction false} ColumnsAsWrittenStuckAtEof(input: string, s: State, columns: seq<Option<Node>>, fuel: nat)
    requires Good(input, s) && s.current.kind == Eof
    ensures ColumnsAsWritten(input, s, columns, fuel) == None
    decreases fuel
  {
    if fuel > 0 {
      ColumnAtEof(input, s, columns);
      var u := Advance(input, s);
      assert ColumnsAsWritten(input, s, columns, fuel) == ColumnsAsWritten(input, u, columns + [None], fuel - 1);
      ColumnsAsWrittenStuckAtEof(input, u, columns + [None], fuel - 1);
    }
  }

  /**
   * As written, `parseGroup` never finishes on `(` followed by one identifier
   * and the end of the input, whatever the fuel.
   */
  lemma UnclosedGroupAsWritten(input: string, s: State, fuel: nat)
    requires Good(input, s) && s.current.kind == LParen && s.peek.kind == Ident
    requires Scan(input, s.offset).0.kind == Eof
    ensures GroupAsWritten(input, s, fuel) == None
  {
    var s1 := Advance(input, s);
    if fuel > 0 {
      IdentityDoesNotAdvance(input, s1, Lowest);
      var (cs, t) := Column(input, s1, []);
      assert t == s1;
      ColumnsAsWrittenStuckAtEof(input, Advance(input, t), cs, fuel - 1);
    }
  }

  /**
   * With the loop also stopping at EOF, the same input gives the group holding
   * the identifier, records one message and leaves the cursor on EOF.
   */
  lemma UnclosedGroupCorrected(input: string, s: State)
    requires Good(input, s) && s.current.kind == LParen && s.peek.kind == Ident
    requires Scan(input, s.offset).0.kind == Eof
    ensures Group(input, s).0 == GroupedColumns([Some(Identity(s.peek))])
    ensures Group(input, s).1.errors == s.errors + [MissingParen]
    ensures Group(input, s).1.current.kind == Eof
  {
    var s1 := Advance(input, s);
    IdentityDoesNotAdvance(input, s1, Lowest);
    var cs := [Some(Identity(s1.current))];
    assert s1.current.kind == Ident && Good(input, s1);
    assert Expr(input, s1, Lowest) == (Some(Identity(s1.current)), s1);
    assert [] + cs == cs;
    assert Column(input, s1, []) == (cs, s1);
    var s2 := Advance(input, s1);
    assert s2.current.kind == Eof;
    assert Columns(input, s2, cs) == (GroupedColumns(cs), s2.(errors := s2.errors + [MissingParen]));
    assert Columns(input, s1, []) == Columns(input, s2, cs);
  }

  /** `(a` has no white space to trim. */
  lemma UnclosedGroupTrimmed()
    ensures TrimSpace("(a") == "(a"
  {
    assert LeadingSpaces("(a") == 0;
    assert TrailingSpaces("(a") == 0;
  }

  /** The first token of `(a` is `(`. */
  lemma UnclosedGroupFirst()
    ensures Scan("(a", 0).0.kind == LParen && Scan("(a", 0).1 == 1
  {
    assert CharAt("(a", 0) == '(';
    assert SkipEnd("(a", 0) == 0;
  }

  /** The second token of `(a` is the identifier `a`, after which the input ends. */
  lemma UnclosedGroupSecond()
    ensures Scan("(a", 1).0.kind == Ident && Scan("(a", 1).1 == 2
    ensures Scan("(a", 2).0.kind == Eof
  {
    assert CharAt("(a", 1) == 'a';
    assert SkipEnd("(a", 1) == 1;
    assert IdentEnd("(a", 2) == 2;
    assert IdentEnd("(a", 1) == 2;
  }

  /** The statement `(a`: its first two tokens are `(` and an identifier, then the input ends. */
  lemma UnclosedGroupInput()
    ensures Start("(a").current.kind == LParen && Start("(a").peek.kind == Ident
    ensures Scan("(a", Start("(a").offset).0.kind == Eof
  {
    UnclosedGroupFirst();
    UnclosedGroupSecond();
  }

  /** A statement that is such a group fails with the one message. */
  lemma UnclosedGroupStatement(input: string, s: State)
    requires Good(input, s) && s.current.kind == LParen && s.peek.kind == Ident
    requires Scan(input, s.offset).0.kind == Eof && s.errors == []
    ensures RunFrom(input, s).0 == Failure(MissingParen)
  {
    UnclosedGroupCorrected(input, s);
    var g := Group(input, s);
    assert Expr(input, s, Lowest) == (Some(g.0), g.1);
    var t := Advance(input, g.1);
    assert t.current.kind == Eof && t.errors == [MissingParen];
    assert Statement(input, t, [Some(g.0)]) == ([Some(g.0)], t);
    assert Statement(input, s, []) == Statement(input, t, [] + [Some(g.0)]);
    assert Join("\n", [MissingParen]) == MissingParen;
  }

  /** So, as written, parsing `(a` does not terminate; corrected, it fails with the one message. */
  lemma UnclosedGroupFails(fuel: nat)
    ensures GroupAsWritten("(a", Start("(a"), fuel) == None
    ensures Parse("(a") == Failure(MissingParen)
  {
    UnclosedGroupTrimmed();
    UnclosedGroupInput();
    UnclosedGroupAsWritten("(a", Start("(a"), fuel);
    UnclosedGroupStatement("(a", Start("(a"));
  }

  // ---------------------------------------------------------------------------
  // The parser object

  class Parser {
    const lex: Lexer
    /** Accumulated error messages. */
    var errors: seq<string>
    var current: Token
    var peek: Token

    ghost function St(): State
      reads this, lex
    {
      State(current, peek, lex.offset, errors)
    }

    ghost predicate Valid()
      reads this, lex
    {
      lex.Valid() && Good(lex.input, St())
    }

    ghost function Remaining(): nat
      reads this, lex
      requires lex.Valid()
    {
      Progress(lex.input, St())
    }

    /** `NewParser`: fills the window with the lexer's first two tokens. */
    constructor (l: Lexer)
      requires l.Valid()
      modifies l
      ensures lex == l && Valid()
      ensures St() == Advance(l.input, Advance(l.input, State(ZeroToken, ZeroToken, old(l.offset), [])))
    {
      lex := l;
      errors := [];
      current, peek := ZeroToken, ZeroToken;
      new;
      NextToken();
      NextToken();
    }

    /** `NextToken`: shifts the window by one lexer token. */
    method NextToken()
      requires lex.Valid()
      modifies this, lex
      ensures lex.Valid()
      ensures St() == Advance(lex.input, old(St()))
    {
      current := peek;
      peek := lex.NextToken();
    }

    /** `parseExpression`: a prefix function for the current token, then the infix loop. */
    method ParseExpression(prec: int) returns (e: Option<Node>)
      requires Valid()
      modifies this, lex
      ensures Valid()
      ensures (e, St()) == Expr(lex.input, old(St()), prec)
      decreases Remaining(), 1
    {
      var f := Prefix(current.kind);
      if f.None? {
        return None;
      }

      var left: Node;
      match f.value {
        case IdentityPrefix =>
          left := Identity(current);
        case OutputPrefix =>
          var marker, name, field := ParseTypeMapping();
          left := OutputTarget(marker, name, field);
        case InputPrefix =>
          var marker, name, field := ParseTypeMapping();
          left := InputSource(marker, name, field);
        case GroupPrefix =>
          left := ParseGroup();
      }

      ghost var s1, left1 := St(), left;
      while prec < Precedence(peek)
        invariant Valid()
        invariant Infix(lex.input, St(), prec, left) == Infix(lex.input, s1, prec, left1)
        decreases Remaining()
      {
        if !HasInfix(peek.kind) {
          return Some(left);
        }
        NextToken();
        left := ParseIndex(left, current);
      }
      return Some(left);
    }

    /** `parseOutputTarget` / `parseInputSource`: the marker, the name, two skipped tokens, the field. */
    method ParseTypeMapping() returns (marker: Token, name: Option<Node>, field: Option<Node>)
      requires Valid() && current.kind in {BitAnd, Dollar}
      modifies this, lex
      ensures Valid()
      ensures (marker, name, field, St()) == TypeMapping(lex.input, old(St()))
      decreases Remaining(), 0
    {
      marker := current;
      NextToken();
      name := ParseExpression(Precedence(current));
      // The period is not checked: whatever the two tokens are, they are skipped.
      NextToken();
      NextToken();
      field := ParseExpression(Precedence(current));
    }

    /** `parseGroup`, stopping at EOF with a recorded message as well as at `)`. */
    method ParseGroup() returns (g: Node)
      requires Valid() && current.kind == LParen
      modifies this, lex
      ensures Valid()
      ensures (g, St()) == Group(lex.input, old(St()))
      decreases Remaining(), 0
    {
      NextToken();
      ghost var s0 := St();
      var columns: seq<Option<Node>> := [];
      while current.kind != RParen && current.kind != Eof
        invariant Valid()
        invariant Columns(lex.input, St(), columns) == Columns(lex.input, s0, [])
        invariant Remaining() < old(Remaining())
        decreases Remaining()
      {
        if current.kind != Comma {
          var c := ParseExpression(Lowest);
          columns := columns + [c];
        }
        NextToken();
      }
      if current.kind == Eof {
        errors := errors + [MissingParen];
      }
      g := GroupedColumns(columns);
    }

    /** `Run`: parse top-level expressions until EOF, then report the recorded messages if any. */
    method Run() returns (r: Result<SQLExpression, string>)
      requires Valid()
      modifies this, lex
      ensures Valid()
      ensures (r, St()) == RunFrom(lex.input, old(St()))
    {
      var children: seq<Option<Node>> := [];
      while current.kind != Eof
        invariant Valid()
        invariant Statement(lex.input, St(), children) == Statement(lex.input, old(St()), [])
        decreases Remaining()
      {
        var c := ParseExpression(Lowest);
        children := children + [c];
        NextToken();
      }
      if |errors| > 0 {
        return Failure(Join("\n", errors));
      }
      return Success(SQLExpression(children));
    }
  }
}
