/**
 * The older generation's syntax tree (`parse/ast.go`): queries made of
 * expressions, input and output annotations made of four elements, and
 * pass-through runs of elements, each with its rendering and positions.
 */
module ParseAst {
  import opened ParseToken

  /** One token inside an expression. */
  datatype Element = Element(token: Token)

  datatype Expression =
    | Query(expressions: seq<Expression>)
    /** `$Name.Cols` */
    | Input(dollar: Element, name: Element, period: Element, cols: Element)
    /** `&Name.Cols` */
    | Output(amp: Element, name: Element, period: Element, cols: Element)
    | Passthrough(elements: seq<Element>)
    /** An `Element` used directly as an expression. */
    | Single(element: Element)

  // ---------------------------------------------------------------------------
  // Elements

  /** `Element.Pos`. */
  function ElementPos(e: Element): (p: Position)
    ensures p == e.token.pos
  {
    e.token.pos
  }

  /**
   * `Element.End`: the token's line, its column advanced by the number of runes
   * of the literal, and a zero offset.
   */
  function ElementEnd(e: Element): (p: Position)
    ensures p.line == e.token.pos.line
    ensures p.column == e.token.pos.column + |e.token.literal|
    ensures p.offset == 0
  {
    Position(0, e.token.pos.line, e.token.pos.column + |e.token.literal|)
  }

  /** `Element.String`. */
  function ElementString(e: Element): (s: string)
    ensures s == e.token.literal
  {
    e.token.literal
  }

  /** An element spans its rendering: it ends on its line, as many runes on as it renders. */
  lemma ElementSpansString(e: Element)
    ensures ElementEnd(e).line == ElementPos(e).line
    ensures ElementEnd(e).column == ElementPos(e).column + |ElementString(e)|
  {
  }

  // ---------------------------------------------------------------------------
  // Expressions

  /** `Pos`. */
  function Pos(x: Expression): Position
    decreases x
  {
    match x
    case Query(es) => if |es| > 0 then Pos(es[0]) else ZeroPosition
    case Input(dollar, _, _, _) => ElementPos(dollar)
    case Output(amp, _, _, _) => ElementPos(amp)
    case Passthrough(els) => if |els| > 0 then ElementPos(els[0]) else ZeroPosition
    case Single(e) => ElementPos(e)
  }

  /** `End`. */
  function End(x: Expression): Position
    decreases x
  {
    match x
    case Query(es) => if |es| > 0 then End(es[|es| - 1]) else ZeroPosition
    case Input(_, _, _, cols) => ElementEnd(cols)
    case Output(_, _, _, cols) => ElementEnd(cols)
    case Passthrough(els) => if |els| > 0 then ElementEnd(els[|els| - 1]) else ZeroPosition
    case Single(e) => ElementEnd(e)
  }

  /** `String`: queries and pass-through runs concatenate their parts with no separator. */
  function String(x: Expression): string
    decreases x
  {
    match x
    case Query(es) => StringAll(es)
    case Input(dollar, name, period, cols) =>
      ElementString(dollar) + ElementString(name) + ElementString(period) + ElementString(cols)
    case Output(amp, name, period, cols) =>
      ElementString(amp) + ElementString(name) + ElementString(period) + ElementString(cols)
    case Passthrough(els) => Literals(els)
    case Single(e) => ElementString(e)
  }

  function StringAll(es: seq<Expression>): string
    decreases es
  {
    if es == [] then "" else String(es[0]) + StringAll(es[1..])
  }

  /** The literals of `els`, concatenated. */
  function Literals(els: seq<Element>): string {
    if els == [] then "" else ElementString(els[0]) + Literals(els[1..])
  }

  // ---------------------------------------------------------------------------
  // Properties

  /** The elements of `x` from left to right. */
  function Elements(x: Expression): seq<Element>
    decreases x
  {
    match x
    case Query(es) => ElementsAll(es)
    case Input(dollar, name, period, cols) => [dollar, name, period, cols]
    case Output(amp, name, period, cols) => [amp, name, period, cols]
    case Passthrough(els) => els
    case Single(e) => [e]
  }

  function ElementsAll(es: seq<Expression>): seq<Element>
    decreases es
  {
    if es == [] then [] else Elements(es[0]) + ElementsAll(es[1..])
  }

  lemma {:induction false} LiteralsAppend(a: seq<Element>, b: seq<Element>)
    ensures Literals(a + b) == Literals(a) + Literals(b)
    decreases |a|
  {
    if a == [] {
      assert a + b == b;
    } else {
      LiteralsAppend(a[1..], b);
      assert (a + b)[1..] == a[1..] + b;
    }
  }

  lemma LiteralsOfFour(a: Element, b: Element, c: Element, d: Element)
    ensures Literals([a, b, c, d]) == ElementString(a) + ElementString(b) + ElementString(c) + ElementString(d)
  {
    assert [d][1..] == [];
    assert Literals([d]) == ElementString(d);
    assert [c, d][1..] == [d];
    assert Literals([c, d]) == ElementString(c) + ElementString(d);
    assert [b, c, d][1..] == [c, d];
    assert Literals([b, c, d]) == ElementString(b) + Literals([c, d]);
    assert [a, b, c, d][1..] == [b, c, d];
  }

  /** Every expression renders as the concatenation of its elements' literals. */
  lemma {:induction false} StringIsLiterals(x: Expression)
    ensures String(x) == Literals(Elements(x))
    decreases x, 1
  {
    match x
    case Query(es) => StringAllIsLiterals(es);
    case Input(dollar, name, period, cols) => LiteralsOfFour(dollar, name, period, cols);
    case Output(amp, name, period, cols) => LiteralsOfFour(amp, name, period, cols);
    case Passthrough(_) =>
    case Single(e) =>
      assert [e][1..] == [];
  }

  lemma {:induction false} StringAllIsLiterals(es: seq<Expression>)
    ensures StringAll(es) == Literals(ElementsAll(es))
    decreases es, 0
  {
    if es != [] {
      StringIsLiterals(es[0]);
      StringAllIsLiterals(es[1..]);
      LiteralsAppend(Elements(es[0]), ElementsAll(es[1..]));
    }
  }

  /** Rendering a query is a homomorphism: appending parts appends their renderings. */
  lemma {:induction false} QueryStringAppend(a: seq<Expression>, b: seq<Expression>)
    ensures String(Query(a + b)) == String(Query(a)) + String(Query(b))
    decreases |a|
  {
    if a == [] {
      assert a + b == b;
    } else {
      QueryStringAppend(a[1..], b);
      assert (a + b)[1..] == a[1..] + b;
    }
  }

  /** Likewise for a pass-through run. */
  lemma PassthroughStringAppend(a: seq<Element>, b: seq<Element>)
    ensures String(Passthrough(a + b)) == String(Passthrough(a)) + String(Passthrough(b))
  {
    LiteralsAppend(a, b);
  }

  /** An empty query or pass-through renders as nothing and sits at the zero position. */
  lemma EmptyParts()
    ensures Pos(Query([])) == ZeroPosition && End(Query([])) == ZeroPosition && String(Query([])) == ""
    ensures Pos(Passthrough([])) == ZeroPosition && End(Passthrough([])) == ZeroPosition && String(Passthrough([])) == ""
  {
  }

  /** No query or pass-through anywhere in `x` is empty. */
  predicate NoEmptyPart(x: Expression)
    decreases x
  {
    match x
    case Query(es) => es != [] && forall i :: 0 <= i < |es| ==> NoEmptyPart(es[i])
    case Passthrough(els) => els != []
    case _ => true
  }

  lemma {:induction false} ElementsAllEnds(es: seq<Expression>)
    requires es != []
    requires forall i :: 0 <= i < |es| ==> Elements(es[i]) != []
    ensures ElementsAll(es) != []
    ensures ElementsAll(es)[0] == Elements(es[0])[0]
    ensures var all := ElementsAll(es); var last := Elements(es[|es| - 1]);
      all[|all| - 1] == last[|last| - 1]
    decreases |es|
  {
    if |es| > 1 {
      ElementsAllEnds(es[1..]);
      assert es[1..][|es[1..]| - 1] == es[|es| - 1];
    } else {
      assert ElementsAll(es) == Elements(es[0]) + ElementsAll([]);
    }
  }

  /**
   * When no part is empty, an expression starts where its first element starts
   * and ends where its last element ends.
   */
  lemma {:induction false} PositionsOfElements(x: Expression)
    requires NoEmptyPart(x)
    ensures Elements(x) != []
    ensures Pos(x) == ElementPos(Elements(x)[0])
    ensures End(x) == ElementEnd(Elements(x)[|Elements(x)| - 1])
    decreases x
  {
    if x.Query? {
      var es := x.expressions;
      forall i | 0 <= i < |es|
        ensures Elements(es[i]) != []
      {
        PositionsOfElements(es[i]);
      }
      ElementsAllEnds(es);
      PositionsOfElements(es[0]);
      PositionsOfElements(es[|es| - 1]);
    }
  }
}
