/**
 * The current generation's syntax tree (`internal/parse/ast.go`): parent nodes
 * (SQL, DML, DDL, grouped columns, pass-through), the output-target and
 * input-source annotations, and identities; their rendering, their positions,
 * and the pre-order `Walk` that stops at the first error.
 */
module InternalAst {
  import opened Wrappers
  import opened Runes
  import opened InternalToken

  /** The kinds of node that own a list of children. */
  datatype ParentKind = SQL | DML | DDL | GroupedColumns | PassThrough

  datatype Expression =
    | Parent(kind: ParentKind, children: seq<Expression>)
    /** `&Type.field`: the marker token and the two identities. */
    | OutputTarget(marker: Token, name: Token, field: Token)
    /** `$Type.field`: the marker token and the two identities. */
    | InputSource(marker: Token, name: Token, field: Token)
    | Identity(token: Token)
  {
    predicate IsTypeMapping() {
      OutputTarget? || InputSource?
    }
  }

  /** The number of nodes `Walk` visits in `e`; its termination measure. */
  function Size(e: Expression): (n: nat)
    ensures n >= 1
  {
    match e
    case Parent(_, cs) => 1 + SizeAll(cs)
    case Identity(_) => 1
    case _ => 3
  }

  function SizeAll(es: seq<Expression>): nat {
    if es == [] then 0 else Size(es[0]) + SizeAll(es[1..])
  }

  /** `Expressions`: the children a walk descends into. */
  function Expressions(e: Expression): (cs: seq<Expression>)
    ensures SizeAll(cs) == Size(e) - 1
    ensures e.IsTypeMapping() ==> cs == [Identity(e.name), Identity(e.field)]
    ensures e.Identity? ==> cs == []
  {
    match e
    case Parent(_, cs) => cs
    case OutputTarget(_, name, field) => Pair(name, field)
    case InputSource(_, name, field) => Pair(name, field)
    case Identity(_) => []
  }

  function Pair(name: Token, field: Token): (cs: seq<Expression>)
    ensures cs == [Identity(name), Identity(field)] && SizeAll(cs) == 2
  {
    var cs := [Identity(name), Identity(field)];
    assert cs[1..] == [Identity(field)];
    assert SizeAll(cs[1..]) == Size(Identity(field)) + SizeAll([]);
    cs
  }

  /** `TypeName`: the identity naming the Go type of an annotation. */
  function TypeName(e: Expression): (n: Expression)
    requires e.IsTypeMapping()
    ensures n == Expressions(e)[0] && n.Identity? && n.token == e.name
  {
    Identity(e.name)
  }

  // ---------------------------------------------------------------------------
  // Rendering

  /** What a parent of kind `k` writes between two children. */
  function Separator(k: ParentKind): string {
    match k
    case SQL => " "
    case GroupedColumns => ", "
    case _ => ""
  }

  /** `String`. */
  function Render(e: Expression): (r: string)
    ensures e.Parent? && e.kind == GroupedColumns ==> |r| >= 2 && r[0] == '(' && r[|r| - 1] == ')'
    ensures e.Identity? ==> r == e.token.literal
    decreases Size(e), 1
  {
    match e
    case Parent(k, cs) =>
      var joined := Join(Separator(k), RenderAll(cs));
      if k == GroupedColumns then "(" + joined + ")" else joined
    case OutputTarget(marker, name, field) => marker.literal + name.literal + "." + field.literal
    case InputSource(marker, name, field) => marker.literal + name.literal + "." + field.literal
    case Identity(token) => token.literal
  }

  /** The renderings of a parent's children, in order. */
  function RenderAll(cs: seq<Expression>): (parts: seq<string>)
    ensures |parts| == |cs|
    decreases SizeAll(cs), 2
  {
    if cs == [] then [] else [Render(cs[0])] + RenderAll(cs[1..])
  }

  lemma {:induction false} RenderAllSnoc(cs: seq<Expression>, c: Expression)
    ensures RenderAll(cs + [c]) == RenderAll(cs) + [Render(c)]
    decreases |cs|
  {
    if cs != [] {
      assert (cs + [c])[1..] == cs[1..] + [c];
      RenderAllSnoc(cs[1..], c);
    }
  }

  /**
   * Appending a child to a parent appends its rendering: after the separator
   * when there already were children, and inside the closing parenthesis for a
   * group.
   */
  lemma RenderAppend(k: ParentKind, cs: seq<Expression>, c: Expression)
    ensures k != GroupedColumns ==>
      Render(Parent(k, cs + [c])) == Render(Parent(k, cs)) + (if cs == [] then "" else Separator(k)) + Render(c)
    ensures k == GroupedColumns ==>
      Render(Parent(k, cs + [c])) ==
        Render(Parent(k, cs))[..|Render(Parent(k, cs))| - 1] + (if cs == [] then "" else Separator(k)) + Render(c) + ")"
  {
    RenderAllSnoc(cs, c);
    JoinSnoc(Separator(k), RenderAll(cs), Render(c));
    if k == GroupedColumns {
      var joined := Join(Separator(k), RenderAll(cs));
      var before := "(" + joined + ")";
      assert Render(Parent(k, cs)) == before;
      assert before[..|before| - 1] == "(" + joined;
    }
  }

  /** An annotation renders as its marker, the type name, a period and the field. */
  lemma RenderTypeMapping(e: Expression)
    requires e.IsTypeMapping()
    ensures Render(e) == e.marker.literal + Render(TypeName(e)) + "." + Render(Expressions(e)[1])
  {
  }

  // ---------------------------------------------------------------------------
  // Positions

  /** The end of a token: its start offset plus its length in bytes; line and column stay zero. */
  function TokenEnd(t: Token): (p: Position)
    ensures p.offset == t.pos.offset + ByteLen(t.literal) && p.line == 0 && p.column == 0
  {
    Position(t.pos.offset + ByteLen(t.literal), 0, 0)
  }

  /** `Begin`. */
  function Begin(e: Expression): Position
    decreases e
  {
    match e
    case Parent(_, cs) => if cs != [] then Begin(cs[0]) else ZeroPosition
    case OutputTarget(marker, _, _) => marker.pos
    case InputSource(marker, _, _) => marker.pos
    case Identity(token) => token.pos
  }

  /** `End`; an annotation ends where its field identity ends. */
  function End(e: Expression): Position
    decreases e
  {
    match e
    case Parent(_, cs) => if cs != [] then End(cs[|cs| - 1]) else ZeroPosition
    case OutputTarget(_, _, field) => TokenEnd(field)
    case InputSource(_, _, field) => TokenEnd(field)
    case Identity(token) => TokenEnd(token)
  }

  /** An annotation begins at its marker and ends where its field identity ends. */
  lemma TypeMappingPositions(e: Expression)
    requires e.IsTypeMapping()
    ensures Begin(e) == e.marker.pos
    ensures End(e) == End(Expressions(e)[1])
  {
  }

  /** The tokens of `e` from left to right. */
  function Tokens(e: Expression): seq<Token>
    decreases e
  {
    match e
    case Parent(_, cs) => TokensAll(cs)
    case OutputTarget(marker, name, field) => [marker, name, field]
    case InputSource(marker, name, field) => [marker, name, field]
    case Identity(token) => [token]
  }

  function TokensAll(es: seq<Expression>): seq<Token>
    decreases es
  {
    if es == [] then [] else Tokens(es[0]) + TokensAll(es[1..])
  }

  /** No parent node anywhere in `e` is without children. */
  predicate NoEmptyParent(e: Expression)
    decreases e
  {
    match e
    case Parent(_, cs) => cs != [] && forall i :: 0 <= i < |cs| ==> NoEmptyParent(cs[i])
    case _ => true
  }

  lemma {:induction false} TokensAllLast(es: seq<Expression>)
    requires es != []
    requires forall i :: 0 <= i < |es| ==> NoEmptyParent(es[i]) && Tokens(es[i]) != []
    ensures TokensAll(es) != []
    ensures TokensAll(es)[0] == Tokens(es[0])[0]
    ensures var ts := TokensAll(es); var last := Tokens(es[|es| - 1]);
      ts[|ts| - 1] == last[|last| - 1]
    decreases |es|
  {
    if |es| > 1 {
      TokensAllLast(es[1..]);
      assert es[1..][|es[1..]| - 1] == es[|es| - 1];
    } else {
      assert TokensAll(es) == Tokens(es[0]);
    }
  }

  /**
   * When no parent is empty, `Begin` is the position of the first token of the
   * tree and `End` is the end of its last token.
   */
  lemma {:induction false} PositionsOfTokens(e: Expression)
    requires NoEmptyParent(e)
    ensures Tokens(e) != []
    ensures Begin(e) == Tokens(e)[0].pos
    ensures End(e) == TokenEnd(Tokens(e)[|Tokens(e)| - 1])
    decreases e
  {
    if e.Parent? {
      var cs := e.children;
      forall i | 0 <= i < |cs|
        ensures NoEmptyParent(cs[i]) && Tokens(cs[i]) != []
      {
        PositionsOfTokens(cs[i]);
      }
      TokensAllLast(cs);
      PositionsOfTokens(cs[0]);
      PositionsOfTokens(cs[|cs| - 1]);
    }
  }

  // ---------------------------------------------------------------------------
  // Pre-order and Walk

  /** The nodes of `e` in pre-order: the node, then each child's subtree left to right. */
  function Preorder(e: Expression): (ns: seq<Expression>)
    ensures |ns| == Size(e) && ns[0] == e
    decreases Size(e), 0
  {
    [e] + PreorderAll(Expressions(e))
  }

  function PreorderAll(es: seq<Expression>): (ns: seq<Expression>)
    ensures |ns| == SizeAll(es)
    decreases SizeAll(es), 1
  {
    if es == [] then [] else Preorder(es[0]) + PreorderAll(es[1..])
  }

  /**
   * The outcome of a walk: the nodes `visit` was called on, in order, the
   * visitor's state after the last call, and the error that stopped the walk.
   */
  datatype WalkResult<S, Err> = WalkResult(visited: seq<Expression>, state: S, err: Option<Err>)

  /**
   * The reference behaviour of a walk over a list of nodes: call `visit` on each
   * in turn, threading its state, and stop at the first error.
   */
  function Replay<S, Err>(visit: (S, Expression) -> (S, Option<Err>), s: S, nodes: seq<Expression>)
    : (r: WalkResult<S, Err>)
    ensures r.visited <= nodes
    ensures r.err.None? ==> r.visited == nodes
    ensures r.err.Some? ==> r.visited != []
    decreases |nodes|
  {
    if nodes == [] then WalkResult([], s, None)
    else
      var (s1, err) := visit(s, nodes[0]);
      if err.Some? then WalkResult([nodes[0]], s1, err)
      else
        var rest := Replay(visit, s1, nodes[1..]);
        WalkResult([nodes[0]] + rest.visited, rest.state, rest.err)
  }

  /** Continues a walk that has not failed over further nodes. */
  function Resume<S, Err>(visit: (S, Expression) -> (S, Option<Err>), r: WalkResult<S, Err>, nodes: seq<Expression>)
    : WalkResult<S, Err>
  {
    if r.err.Some? then r
    else
      var rest := Replay(visit, r.state, nodes);
      WalkResult(r.visited + rest.visited, rest.state, rest.err)
  }

  lemma {:induction false} ReplayAppend<S, Err>(visit: (S, Expression) -> (S, Option<Err>), s: S, a: seq<Expression>, b: seq<Expression>)
    ensures Replay(visit, s, a + b) == Resume(visit, Replay(visit, s, a), b)
    decreases |a|
  {
    if a == [] {
      assert a + b == b;
    } else {
      assert (a + b)[0] == a[0];
      assert (a + b)[1..] == a[1..] + b;
      var (s1, err) := visit(s, a[0]);
      if err.None? {
        ReplayAppend(visit, s1, a[1..], b);
      }
    }
  }

  /**
   * `Walk`: calls `visit` on `e` and then walks each child in turn, returning
   * the first error. It behaves exactly as replaying `visit` over the pre-order
   * of `e`.
   */
  function Walk<S, Err>(e: Expression, visit: (S, Expression) -> (S, Option<Err>), s: S): (r: WalkResult<S, Err>)
    ensures r == Replay(visit, s, Preorder(e))
    decreases Size(e), 0
  {
    var (s1, err) := visit(s, e);
    if err.Some? then WalkResult([e], s1, err)
    else
      var rest := WalkAll(Expressions(e), visit, s1);
      assert ([e] + PreorderAll(Expressions(e)))[1..] == PreorderAll(Expressions(e));
      WalkResult([e] + rest.visited, rest.state, rest.err)
  }

  /** The loop of `Walk` over the children. */
  function WalkAll<S, Err>(es: seq<Expression>, visit: (S, Expression) -> (S, Option<Err>), s: S): (r: WalkResult<S, Err>)
    ensures r == Replay(visit, s, PreorderAll(es))
    decreases SizeAll(es), 1
  {
    if es == [] then WalkResult([], s, None)
    else
      var first := Walk(es[0], visit, s);
      ReplayAppend(visit, s, Preorder(es[0]), PreorderAll(es[1..]));
      if first.err.Some? then first
      else
        var rest := WalkAll(es[1..], visit, first.state);
        WalkResult(first.visited + rest.visited, rest.state, rest.err)
  }

  /** A walk that meets no error visits every node of the tree exactly once, in pre-order. */
  lemma WalkVisitsAll<S, Err>(e: Expression, visit: (S, Expression) -> (S, Option<Err>), s: S)
    requires Walk(e, visit, s).err.None?
    ensures Walk(e, visit, s).visited == Preorder(e)
    ensures |Walk(e, visit, s).visited| == Size(e)
  {
  }

  /** A visitor that keeps no state, lifted to the shape `Walk` takes. */
  function Stateless<Err>(check: Expression -> Option<Err>): (Expression, Expression) -> (Expression, Option<Err>) {
    (s: Expression, n: Expression) => (s, check(n))
  }

  /**
   * With a visitor that keeps no state, the walk stops at the first node in
   * pre-order on which it fails, reports that node's error, and every node
   * before it passed.
   */
  lemma {:induction false} ReplayFirstError<Err>(check: Expression -> Option<Err>, s: Expression, nodes: seq<Expression>)
    ensures var r := Replay(Stateless(check), s, nodes);
      && (forall k :: 0 <= k < |r.visited| - 1 ==> check(r.visited[k]).None?)
      && (r.err.Some? ==> r.err == check(r.visited[|r.visited| - 1]))
      && (r.err.None? ==> forall k :: 0 <= k < |nodes| ==> check(nodes[k]).None?)
    decreases |nodes|
  {
    if nodes != [] && check(nodes[0]).None? {
      ReplayFirstError(check, s, nodes[1..]);
      var rest := Replay(Stateless(check), s, nodes[1..]);
      var r := Replay(Stateless(check), s, nodes);
      assert r.visited == [nodes[0]] + rest.visited;
      forall k | 0 <= k < |nodes|
        ensures r.err.None? ==> check(nodes[k]).None?
      {
        if k > 0 {
          assert nodes[k] == nodes[1..][k - 1];
        }
      }
    }
  }

  // ---------------------------------------------------------------------------
  // Building parents

  /** A parent node under construction; the `children` slice grows in place. */
  class ParentExpression {
    const kind: ParentKind
    var children: seq<Expression>

    constructor (kind: ParentKind)
      ensures this.kind == kind && children == []
    {
      this.kind := kind;
      children := [];
    }

    /** The node as a value. */
    function Value(): (e: Expression)
      reads this
      ensures e.Parent? && e.kind == kind && Expressions(e) == children
    {
      Parent(kind, children)
    }

    /** `AppendExpression`: adds `child` after the existing children. */
    method AppendExpression(child: Expression)
      modifies this
      ensures children == old(children) + [child]
      ensures old(children) != [] ==> Begin(Value()) == old(Begin(Value()))
      ensures End(Value()) == End(child)
    {
      children := children + [child];
    }
  }
}
