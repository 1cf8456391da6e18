/**
 * The binder of the current generation (`statement.go`): it collects reflection
 * information for the arguments of `Prepare`, keyed by type name, and checks
 * that the annotations of the parsed statement use exactly those type names.
 *
 * Reflection and parsing are outside this model: both are parameters, as total
 * functions from their input to a result or an error.
 */
module Binder {
  import opened Wrappers
  import opened InternalToken
  import opened InternalAst
  import opened Errors

  /** What reflection reports about an argument's type: its name and the columns of its fields. */
  datatype Info = Info(name: string, fields: set<string>)

  /** Reflection information indexed by type name. */
  type TypeMap = map<string, Info>

  /** A prepared statement: the parsed tree and the information for its types. */
  datatype Statement = Statement(expression: Expression, argTypes: TypeMap)

  // ---------------------------------------------------------------------------
  // typesForStatement

  /** Every argument in `args` reflects without error. */
  ghost predicate Clean<A>(args: seq<A>, reflect: A -> Result<Info, Error>) {
    forall i :: 0 <= i < |args| ==> reflect(args[i]).Success?
  }

  /** The reflected names of `args` are pairwise distinct, and none is already in `acc`. */
  ghost predicate FreshNames<A>(args: seq<A>, reflect: A -> Result<Info, Error>, acc: TypeMap)
    requires Clean(args, reflect)
  {
    && (forall i :: 0 <= i < |args| ==> reflect(args[i]).value.name !in acc)
    && (forall i, j :: 0 <= i < j < |args| ==> reflect(args[i]).value.name != reflect(args[j]).value.name)
  }

  ghost function NameSet<A>(args: seq<A>, reflect: A -> Result<Info, Error>): set<string>
    requires Clean(args, reflect)
  {
    set i | 0 <= i < |args| :: reflect(args[i]).value.name
  }

  /**
   * The table `typesForStatement` builds from `args` when `acc` has been
   * collected so far: reflect each argument in turn, give up on the first
   * reflection error or the first name already present.
   */
  function TypesFrom<A>(args: seq<A>, reflect: A -> Result<Info, Error>, acc: TypeMap): Result<TypeMap, Error>
    decreases |args|
  {
    if args == [] then Success(acc)
    else match reflect(args[0])
      case Failure(err) => Failure(err)
      case Success(info) =>
        if info.name in acc then Failure(TypeNameNotUnique(info.name))
        else TypesFrom(args[1..], reflect, acc[info.name := info])
  }

  function TypesFor<A>(args: seq<A>, reflect: A -> Result<Info, Error>): Result<TypeMap, Error> {
    TypesFrom(args, reflect, map[])
  }

  /** `typesForStatement`. */
  method TypesForStatement<A>(args: seq<A>, reflect: A -> Result<Info, Error>) returns (r: Result<TypeMap, Error>)
    ensures r == TypesFor(args, reflect)
  {
    var argTypes: TypeMap := map[];
    var i := 0;
    while i < |args|
      invariant 0 <= i <= |args|
      invariant TypesFrom(args[i..], reflect, argTypes) == TypesFor(args, reflect)
    {
      assert args[i..][1..] == args[i + 1..];
      var reflected := reflect(args[i]);
      if reflected.Failure? {
        return Failure(reflected.error);
      }
      var name := reflected.value.name;
      if name in argTypes {
        return Failure(TypeNameNotUnique(name));
      }
      argTypes := argTypes[name := reflected.value];
      i := i + 1;
    }
    return Success(argTypes);
  }

  lemma CleanCons<A>(args: seq<A>, reflect: A -> Result<Info, Error>)
    requires args != []
    ensures Clean(args, reflect) <==> reflect(args[0]).Success? && Clean(args[1..], reflect)
  {
    var tail := args[1..];
    if reflect(args[0]).Success? && Clean(tail, reflect) {
      forall i | 0 <= i < |args|
        ensures reflect(args[i]).Success?
      {
        if i > 0 {
          assert args[i] == tail[i - 1];
        }
      }
    }
  }

  lemma FreshCons<A>(args: seq<A>, reflect: A -> Result<Info, Error>, acc: TypeMap)
    requires args != [] && Clean(args, reflect)
    ensures Clean(args[1..], reflect)
    ensures var info := reflect(args[0]).value;
      FreshNames(args, reflect, acc) <==>
      info.name !in acc && FreshNames(args[1..], reflect, acc[info.name := info])
  {
    CleanCons(args, reflect);
    var tail := args[1..];
    var info := reflect(args[0]).value;
    var acc' := acc[info.name := info];
    assert forall i :: 0 <= i < |tail| ==> tail[i] == args[i + 1];
    if FreshNames(args, reflect, acc) {
      forall i | 0 <= i < |tail|
        ensures reflect(tail[i]).value.name !in acc'
      {
        assert reflect(args[0]).value.name != reflect(args[i + 1]).value.name;
      }
      forall i, j | 0 <= i < j < |tail|
        ensures reflect(tail[i]).value.name != reflect(tail[j]).value.name
      {
        assert reflect(args[i + 1]).value.name != reflect(args[j + 1]).value.name;
      }
    }
    if info.name !in acc && FreshNames(tail, reflect, acc') {
      forall i, j | 0 <= i < j < |args|
        ensures reflect(args[i]).value.name != reflect(args[j]).value.name
      {
        if i == 0 {
          assert reflect(tail[j - 1]).value.name !in acc';
        } else {
          assert reflect(tail[i - 1]).value.name != reflect(tail[j - 1]).value.name;
        }
      }
      forall i | 0 <= i < |args|
        ensures reflect(args[i]).value.name !in acc
      {
        if i > 0 {
          assert reflect(tail[i - 1]).value.name !in acc';
        }
      }
    }
  }

  lemma NameSetCons<A>(args: seq<A>, reflect: A -> Result<Info, Error>)
    requires args != [] && Clean(args, reflect)
    ensures Clean(args[1..], reflect)
    ensures NameSet(args, reflect) == {reflect(args[0]).value.name} + NameSet(args[1..], reflect)
  {
    CleanCons(args, reflect);
    var tail := args[1..];
    forall n | n in NameSet(args, reflect)
      ensures n in {reflect(args[0]).value.name} + NameSet(tail, reflect)
    {
      var i :| 0 <= i < |args| && reflect(args[i]).value.name == n;
      if i > 0 {
        assert reflect(tail[i - 1]).value.name == n;
      }
    }
    forall n | n in NameSet(tail, reflect)
      ensures n in NameSet(args, reflect)
    {
      var i :| 0 <= i < |tail| && reflect(tail[i]).value.name == n;
      assert reflect(args[i + 1]).value.name == n;
    }
  }

  lemma {:induction false} TypesFromSucceeds<A>(args: seq<A>, reflect: A -> Result<Info, Error>, acc: TypeMap)
    ensures TypesFrom(args, reflect, acc).Success? <==> Clean(args, reflect) && FreshNames(args, reflect, acc)
    decreases |args|
  {
    if args == [] {
      return;
    }
    CleanCons(args, reflect);
    if reflect(args[0]).Failure? {
      return;
    }
    var info := reflect(args[0]).value;
    if Clean(args, reflect) {
      FreshCons(args, reflect, acc);
    }
    if info.name !in acc {
      var acc' := acc[info.name := info];
      assert TypesFrom(args, reflect, acc) == TypesFrom(args[1..], reflect, acc');
      TypesFromSucceeds(args[1..], reflect, acc');
    }
  }

  /**
   * `m` is `acc` extended with one entry per argument of `args`, keyed by its
   * reflected name, and otherwise unchanged.
   */
  ghost predicate TableOf<A>(args: seq<A>, reflect: A -> Result<Info, Error>, acc: TypeMap, m: TypeMap)
    requires Clean(args, reflect)
  {
    && m.Keys == acc.Keys + NameSet(args, reflect)
    && |m| == |acc| + |args|
    && (forall k :: k in acc ==> m[k] == acc[k])
    && Entries(args, reflect, m)
  }

  /** `m` maps the reflected name of each argument of `args` to its information. */
  ghost predicate Entries<A>(args: seq<A>, reflect: A -> Result<Info, Error>, m: TypeMap)
    requires Clean(args, reflect)
  {
    forall i :: 0 <= i < |args| ==> reflect(args[i]).value.name in m && m[reflect(args[i]).value.name] == reflect(args[i]).value
  }

  lemma EntriesCons<A>(args: seq<A>, reflect: A -> Result<Info, Error>, m: TypeMap)
    requires args != [] && Clean(args, reflect) && Clean(args[1..], reflect)
    requires reflect(args[0]).value.name in m && m[reflect(args[0]).value.name] == reflect(args[0]).value
    requires Entries(args[1..], reflect, m)
    ensures Entries(args, reflect, m)
  {
    var tail := args[1..];
    forall i | 0 <= i < |args|
      ensures reflect(args[i]).value.name in m && m[reflect(args[i]).value.name] == reflect(args[i]).value
    {
      if i > 0 {
        assert tail[i - 1] == args[i];
      }
    }
  }

  /** Adding the first argument's entry in front of the table built from the rest. */
  lemma TableOfCons<A>(args: seq<A>, reflect: A -> Result<Info, Error>, acc: TypeMap, m: TypeMap)
    requires args != [] && Clean(args, reflect)
    requires reflect(args[0]).value.name !in acc
    requires Clean(args[1..], reflect)
    requires TableOf(args[1..], reflect, acc[reflect(args[0]).value.name := reflect(args[0]).value], m)
    ensures TableOf(args, reflect, acc, m)
  {
    var info := reflect(args[0]).value;
    var acc' := acc[info.name := info];
    var tail := args[1..];
    NameSetCons(args, reflect);
    assert |acc'| == |acc| + 1;
    assert m.Keys == acc.Keys + NameSet(args, reflect);
    assert info.name in acc' && m[info.name] == info;
    EntriesCons(args, reflect, m);
  }

  lemma {:induction false} TypesFromTable<A>(args: seq<A>, reflect: A -> Result<Info, Error>, acc: TypeMap)
    requires TypesFrom(args, reflect, acc).Success?
    ensures Clean(args, reflect)
    ensures TableOf(args, reflect, acc, TypesFrom(args, reflect, acc).value)
    decreases |args|
  {
    TypesFromSucceeds(args, reflect, acc);
    if args == [] {
      return;
    }
    var info := reflect(args[0]).value;
    var acc' := acc[info.name := info];
    assert TypesFrom(args, reflect, acc) == TypesFrom(args[1..], reflect, acc');
    TypesFromTable(args[1..], reflect, acc');
    TableOfCons(args, reflect, acc, TypesFrom(args, reflect, acc).value);
  }

  /**
   * `typesForStatement` succeeds exactly when every argument reflects and the
   * reflected names are distinct. The table then has one entry per argument,
   * keyed by its reflected name.
   */
  lemma TypesForSuccess<A>(args: seq<A>, reflect: A -> Result<Info, Error>)
    ensures TypesFor(args, reflect).Success? <==> Clean(args, reflect) && FreshNames(args, reflect, map[])
    ensures TypesFor(args, reflect).Success? ==>
      var m := TypesFor(args, reflect).value;
      && m.Keys == NameSet(args, reflect)
      && |m| == |args|
      && (forall i :: 0 <= i < |args| ==> m[reflect(args[i]).value.name] == reflect(args[i]).value)
  {
    TypesFromSucceeds(args, reflect, map[]);
    if TypesFor(args, reflect).Success? {
      TypesFromTable(args, reflect, map[]);
    }
  }

  lemma {:induction false} TypesFromFailure<A>(args: seq<A>, reflect: A -> Result<Info, Error>, acc: TypeMap, k: nat)
    requires k < |args|
    requires Clean(args[..k], reflect) && FreshNames(args[..k], reflect, acc)
    ensures reflect(args[k]).Failure? ==> TypesFrom(args, reflect, acc) == Failure(reflect(args[k]).error)
    ensures reflect(args[k]).Success? &&
      (reflect(args[k]).value.name in acc || reflect(args[k]).value.name in NameSet(args[..k], reflect))
      ==> TypesFrom(args, reflect, acc) == Failure(TypeNameNotUnique(reflect(args[k]).value.name))
    decreases k
  {
    if k == 0 {
      return;
    }
    var prefix := args[..k];
    assert reflect(prefix[0]).Success?;
    var info := reflect(args[0]).value;
    assert info.name !in acc by {
      assert reflect(prefix[0]).value.name !in acc;
    }
    var acc' := acc[info.name := info];
    var tail := args[1..];
    var tprefix := tail[..k - 1];
    assert forall i :: 0 <= i < |tprefix| ==> tprefix[i] == prefix[i + 1];
    assert Clean(tprefix, reflect);
    assert FreshNames(tprefix, reflect, acc') by {
      forall i | 0 <= i < |tprefix|
        ensures reflect(tprefix[i]).value.name !in acc'
      {
        assert reflect(prefix[0]).value.name != reflect(prefix[i + 1]).value.name;
      }
      forall i, j | 0 <= i < j < |tprefix|
        ensures reflect(tprefix[i]).value.name != reflect(tprefix[j]).value.name
      {
        assert reflect(prefix[i + 1]).value.name != reflect(prefix[j + 1]).value.name;
      }
    }
    assert tail[k - 1] == args[k];
    TypesFromFailure(tail, reflect, acc', k - 1);
    if reflect(args[k]).Success? {
      var name := reflect(args[k]).value.name;
      if name in NameSet(prefix, reflect) {
        var i :| 0 <= i < k && reflect(prefix[i]).value.name == name;
        if i > 0 {
          assert reflect(tprefix[i - 1]).value.name == name;
        }
      }
    }
  }

  /**
   * `typesForStatement` reports the first problem among the arguments: the
   * reflection error of the first argument that fails to reflect, or
   * `ErrTypeNameNotUnique` for the first reflected name already seen.
   */
  lemma TypesForFailure<A>(args: seq<A>, reflect: A -> Result<Info, Error>, k: nat)
    requires k < |args|
    requires Clean(args[..k], reflect) && FreshNames(args[..k], reflect, map[])
    ensures reflect(args[k]).Failure? ==> TypesFor(args, reflect) == Failure(reflect(args[k]).error)
    ensures reflect(args[k]).Success? && reflect(args[k]).value.name in NameSet(args[..k], reflect)
      ==> TypesFor(args, reflect) == Failure(TypeNameNotUnique(reflect(args[k]).value.name))
  {
    TypesFromFailure(args, reflect, map[], k);
  }

  // ---------------------------------------------------------------------------
  // interpret

  /** The type name an annotation uses: the rendering of its `TypeName`. */
  function AnnotationName(e: Expression): string
    requires e.IsTypeMapping()
  {
    Render(TypeName(e))
  }

  /**
   * `validateExpressionType`: fails with `ErrTypeInfoNotPresent` and leaves
   * `seen` alone when the annotation's type is not in the table; otherwise it
   * records exactly that name as seen.
   */
  function ValidateExpressionType(e: Expression, argTypes: TypeMap, seen: set<string>): (r: (set<string>, Option<Error>))
    requires e.IsTypeMapping()
    ensures AnnotationName(e) !in argTypes ==> r == (seen, Some(TypeInfoNotPresent(e.name.literal)))
    ensures AnnotationName(e) in argTypes ==> r == (seen + {e.name.literal}, None)
  {
    var typeName := Render(TypeName(e));
    if typeName !in argTypes then (seen, Some(TypeInfoNotPresent(typeName)))
    else (seen + {typeName}, None)
  }

  /** The closure `interpret` walks the tree with; `seen` is its state. Other node kinds pass. */
  function Visit(argTypes: TypeMap): (set<string>, Expression) -> (set<string>, Option<Error>) {
    (seen: set<string>, e: Expression) =>
      if e.IsTypeMapping() then ValidateExpressionType(e, argTypes, seen) else (seen, None)
  }

  /** The type names used by the annotations among `nodes`. */
  function NamesIn(nodes: seq<Expression>): set<string>
    decreases |nodes|
  {
    if nodes == [] then {}
    else (if nodes[0].IsTypeMapping() then {AnnotationName(nodes[0])} else {}) + NamesIn(nodes[1..])
  }

  /** The type names used by the annotations of a statement. */
  function AnnotationNames(exp: Expression): set<string> {
    NamesIn(Preorder(exp))
  }

  /** The type name of the first annotation among `nodes` that is not in `keys`. */
  function FirstMissing(nodes: seq<Expression>, keys: set<string>): (r: Option<string>)
    ensures r.None? <==> NamesIn(nodes) <= keys
    ensures r.Some? ==> r.value in NamesIn(nodes) && r.value !in keys
    decreases |nodes|
  {
    if nodes == [] then None
    else if nodes[0].IsTypeMapping() && AnnotationName(nodes[0]) !in keys then Some(AnnotationName(nodes[0]))
    else FirstMissing(nodes[1..], keys)
  }

  /**
   * Walking `nodes` with `interpret`'s visitor stops at the first annotation
   * whose type is missing; if there is none, it has seen exactly the names the
   * annotations use.
   */
  lemma {:induction false} ReplayVisit(nodes: seq<Expression>, argTypes: TypeMap, seen: set<string>)
    ensures var r := Replay(Visit(argTypes), seen, nodes);
      var missing := FirstMissing(nodes, argTypes.Keys);
      && (missing.Some? ==> r.err == Some(TypeInfoNotPresent(missing.value)))
      && (missing.None? ==> r.err.None? && r.state == seen + NamesIn(nodes))
    decreases |nodes|
  {
    if nodes != [] {
      var (seen', err) := Visit(argTypes)(seen, nodes[0]);
      if err.None? {
        ReplayVisit(nodes[1..], argTypes, seen');
      }
    }
  }

  /**
   * `interpret`: the first annotation in pre-order whose type has no
   * information is reported; otherwise some supplied type that no annotation
   * uses is reported, whichever the map iteration reaches first. It succeeds
   * exactly when the annotations use precisely the supplied type names.
   */
  method Interpret(exp: Expression, argTypes: TypeMap) returns (err: Option<Error>)
    ensures var missing := FirstMissing(Preorder(exp), argTypes.Keys);
      missing.Some? ==> err == Some(TypeInfoNotPresent(missing.value))
    ensures FirstMissing(Preorder(exp), argTypes.Keys).None? && err.Some? ==>
      err.value.SuperfluousType? && err.value.name in argTypes.Keys - AnnotationNames(exp)
    ensures err.None? <==> AnnotationNames(exp) == argTypes.Keys
  {
    var walked := Walk(exp, Visit(argTypes), {});
    ReplayVisit(Preorder(exp), argTypes, {});
    if walked.err.Some? {
      return walked.err;
    }

    var seen := walked.state;
    var names := argTypes.Keys;
    while names != {}
      invariant names <= argTypes.Keys
      invariant argTypes.Keys - names <= seen
      decreases |names|
    {
      var name :| name in names;
      if name !in seen {
        return Some(SuperfluousType(name));
      }
      names := names - {name};
    }
    return None;
  }

  /** The statement the binder's tests build: `&Person.*` followed by `$address.id`. */
  function Example(): Expression {
    var at := InternalToken.Position(0, 1, 0);
    Parent(SQL, [
      OutputTarget(Token(BitAnd, "&", at), Token(Ident, "Person", at), Token(Asterisk, "*", at)),
      InputSource(Token(Dollar, "$", at), Token(Ident, "address", at), Token(Ident, "id", at))])
  }

  /**
   * In the example, the annotations use `Person` and `address`; with only
   * `Person` supplied, `address` is the missing type reported.
   */
  lemma ExampleNames()
    ensures AnnotationNames(Example()) == {"Person", "address"}
    ensures FirstMissing(Preorder(Example()), {"Person"}) == Some("address")
    ensures FirstMissing(Preorder(Example()), {"Person", "address", "notUsed"}).None?
  {
    var nodes := Preorder(Example());
    var cs := Example().children;
    assert Preorder(cs[0]) == [cs[0], Identity(cs[0].name), Identity(cs[0].field)];
    assert Preorder(cs[1]) == [cs[1], Identity(cs[1].name), Identity(cs[1].field)];
    assert cs[1..][1..] == [];
    assert nodes == [Example()] + Preorder(cs[0]) + Preorder(cs[1]);
    assert nodes[1..][1..][1..][1..] == Preorder(cs[1]);
  }

  // ---------------------------------------------------------------------------
  // Prepare

  /**
   * `Prepare`: parse, collect the argument types, interpret; the first step that
   * fails decides the error. On success the statement holds exactly the parsed
   * tree and the table.
   */
  method Prepare<A>(stmt: string, args: seq<A>, parse: string -> Result<Expression, Error>,
                    reflect: A -> Result<Info, Error>)
    returns (r: Result<Statement, Error>)
    ensures parse(stmt).Failure? ==> r == Failure(parse(stmt).error)
    ensures parse(stmt).Success? && TypesFor(args, reflect).Failure? ==> r == Failure(TypesFor(args, reflect).error)
    ensures r.Success? <==>
      parse(stmt).Success? && TypesFor(args, reflect).Success? &&
      AnnotationNames(parse(stmt).value) == TypesFor(args, reflect).value.Keys
    ensures r.Success? ==> r.value == Statement(parse(stmt).value, TypesFor(args, reflect).value)
    ensures (parse(stmt).Success? && TypesFor(args, reflect).Success? &&
             FirstMissing(Preorder(parse(stmt).value), TypesFor(args, reflect).value.Keys).Some?) ==>
      r == Failure(TypeInfoNotPresent(FirstMissing(Preorder(parse(stmt).value), TypesFor(args, reflect).value.Keys).value))
    ensures (parse(stmt).Success? && TypesFor(args, reflect).Success? &&
             FirstMissing(Preorder(parse(stmt).value), TypesFor(args, reflect).value.Keys).None? && r.Failure?) ==>
      r.error.SuperfluousType? &&
      r.error.name in TypesFor(args, reflect).value.Keys - AnnotationNames(parse(stmt).value)
  {
    var parsed := parse(stmt);
    if parsed.Failure? {
      return Failure(parsed.error);
    }
    var exp := parsed.value;

    var argTypes := TypesForStatement(args, reflect);
    if argTypes.Failure? {
      return Failure(argTypes.error);
    }

    var err := Interpret(exp, argTypes.value);
    if err.Some? {
      return Failure(err.value);
    }

    return Success(Statement(exp, argTypes.value));
  }
}
