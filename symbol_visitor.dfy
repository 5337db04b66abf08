/**
 * The scalar compiler: a visitor that turns a symbol tree into a tree of
 * evaluators (inputs). Literals are their own inputs, aliases are
 * transparent, every reference kind goes to one shared hook, a scalar function
 * becomes a function expression over its compiled arguments, and everything
 * else is refused.
 *
 * The function registry, `Scalar.compile` and `visitReference` belong to
 * code outside this model; they are the parameters of a `Visitor`.
 */
module ImplementationSymbolVisitor {
  import opened Wrappers
  import opened RoleMetadata

  /** A literal value with the name of its type; values are kept as text. */
  datatype Literal = Literal(value: string, valueType: string)

  /** `Function.name` stands for the text `signature.getName()` prints. */
  datatype Symbol =
    | LiteralSymbol(literal: Literal)
    | Function(name: string, arguments: seq<Symbol>, returnType: string)
    | Alias(symbol: Symbol, alias: string)
    | Reference(column: string, columnType: string)
    | DynamicReference(column: string, columnType: string)
    | VoidReference(column: string, columnType: string)
      /** Any other symbol kind: its class name, its text and the name of its type. */
    | OtherSymbol(kind: string, text: string, otherType: string)

  /** A scalar implementation; `specialization` stands for the state `compile` may give it. */
  datatype Scalar = Scalar(name: string, specialization: nat)

  /** What the registry holds for a function: a scalar, or some other kind (aggregate, table function, ...). */
  datatype FunctionImplementation =
    | ScalarImplementation(scalar: Scalar)
    | NonScalarImplementation(kind: string)

  /** The evaluator tree. `ReferenceInput` is whatever the reference hook builds. */
  datatype Input =
    | LiteralInput(literal: Literal)
    | FunctionExpression(scalar: Scalar, argumentInputs: seq<Input>)
    | ReferenceInput(reference: string, id: nat)

  datatype CompileError =
    | UnsupportedFeature(message: string)
    | UnsupportedOperation(message: string)

  /**
   * The visitor's context: the session user, the roles, the registry lookup
   * `getQualified`, `Scalar.compile(arguments, userName, roles)` (which may
   * throw) and the `visitReference` hook.
   */
  datatype Visitor = Visitor(
    userName: string,
    roles: set<Role>,
    getQualified: Symbol -> Option<FunctionImplementation>,
    compileScalar: (Scalar, seq<Symbol>, string, set<Role>) -> Result<Scalar, CompileError>,
    visitReference: Symbol -> Result<Input, CompileError>)

  /** `valueType()` of a symbol, by type name; an alias has the type of the symbol it names. */
  function ValueType(s: Symbol): string
  {
    match s
    case LiteralSymbol(l) => l.valueType
    case Function(_, _, returnType) => returnType
    case Alias(inner, _) => ValueType(inner)
    case Reference(_, columnType) => columnType
    case DynamicReference(_, columnType) => columnType
    case VoidReference(_, columnType) => columnType
    case OtherSymbol(_, _, otherType) => otherType
  }

  /** The type names of the arguments, in order. */
  function ArgumentTypes(arguments: seq<Symbol>): seq<string>
  {
    seq(|arguments|, k requires 0 <= k < |arguments| => ValueType(arguments[k]))
  }

  /** The parts separated by `sep`, as `Lists2.joinOn` builds them. */
  function Join(sep: string, parts: seq<string>): string
  {
    if |parts| == 0 then ""
    else if |parts| == 1 then parts[0]
    else parts[0] + sep + Join(sep, parts[1..])
  }

  function NotScalarMessage(name: string, arguments: seq<Symbol>): string
  {
    "Function " + name + "(" + Join(", ", ArgumentTypes(arguments)) + ") is not a scalar function."
  }

  function CannotHandleMessage(kind: string, text: string): string
  {
    "Can't handle Symbol [" + kind + ": " + text + "]"
  }

  /**
   * The registry finds an implementation for every function the visitor
   * looks up. Only the lookups that are performed are required: arguments
   * of a non-scalar function, or of one whose `Scalar.compile` throws, are
   * never visited, and the arguments after the first one that fails are
   * never visited either.
   */
  predicate Resolved(v: Visitor, s: Symbol)
    decreases s, 1, 0
  {
    match s
    case Function(_, _, _) =>
      v.getQualified(s).Some?
      && (v.getQualified(s).value.ScalarImplementation?
          && v.compileScalar(v.getQualified(s).value.scalar, s.arguments, v.userName, v.roles).Ok?
          ==> ArgumentsResolved(v, s, 0))
    case Alias(inner, _) => Resolved(v, inner)
    case _ => true
  }

  /** Arguments `i..` of `f` are resolved, up to and including the first that fails to compile. */
  predicate ArgumentsResolved(v: Visitor, f: Symbol, i: nat)
    requires f.Function? && i <= |f.arguments|
    decreases f, 0, |f.arguments| - i
  {
    i == |f.arguments|
    || (Resolved(v, f.arguments[i])
        && (Compile(v, f.arguments[i]).Ok? ==> ArgumentsResolved(v, f, i + 1)))
  }

  /** What visiting `s` yields: an input, or the exception the visit throws. */
  function Compile(v: Visitor, s: Symbol): Result<Input, CompileError>
    requires Resolved(v, s)
    decreases s, 2, 0
  {
    match s
    case LiteralSymbol(l) => Ok(LiteralInput(l))
    case Function(name, arguments, _) =>
      (match v.getQualified(s).value
       case ScalarImplementation(scalar) =>
         var scalarImpl :- v.compileScalar(scalar, arguments, v.userName, v.roles);
         var argumentInputs :- CompileArguments(v, s, 0);
         Ok(FunctionExpression(scalarImpl, argumentInputs))
       case NonScalarImplementation(_) =>
         Err(UnsupportedFeature(NotScalarMessage(name, arguments))))
    case Alias(inner, _) => Compile(v, inner)
    case Reference(_, _) => v.visitReference(s)
    case DynamicReference(_, _) => v.visitReference(s)
    case VoidReference(_, _) => v.visitReference(s)
    case OtherSymbol(kind, text, _) => Err(UnsupportedOperation(CannotHandleMessage(kind, text)))
  }

  /** Arguments `i..` of `f` compiled in order; the first failure ends the walk. */
  function CompileArguments(v: Visitor, f: Symbol, i: nat): Result<seq<Input>, CompileError>
    requires f.Function? && i <= |f.arguments|
    requires ArgumentsResolved(v, f, i)
    decreases f, 0, |f.arguments| - i + 1
  {
    if i == |f.arguments| then Ok([])
    else
      var first :- Compile(v, f.arguments[i]);
      var others :- CompileArguments(v, f, i + 1);
      Ok([first] + others)
  }

  /** Inputs already computed, put in front of the inputs a further walk yields. */
  function PrependAll(xs: seq<Input>, r: Result<seq<Input>, CompileError>): Result<seq<Input>, CompileError>
  {
    match r
    case Ok(ys) => Ok(xs + ys)
    case Err(e) => Err(e)
  }

  lemma PrependNothing(r: Result<seq<Input>, CompileError>)
    ensures PrependAll([], r) == r
  {
    if r.Ok? {
      assert [] + r.value == r.value;
    }
  }

  lemma PrependTwice(xs: seq<Input>, x: Input, r: Result<seq<Input>, CompileError>)
    ensures PrependAll(xs, PrependAll([x], r)) == PrependAll(xs + [x], r)
  {
    if r.Ok? {
      assert xs + ([x] + r.value) == (xs + [x]) + r.value;
    }
  }

  /** `symbol.accept(visitor)`: dispatch on the symbol kind. */
  method Accept(v: Visitor, s: Symbol) returns (r: Result<Input, CompileError>)
    requires Resolved(v, s)
    ensures r == Compile(v, s)
    decreases s, 1, 0
  {
    match s
    case LiteralSymbol(l) =>
      r := Ok(LiteralInput(l));
    case Function(_, _, _) =>
      r := VisitFunction(v, s);
    case Alias(inner, _) =>
      r := Accept(v, inner);
    case Reference(_, _) =>
      r := v.visitReference(s);
    case DynamicReference(_, _) =>
      r := v.visitReference(s);
    case VoidReference(_, _) =>
      r := v.visitReference(s);
    case OtherSymbol(kind, text, _) =>
      r := Err(UnsupportedOperation(CannotHandleMessage(kind, text)));
  }

  /**
   * `visitFunction`: looks the function up; for a scalar, compiles the
   * implementation against the raw arguments (an error there ends the
   * visit) and then fills an array with
   * the compiled arguments, in order; otherwise refuses the function.
   */
  method VisitFunction(v: Visitor, f: Symbol) returns (r: Result<Input, CompileError>)
    requires f.Function? && Resolved(v, f)
    ensures r == Compile(v, f)
    decreases f, 0, 0
  {
    var functionImplementation := v.getQualified(f).value;
    if functionImplementation.ScalarImplementation? {
      var arguments := f.arguments;
      var compiled := v.compileScalar(functionImplementation.scalar, arguments, v.userName, v.roles);
      if compiled.Err? {
        return Err(compiled.error);
      }
      var scalarImpl := compiled.value;
      var argumentInputs := new Input[|arguments|];
      var i := 0;
      PrependNothing(CompileArguments(v, f, 0));
      while i < |arguments|
        invariant 0 <= i <= |arguments|
        invariant ArgumentsResolved(v, f, i)
        invariant CompileArguments(v, f, 0) == PrependAll(argumentInputs[..i], CompileArguments(v, f, i))
      {
        var input := Accept(v, arguments[i]);
        if input.Err? {
          return Err(input.error);
        }
        PrependTwice(argumentInputs[..i], input.value, CompileArguments(v, f, i + 1));
        argumentInputs[i] := input.value;
        assert argumentInputs[..i + 1] == argumentInputs[..i] + [input.value];
        i := i + 1;
      }
      assert argumentInputs[..i] + [] == argumentInputs[..];
      r := Ok(FunctionExpression(scalarImpl, argumentInputs[..]));
    } else {
      r := Err(UnsupportedFeature(NotScalarMessage(f.name, f.arguments)));
    }
  }

  /** A literal is its own input. */
  lemma LiteralCompilesToItself(v: Visitor, l: Literal)
    ensures Compile(v, LiteralSymbol(l)) == Ok(LiteralInput(l))
  {
  }

  /** An alias compiles to whatever the symbol it names compiles to. */
  lemma AliasIsTransparent(v: Visitor, s: Symbol, alias: string)
    requires Resolved(v, s)
    ensures Resolved(v, Alias(s, alias))
    ensures Compile(v, Alias(s, alias)) == Compile(v, s)
  {
  }

  /** Every reference kind yields exactly what the shared reference hook yields. */
  lemma ReferencesUseTheHook(v: Visitor, column: string, columnType: string)
    ensures Compile(v, Reference(column, columnType)) == v.visitReference(Reference(column, columnType))
    ensures Compile(v, DynamicReference(column, columnType)) == v.visitReference(DynamicReference(column, columnType))
    ensures Compile(v, VoidReference(column, columnType)) == v.visitReference(VoidReference(column, columnType))
  {
  }

  /** Any other symbol kind is refused with its kind and text, and never yields an input. */
  lemma OtherSymbolsAreRefused(v: Visitor, kind: string, text: string, otherType: string)
    ensures Compile(v, OtherSymbol(kind, text, otherType))
         == Err(UnsupportedOperation("Can't handle Symbol [" + kind + ": " + text + "]"))
  {
  }

  /** A non-scalar implementation is refused with the function's name and its argument types. */
  lemma NonScalarFunctionsAreRefused(v: Visitor, f: Symbol)
    requires f.Function? && Resolved(v, f)
    requires v.getQualified(f).value.NonScalarImplementation?
    ensures Compile(v, f) == Err(UnsupportedFeature(
      "Function " + f.name + "(" + Join(", ", ArgumentTypes(f.arguments)) + ") is not a scalar function."))
  {
  }

  /** One part is joined to itself: no separator before or after it. */
  lemma JoinOne(sep: string, p: string)
    ensures Join(sep, [p]) == p
  {
  }

  /**
   * Appending a part to a non-empty list adds exactly one separator and the
   * part at the end: the separator goes between consecutive parts only.
   */
  lemma {:induction false} JoinAppend(sep: string, parts: seq<string>, p: string)
    requires |parts| > 0
    ensures Join(sep, parts + [p]) == Join(sep, parts) + sep + p
    decreases |parts|
  {
    if |parts| == 1 {
      assert parts + [p] == [parts[0], p];
      assert [parts[0], p][1..] == [p];
    } else {
      assert (parts + [p])[1..] == parts[1..] + [p];
      JoinAppend(sep, parts[1..], p);
      assert parts[0] + sep + (Join(sep, parts[1..]) + sep + p)
          == (parts[0] + sep + Join(sep, parts[1..])) + sep + p;
    }
  }

  /**
   * The argument walk succeeds exactly when every argument from `i` on
   * compiles; then it yields one input per argument, in argument order.
   * Otherwise it fails with the error of the first argument that fails,
   * all the arguments before it having compiled.
   */
  lemma {:induction false} CompileArgumentsMeaning(v: Visitor, f: Symbol, i: nat)
    requires f.Function? && i <= |f.arguments|
    requires ArgumentsResolved(v, f, i)
    ensures CompileArguments(v, f, i).Ok? <==>
      forall k :: i <= k < |f.arguments| ==> Resolved(v, f.arguments[k]) && Compile(v, f.arguments[k]).Ok?
    ensures CompileArguments(v, f, i).Ok? ==>
      && |CompileArguments(v, f, i).value| == |f.arguments| - i
      && forall k :: i <= k < |f.arguments| ==>
           Resolved(v, f.arguments[k]) && CompileArguments(v, f, i).value[k - i] == Compile(v, f.arguments[k]).value
    ensures CompileArguments(v, f, i).Err? ==>
      exists k ::
        && i <= k < |f.arguments|
        && (forall j :: i <= j < k ==> Resolved(v, f.arguments[j]) && Compile(v, f.arguments[j]).Ok?)
        && Resolved(v, f.arguments[k])
        && Compile(v, f.arguments[k]) == Err(CompileArguments(v, f, i).error)
    decreases |f.arguments| - i
  {
    if i < |f.arguments| {
      if Compile(v, f.arguments[i]).Ok? {
        CompileArgumentsMeaning(v, f, i + 1);
        if CompileArguments(v, f, i + 1).Err? {
          var k :| i + 1 <= k < |f.arguments|
            && (forall j :: i + 1 <= j < k ==> Resolved(v, f.arguments[j]) && Compile(v, f.arguments[j]).Ok?)
            && Resolved(v, f.arguments[k])
            && Compile(v, f.arguments[k]) == Err(CompileArguments(v, f, i + 1).error);
          assert forall j :: i <= j < k ==> Resolved(v, f.arguments[j]) && Compile(v, f.arguments[j]).Ok?;
        }
      }
    }
  }

  /** What `Scalar.compile` returns for a function the registry maps to a scalar. */
  function CompiledScalar(v: Visitor, f: Symbol): Result<Scalar, CompileError>
    requires f.Function? && v.getQualified(f).Some? && v.getQualified(f).value.ScalarImplementation?
  {
    v.compileScalar(v.getQualified(f).value.scalar, f.arguments, v.userName, v.roles)
  }

  /**
   * A scalar function compiles to a function expression holding the
   * implementation `Scalar.compile` returned for the raw arguments, with
   * one input per argument, the k-th being the compiled k-th argument; it
   * compiles exactly when `Scalar.compile` returns and all its arguments
   * compile.
   */
  lemma ScalarFunctionShape(v: Visitor, f: Symbol)
    requires f.Function? && Resolved(v, f)
    requires v.getQualified(f).value.ScalarImplementation?
    ensures Compile(v, f).Ok? <==>
      && CompiledScalar(v, f).Ok?
      && forall k :: 0 <= k < |f.arguments| ==> Resolved(v, f.arguments[k]) && Compile(v, f.arguments[k]).Ok?
    ensures Compile(v, f).Ok? ==>
      && Compile(v, f).value.FunctionExpression?
      && CompiledScalar(v, f).Ok?
      && Compile(v, f).value.scalar == CompiledScalar(v, f).value
      && |Compile(v, f).value.argumentInputs| == |f.arguments|
      && forall k :: 0 <= k < |f.arguments| ==>
           Resolved(v, f.arguments[k]) && Compile(v, f).value.argumentInputs[k] == Compile(v, f.arguments[k]).value
  {
    if CompiledScalar(v, f).Ok? {
      CompileArgumentsMeaning(v, f, 0);
    }
  }

  /**
   * When a scalar function fails, an error of `Scalar.compile` comes first:
   * it is the function's error whatever the arguments are, and no argument
   * is visited. Otherwise the function fails with the error of its first
   * failing argument, all arguments before that one having compiled.
   */
  lemma ScalarFunctionFirstError(v: Visitor, f: Symbol)
    requires f.Function? && Resolved(v, f)
    requires v.getQualified(f).value.ScalarImplementation?
    requires Compile(v, f).Err?
    ensures CompiledScalar(v, f).Err? ==> Compile(v, f).error == CompiledScalar(v, f).error
    ensures CompiledScalar(v, f).Ok? ==> exists k ::
      && 0 <= k < |f.arguments|
      && (forall j :: 0 <= j < k ==> Resolved(v, f.arguments[j]) && Compile(v, f.arguments[j]).Ok?)
      && Resolved(v, f.arguments[k])
      && Compile(v, f.arguments[k]) == Err(Compile(v, f).error)
  {
    if CompiledScalar(v, f).Ok? {
      CompileArgumentsMeaning(v, f, 0);
    }
  }

  // Shape preservation: the literals of a tree without references survive
  // compilation unchanged and in order.

  /** No reference nodes anywhere in the tree. */
  predicate NoReferences(s: Symbol)
    decreases s, 1, 0
  {
    match s
    case Function(_, _, _) => ArgumentsHaveNoReferences(s, 0)
    case Alias(inner, _) => NoReferences(inner)
    case Reference(_, _) => false
    case DynamicReference(_, _) => false
    case VoidReference(_, _) => false
    case _ => true
  }

  predicate ArgumentsHaveNoReferences(f: Symbol, i: nat)
    requires f.Function? && i <= |f.arguments|
    decreases f, 0, |f.arguments| - i
  {
    i == |f.arguments| || (NoReferences(f.arguments[i]) && ArgumentsHaveNoReferences(f, i + 1))
  }

  /** The literal leaves of a symbol tree, left to right. */
  function SymbolLiterals(s: Symbol): seq<Literal>
    decreases s, 1, 0
  {
    match s
    case LiteralSymbol(l) => [l]
    case Function(_, _, _) => ArgumentLiterals(s, 0)
    case Alias(inner, _) => SymbolLiterals(inner)
    case _ => []
  }

  function ArgumentLiterals(f: Symbol, i: nat): seq<Literal>
    requires f.Function? && i <= |f.arguments|
    decreases f, 0, |f.arguments| - i
  {
    if i == |f.arguments| then [] else SymbolLiterals(f.arguments[i]) + ArgumentLiterals(f, i + 1)
  }

  /** The literal leaves of an evaluator tree, left to right. */
  function InputLiterals(x: Input): seq<Literal>
  {
    match x
    case LiteralInput(l) => [l]
    case FunctionExpression(_, argumentInputs) => InputsLiterals(argumentInputs)
    case ReferenceInput(_, _) => []
  }

  function InputsLiterals(xs: seq<Input>): seq<Literal>
  {
    if |xs| == 0 then [] else InputLiterals(xs[0]) + InputsLiterals(xs[1..])
  }

  /** A successful compilation of a tree without references keeps its literals, in order. */
  lemma {:induction false} CompileKeepsLiterals(v: Visitor, s: Symbol)
    requires Resolved(v, s) && NoReferences(s)
    requires Compile(v, s).Ok?
    ensures InputLiterals(Compile(v, s).value) == SymbolLiterals(s)
    decreases s, 1, 0
  {
    match s
    case LiteralSymbol(_) =>
    case Function(_, _, _) =>
      CompileArgumentsKeepLiterals(v, s, 0);
    case Alias(inner, _) =>
      CompileKeepsLiterals(v, inner);
    case OtherSymbol(_, _, _) =>
  }

  lemma {:induction false} CompileArgumentsKeepLiterals(v: Visitor, f: Symbol, i: nat)
    requires f.Function? && i <= |f.arguments|
    requires ArgumentsResolved(v, f, i) && ArgumentsHaveNoReferences(f, i)
    requires CompileArguments(v, f, i).Ok?
    ensures InputsLiterals(CompileArguments(v, f, i).value) == ArgumentLiterals(f, i)
    decreases f, 0, |f.arguments| - i
  {
    if i < |f.arguments| {
      CompileKeepsLiterals(v, f.arguments[i]);
      CompileArgumentsKeepLiterals(v, f, i + 1);
      var xs := CompileArguments(v, f, i).value;
      assert xs[1..] == CompileArguments(v, f, i + 1).value;
    }
  }
}
