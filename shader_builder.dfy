/** The shader builder: it gathers distance-function definitions (one per function
    name), the operations used, and the per-pixel statements, then splices them into
    a fixed WGSL vertex and fragment template. */
module Builder {
  import opened Collections
  import opened Catalog
  import opened Fragment
  import opened ShaderText

  /** What a builder holds: the `sdfFunctions`, `sdfFunctionNames` and `operations`
      sets, each in insertion order, and the `shapeOperationsCode` string. */
  datatype Registry = Registry(
    sdfFunctions: seq<string>,
    sdfFunctionNames: seq<string>,
    operations: seq<Operation>,
    shapeOperationsCode: string)

  /** A freshly constructed builder. */
  function Fresh(): (r: Registry)
    ensures |r.sdfFunctions| == |r.sdfFunctionNames| == |r.operations| == |r.shapeOperationsCode| == 0
  {
    Registry([], [], [], "")
  }

  /** The registration both `addShape` and `addShapes` begin with: the class's
      definition and name when the name is new, then the operation (added once
      under a membership test and once more unconditionally). */
  function Register(r: Registry, cls: ShapeClass, op: Operation): (q: Registry)
    ensures q.shapeOperationsCode == r.shapeOperationsCode
    ensures cls.sdFunctionName in q.sdfFunctionNames && op in q.operations
    ensures r.sdfFunctions <= q.sdfFunctions && r.sdfFunctionNames <= q.sdfFunctionNames
    ensures r.operations <= q.operations
    ensures cls.sdFunctionName in r.sdfFunctionNames
        ==> q.sdfFunctions == r.sdfFunctions && q.sdfFunctionNames == r.sdfFunctionNames
    ensures cls.sdFunctionName !in r.sdfFunctionNames
        ==> q.sdfFunctionNames == r.sdfFunctionNames + [cls.sdFunctionName]
    ensures cls.sdFunctionName !in r.sdfFunctionNames && cls.sdFunction !in r.sdfFunctions
        ==> q.sdfFunctions == r.sdfFunctions + [cls.sdFunction]
    ensures cls.sdFunctionName !in r.sdfFunctionNames && cls.sdFunction in r.sdfFunctions
        ==> q.sdfFunctions == r.sdfFunctions
    ensures q.operations == if op in r.operations then r.operations else r.operations + [op]
  {
    var named :=
      if cls.sdFunctionName in r.sdfFunctionNames then r
      else r.(sdfFunctions := SetAdd(r.sdfFunctions, cls.sdFunction),
              sdfFunctionNames := SetAdd(r.sdfFunctionNames, cls.sdFunctionName));
    var once := if op in named.operations then named else named.(operations := SetAdd(named.operations, op));
    once.(operations := SetAdd(once.operations, op))
  }

  /** `addShape(cls, op, ...args)`. */
  function AddShapeResult(r: Registry, cls: ShapeClass, op: Operation, args: Args): Registry
    requires Fits(cls.kind, args)
  {
    Register(r, cls, op).(shapeOperationsCode := r.shapeOperationsCode + OperationCode(cls.kind, op, args))
  }

  /** The statements of `paramsArray.reduce(...)`, concatenated left to right. */
  function ReduceCode(k: Kind, op: Operation, paramsArray: seq<Args>): string
    requires forall i :: 0 <= i < |paramsArray| ==> Fits(k, paramsArray[i])
  {
    if paramsArray == [] then ""
    else ReduceCode(k, op, paramsArray[..|paramsArray| - 1]) + OperationCode(k, op, paramsArray[|paramsArray| - 1])
  }

  /** `addShapes(cls, op, paramsArray)`. */
  function AddShapesResult(r: Registry, cls: ShapeClass, op: Operation, paramsArray: seq<Args>): Registry
    requires forall i :: 0 <= i < |paramsArray| ==> Fits(cls.kind, paramsArray[i])
  {
    Register(r, cls, op).(shapeOperationsCode := r.shapeOperationsCode + ReduceCode(cls.kind, op, paramsArray))
  }

  /** One `addShape(cls, op, ...p)` for each `p` of `paramsArray`, in order. */
  function AddEach(r: Registry, cls: ShapeClass, op: Operation, paramsArray: seq<Args>): Registry
    requires forall i :: 0 <= i < |paramsArray| ==> Fits(cls.kind, paramsArray[i])
  {
    if paramsArray == [] then r
    else AddShapeResult(AddEach(r, cls, op, paramsArray[..|paramsArray| - 1]), cls, op, paramsArray[|paramsArray| - 1])
  }

  /** Registering the same class and operation again changes nothing. */
  lemma RegisterIdempotent(r: Registry, cls: ShapeClass, op: Operation)
    ensures Register(Register(r, cls, op), cls, op) == Register(r, cls, op)
  {
    var q := Register(r, cls, op);
    assert cls.sdFunctionName in q.sdfFunctionNames && op in q.operations;
  }

  /** Adding a shape only appends: the old code is a prefix of the new code, and what
      follows is exactly the shape's statement. Re-adding a class whose name is
      registered leaves the definitions and names as they were. */
  lemma AddShapeAppends(r: Registry, cls: ShapeClass, op: Operation, args: Args)
    requires Fits(cls.kind, args)
    ensures var q := AddShapeResult(r, cls, op, args);
      r.shapeOperationsCode <= q.shapeOperationsCode
      && q.shapeOperationsCode[|r.shapeOperationsCode|..] == OperationCode(cls.kind, op, args)
      && (cls.sdFunctionName in r.sdfFunctionNames
          ==> q.sdfFunctions == r.sdfFunctions && q.sdfFunctionNames == r.sdfFunctionNames)
  {
    var q := AddShapeResult(r, cls, op, args);
    assert q.shapeOperationsCode == r.shapeOperationsCode + OperationCode(cls.kind, op, args);
  }

  /** `addShapes(cls, op, [p1, ..., pn])` reaches the state of `addShape(cls, op,
      p1)` through `addShape(cls, op, pn)` when n > 0. */
  lemma {:induction false} AddShapesIsRepeatedAddShape(r: Registry, cls: ShapeClass, op: Operation, paramsArray: seq<Args>)
    requires forall i :: 0 <= i < |paramsArray| ==> Fits(cls.kind, paramsArray[i])
    requires |paramsArray| > 0
    ensures AddShapesResult(r, cls, op, paramsArray) == AddEach(r, cls, op, paramsArray)
  {
    var init := paramsArray[..|paramsArray| - 1];
    if |init| > 0 {
      AddShapesIsRepeatedAddShape(r, cls, op, init);
      AddShapesStep(r, cls, op, paramsArray);
    } else {
      AddShapesSingle(r, cls, op, paramsArray);
    }
  }

  /** With one parameter list `addShapes` is one `addShape`. */
  lemma AddShapesSingle(r: Registry, cls: ShapeClass, op: Operation, paramsArray: seq<Args>)
    requires |paramsArray| == 1 && Fits(cls.kind, paramsArray[0])
    ensures AddShapesResult(r, cls, op, paramsArray) == AddShapeResult(r, cls, op, paramsArray[0])
  {
    ReduceOne(cls.kind, op, paramsArray);
  }

  lemma ReduceOne(k: Kind, op: Operation, paramsArray: seq<Args>)
    requires |paramsArray| == 1 && Fits(k, paramsArray[0])
    ensures ReduceCode(k, op, paramsArray) == OperationCode(k, op, paramsArray[0])
  {
    assert paramsArray[..0] == [];
    assert ReduceCode(k, op, paramsArray) == "" + OperationCode(k, op, paramsArray[0]);
  }

  /** With no parameter lists `addShapes` still registers the class and the
      operation, and appends no code. */
  lemma AddShapesNone(r: Registry, cls: ShapeClass, op: Operation)
    ensures AddShapesResult(r, cls, op, []) == Register(r, cls, op)
  {
    assert r.shapeOperationsCode + "" == r.shapeOperationsCode;
  }

  /** `addShapes` with one more parameter list is one more `addShape` after it. */
  lemma AddShapesStep(r: Registry, cls: ShapeClass, op: Operation, paramsArray: seq<Args>)
    requires forall i :: 0 <= i < |paramsArray| ==> Fits(cls.kind, paramsArray[i])
    requires |paramsArray| > 0
    ensures AddShapesResult(r, cls, op, paramsArray)
         == AddShapeResult(AddShapesResult(r, cls, op, paramsArray[..|paramsArray| - 1]), cls, op, paramsArray[|paramsArray| - 1])
  {
    var init := paramsArray[..|paramsArray| - 1];
    var code := OperationCode(cls.kind, op, paramsArray[|paramsArray| - 1]);
    var q := AddShapesResult(r, cls, op, init);
    var reduced := ReduceCode(cls.kind, op, init);
    RegisterIgnoresCode(Register(r, cls, op), cls, op, r.shapeOperationsCode + reduced);
    RegisterIdempotent(r, cls, op);
    assert Register(q, cls, op) == q;
    AppendAssociative(r.shapeOperationsCode, reduced, code);
  }

  /** Registration never looks at the code. */
  lemma RegisterIgnoresCode(r: Registry, cls: ShapeClass, op: Operation, code: string)
    ensures Register(r.(shapeOperationsCode := code), cls, op) == Register(r, cls, op).(shapeOperationsCode := code)
  {
  }

  /** The statements `addShapes` folds in, one per parameter list. */
  function StatementsOf(k: Kind, op: Operation, paramsArray: seq<Args>): (r: seq<Statement>)
    ensures |r| == |paramsArray|
  {
    if paramsArray == [] then []
    else StatementsOf(k, op, paramsArray[..|paramsArray| - 1]) + [Statement(k, op, paramsArray[|paramsArray| - 1])]
  }

  /** The reduced text is the rendering of those statements after the ones before. */
  lemma RenderReduce(stmts: seq<Statement>, k: Kind, op: Operation, paramsArray: seq<Args>)
    requires AllWellFormed(stmts)
    requires forall i :: 0 <= i < |paramsArray| ==> Fits(k, paramsArray[i])
    ensures AllWellFormed(stmts + StatementsOf(k, op, paramsArray))
    ensures RenderAll(stmts + StatementsOf(k, op, paramsArray)) == RenderAll(stmts) + ReduceCode(k, op, paramsArray)
  {
    RenderedStatements(k, op, paramsArray);
    RenderConcat(stmts, StatementsOf(k, op, paramsArray));
  }

  /** `addShapes`' reduction renders exactly the statements it stands for. */
  lemma {:induction false} RenderedStatements(k: Kind, op: Operation, paramsArray: seq<Args>)
    requires forall i :: 0 <= i < |paramsArray| ==> Fits(k, paramsArray[i])
    ensures AllWellFormed(StatementsOf(k, op, paramsArray))
    ensures RenderAll(StatementsOf(k, op, paramsArray)) == ReduceCode(k, op, paramsArray)
  {
    if paramsArray != [] {
      var init := paramsArray[..|paramsArray| - 1];
      RenderedStatements(k, op, init);
      RenderAppend(StatementsOf(k, op, init), Statement(k, op, paramsArray[|paramsArray| - 1]));
    }
  }

  /** The classes' definition texts, in order. */
  function Texts(cs: seq<ShapeClass>): (r: seq<string>)
    ensures |r| == |cs| && forall i :: 0 <= i < |cs| ==> r[i] == cs[i].sdFunction
  {
    seq(|cs|, i requires 0 <= i < |cs| => cs[i].sdFunction)
  }

  /** The definition texts of `cs` as a `Set` collects them: in order of first
      occurrence, each once. */
  function Collected(cs: seq<ShapeClass>): (r: seq<string>)
    ensures NoDup(r) && |r| <= |cs|
    ensures forall i :: 0 <= i < |cs| ==> cs[i].sdFunction in r
  {
    if cs == [] then []
    else
      var r := SetAdd(Collected(cs[..|cs| - 1]), cs[|cs| - 1].sdFunction);
      assert forall i :: 0 <= i < |cs| - 1 ==> cs[i] == cs[..|cs| - 1][i];
      r
  }

  predicate AllDeclare(cs: seq<ShapeClass>) {
    forall i :: 0 <= i < |cs| ==> Declares(cs[i])
  }

  predicate DistinctNames(cs: seq<ShapeClass>) {
    forall i, j :: 0 <= i < j < |cs| ==> cs[i].sdFunctionName != cs[j].sdFunctionName
  }

  /** A class whose definition declares its name brings a definition no class of
      another name has brought. */
  lemma NewNameNewText(cs: seq<ShapeClass>, cls: ShapeClass)
    requires AllDeclare(cs) && Declares(cls)
    requires forall i :: 0 <= i < |cs| ==> cs[i].sdFunctionName != cls.sdFunctionName
    ensures cls.sdFunction !in Texts(cs)
  {
    forall i | 0 <= i < |cs|
      ensures cs[i].sdFunction != cls.sdFunction
    {
      DistinctNamesDistinctTexts(cs[i], cls);
    }
  }

  /** When every class declares the name it reports and the names differ, the `Set`
      keeps every definition: one definition per name, in registration order. */
  lemma {:induction false} OneDefinitionPerName(cs: seq<ShapeClass>)
    requires AllDeclare(cs) && DistinctNames(cs)
    ensures Collected(cs) == Texts(cs)
  {
    if cs != [] {
      var init := cs[..|cs| - 1];
      var last := cs[|cs| - 1];
      assert forall i :: 0 <= i < |init| ==> init[i] == cs[i];
      OneDefinitionPerName(init);
      NewNameNewText(init, last);
      assert Texts(cs) == Texts(init) + [last.sdFunction];
    }
  }

  /** What a builder keeps true: its sets hold no duplicates, its code is the
      rendering of its statements, every statement's operation and class name are
      registered, and `sdfFunctions` is the `Set` of the registered classes'
      definitions, one registered class per name. */
  ghost predicate Inv(r: Registry, statements: seq<Statement>, sources: seq<ShapeClass>, registered: seq<ShapeClass>) {
    && NoDup(r.sdfFunctionNames) && NoDup(r.operations)
    && AllWellFormed(statements) && r.shapeOperationsCode == RenderAll(statements)
    && |sources| == |statements|
    && (forall i :: 0 <= i < |statements| ==>
          statements[i].kind == sources[i].kind && statements[i].op in r.operations
          && sources[i].sdFunctionName in r.sdfFunctionNames)
    && |registered| == |r.sdfFunctionNames|
    && (forall i :: 0 <= i < |registered| ==> registered[i].sdFunctionName == r.sdfFunctionNames[i])
    && r.sdfFunctions == Collected(registered)
  }

  /** The registered classes after registering `cls` in state `r`. */
  function RegisteredAfter(r: Registry, registered: seq<ShapeClass>, cls: ShapeClass): seq<ShapeClass> {
    if cls.sdFunctionName in r.sdfFunctionNames then registered else registered + [cls]
  }

  lemma RegisterKeepsInv(r: Registry, statements: seq<Statement>, sources: seq<ShapeClass>, registered: seq<ShapeClass>, cls: ShapeClass, op: Operation)
    requires Inv(r, statements, sources, registered)
    ensures Inv(Register(r, cls, op), statements, sources, RegisteredAfter(r, registered, cls))
  {
    if cls.sdFunctionName !in r.sdfFunctionNames {
      var after := registered + [cls];
      assert after[..|registered|] == registered;
      assert Collected(after) == SetAdd(r.sdfFunctions, cls.sdFunction);
    }
  }

  lemma AppendKeepsInv(r: Registry, statements: seq<Statement>, sources: seq<ShapeClass>, registered: seq<ShapeClass>, cls: ShapeClass, op: Operation, args: Args)
    requires Inv(r, statements, sources, registered)
    requires Fits(cls.kind, args) && op in r.operations && cls.sdFunctionName in r.sdfFunctionNames
    ensures Inv(r.(shapeOperationsCode := r.shapeOperationsCode + OperationCode(cls.kind, op, args)),
                statements + [Statement(cls.kind, op, args)], sources + [cls], registered)
  {
    RenderAppend(statements, Statement(cls.kind, op, args));
  }

  lemma AppendAllKeepsInv(r: Registry, statements: seq<Statement>, sources: seq<ShapeClass>, registered: seq<ShapeClass>, cls: ShapeClass, op: Operation, paramsArray: seq<Args>)
    requires Inv(r, statements, sources, registered)
    requires forall i :: 0 <= i < |paramsArray| ==> Fits(cls.kind, paramsArray[i])
    requires op in r.operations && cls.sdFunctionName in r.sdfFunctionNames
    ensures Inv(r.(shapeOperationsCode := r.shapeOperationsCode + ReduceCode(cls.kind, op, paramsArray)),
                statements + StatementsOf(cls.kind, op, paramsArray), sources + Repeat(cls, |paramsArray|), registered)
  {
    RenderReduce(statements, cls.kind, op, paramsArray);
    var added := StatementsOf(cls.kind, op, paramsArray);
    StatementsOfAt(cls.kind, op, paramsArray);
    var st := statements + added;
    var so := sources + Repeat(cls, |paramsArray|);
    forall i | 0 <= i < |st|
      ensures st[i].kind == so[i].kind && st[i].op in r.operations && so[i].sdFunctionName in r.sdfFunctionNames
    {
      if i >= |statements| {
        assert st[i] == added[i - |statements|];
      }
    }
  }

  /** `n` copies of `c`. */
  function Repeat<T>(c: T, n: nat): (r: seq<T>)
    ensures |r| == n && forall i :: 0 <= i < n ==> r[i] == c
  {
    seq(n, _ => c)
  }

  lemma {:induction false} StatementsOfAt(k: Kind, op: Operation, paramsArray: seq<Args>)
    ensures forall i :: 0 <= i < |paramsArray| ==> StatementsOf(k, op, paramsArray)[i] == Statement(k, op, paramsArray[i])
  {
    if paramsArray != [] {
      var init := paramsArray[..|paramsArray| - 1];
      StatementsOfAt(k, op, init);
      assert forall i :: 0 <= i < |init| ==> init[i] == paramsArray[i];
    }
  }

  /** One call a builder received. */
  datatype Call =
    | AddShapeCall(cls: ShapeClass, op: Operation, args: Args)
    | AddShapesCall(cls: ShapeClass, op: Operation, paramsArray: seq<Args>)

  /** The parameters are the ones the class's generator expects. */
  predicate CallFits(c: Call) {
    match c
    case AddShapeCall(cls, _, args) => Fits(cls.kind, args)
    case AddShapesCall(cls, _, ps) => forall i :: 0 <= i < |ps| ==> Fits(cls.kind, ps[i])
  }

  predicate AllFit(h: seq<Call>) {
    forall i :: 0 <= i < |h| ==> CallFits(h[i])
  }

  /** The state after one call. */
  function Apply(r: Registry, c: Call): Registry
    requires CallFits(c)
  {
    match c
    case AddShapeCall(cls, op, args) => AddShapeResult(r, cls, op, args)
    case AddShapesCall(cls, op, ps) => AddShapesResult(r, cls, op, ps)
  }

  /** The state of a fresh builder after the calls `h`, in order. */
  function Replay(h: seq<Call>): Registry
    requires AllFit(h)
  {
    if h == [] then Fresh() else Apply(Replay(h[..|h| - 1]), h[|h| - 1])
  }

  /** The statements the calls `h` appended, in order. */
  function Statements(h: seq<Call>): seq<Statement> {
    if h == [] then []
    else
      var c := h[|h| - 1];
      Statements(h[..|h| - 1]) + match c
        case AddShapeCall(cls, op, args) => [Statement(cls.kind, op, args)]
        case AddShapesCall(cls, op, ps) => StatementsOf(cls.kind, op, ps)
  }

  /** The class behind each statement of `Statements(h)`. */
  function Sources(h: seq<Call>): seq<ShapeClass> {
    if h == [] then []
    else
      var c := h[|h| - 1];
      Sources(h[..|h| - 1]) + match c
        case AddShapeCall(cls, _, _) => [cls]
        case AddShapesCall(cls, _, ps) => Repeat(cls, |ps|)
  }

  /** The classes whose definitions the calls `h` registered, one per new name. */
  function Registered(h: seq<Call>): seq<ShapeClass>
    requires AllFit(h)
  {
    if h == [] then []
    else RegisteredAfter(Replay(h[..|h| - 1]), Registered(h[..|h| - 1]), h[|h| - 1].cls)
  }

  /** One more call takes the replayed state one step further. */
  lemma ReplayAppend(h: seq<Call>, c: Call)
    requires AllFit(h) && CallFits(c)
    ensures AllFit(h + [c]) && Replay(h + [c]) == Apply(Replay(h), c)
  {
    assert (h + [c])[..|h|] == h;
  }

  lemma AllFitPrefix(h: seq<Call>)
    requires AllFit(h) && h != []
    ensures AllFit(h[..|h| - 1]) && CallFits(h[|h| - 1])
  {
    assert forall i :: 0 <= i < |h| - 1 ==> h[..|h| - 1][i] == h[i];
  }

  /** Every state a builder reaches keeps the invariant. */
  lemma {:induction false} ReplayKeepsInv(h: seq<Call>)
    requires AllFit(h)
    ensures Inv(Replay(h), Statements(h), Sources(h), Registered(h))
  {
    if h != [] {
      var init := h[..|h| - 1];
      var c := h[|h| - 1];
      AllFitPrefix(h);
      ReplayKeepsInv(init);
      var r := Replay(init);
      RegisterKeepsInv(r, Statements(init), Sources(init), Registered(init), c.cls, c.op);
      var q := Register(r, c.cls, c.op);
      match c
      case AddShapeCall(cls, op, args) =>
        AppendKeepsInv(q, Statements(init), Sources(init), Registered(h), cls, op, args);
      case AddShapesCall(cls, op, ps) =>
        AppendAllKeepsInv(q, Statements(init), Sources(init), Registered(h), cls, op, ps);
    }
  }

  class ShaderBuilder {
    var sdfFunctions: seq<string>
    var sdfFunctionNames: seq<string>
    var operations: seq<Operation>
    var shapeOperationsCode: string
    /** The calls this builder has received, oldest first. */
    ghost var history: seq<Call>

    function State(): Registry
      reads this
    {
      Registry(sdfFunctions, sdfFunctionNames, operations, shapeOperationsCode)
    }

    /** The builder holds the state its calls lead to. */
    ghost predicate Valid()
      reads this
    {
      AllFit(history) && State() == Replay(history)
    }

    constructor()
      ensures Valid()
      ensures State() == Fresh() && history == []
    {
      sdfFunctions := [];
      sdfFunctionNames := [];
      operations := [];
      shapeOperationsCode := "";
      history := [];
    }

    /** The registration `addShape` and `addShapes` both open with. */
    method RegisterClass(cls: ShapeClass, op: Operation)
      modifies this
      ensures State() == Register(old(State()), cls, op)
      ensures history == old(history)
    {
      var functionName := cls.sdFunctionName;
      if functionName !in sdfFunctionNames {
        sdfFunctions := SetAdd(sdfFunctions, cls.sdFunction);
        sdfFunctionNames := SetAdd(sdfFunctionNames, functionName);
      }
      if op !in operations {
        operations := SetAdd(operations, op);
      }
      operations := SetAdd(operations, op);
    }

    /** `addShape(cls, op, ...args)`. */
    method AddShape(cls: ShapeClass, op: Operation, args: Args)
      requires Valid() && Fits(cls.kind, args)
      modifies this
      ensures Valid()
      ensures State() == AddShapeResult(old(State()), cls, op, args)
      ensures history == old(history) + [AddShapeCall(cls, op, args)]
    {
      ghost var before := State();
      ghost var call := AddShapeCall(cls, op, args);
      ReplayAppend(history, call);
      RegisterClass(cls, op);
      shapeOperationsCode := shapeOperationsCode + OperationCode(cls.kind, op, args);
      assert State() == Apply(before, call);
      history := history + [call];
    }

    /** `addShapes(cls, op, paramsArray)`. */
    method AddShapes(cls: ShapeClass, op: Operation, paramsArray: seq<Args>)
      requires Valid()
      requires forall i :: 0 <= i < |paramsArray| ==> Fits(cls.kind, paramsArray[i])
      modifies this
      ensures Valid()
      ensures State() == AddShapesResult(old(State()), cls, op, paramsArray)
      ensures history == old(history) + [AddShapesCall(cls, op, paramsArray)]
    {
      ghost var before := State();
      ghost var call := AddShapesCall(cls, op, paramsArray);
      ReplayAppend(history, call);
      RegisterClass(cls, op);
      shapeOperationsCode := shapeOperationsCode + ReduceCode(cls.kind, op, paramsArray);
      assert State() == Apply(before, call);
      history := history + [call];
    }

    /** `generateOperationFunctions()`: one block per operator name registered as a
        string, in the fixed order union, subtract, intersect. */
    method GenerateOperationFunctions() returns (operationFunctions: string)
      ensures operationFunctions == OperatorFunctions(operations)
    {
      ghost var union := Optional(operations, "sdUnion");
      ghost var subtract := Optional(operations, "sdSubtract");
      ghost var intersect := Optional(operations, "sdIntersect");
      operationFunctions := "";
      if OpName("sdUnion") in operations {
        operationFunctions := operationFunctions + OperatorBlock("sdUnion");
      }
      assert operationFunctions == union;
      if OpName("sdSubtract") in operations {
        operationFunctions := operationFunctions + OperatorBlock("sdSubtract");
      }
      assert operationFunctions == union + subtract;
      if OpName("sdIntersect") in operations {
        operationFunctions := operationFunctions + OperatorBlock("sdIntersect");
      }
      assert operationFunctions == union + subtract + intersect;
      OperatorFunctionsUnfold(operations);
    }

    /** `generateShader()`: the template around the definitions joined by newlines,
        the operator functions and the statements. */
    function GenerateShader(): string
      reads this
    {
      ShaderOf(ShaderTemplate(), State())
    }
  }

  /** `generateShader()` for a builder in state `r`, around the template `t`: the
      definitions joined by newlines, the operator functions and the statement code,
      each at its place. */
  function ShaderOf(t: Template, r: Registry): (s: string)
    ensures Laid(s, t, Join(r.sdfFunctions, "\n"), OperatorFunctions(r.operations), r.shapeOperationsCode)
  {
    AssembleLayout(t, Join(r.sdfFunctions, "\n"), OperatorFunctions(r.operations), r.shapeOperationsCode);
    Assemble(t, Join(r.sdfFunctions, "\n"), OperatorFunctions(r.operations), r.shapeOperationsCode)
  }

  /** The shader a builder generates after the calls `h` holds its three parts at
      their places in the template: the definitions joined by newlines right after
      the head, the operator functions for the registered operations after them, and
      the rendering of every statement the calls appended, in call order, right
      before the fixed tail (the fragment stage's closing test of `sdf`). */
  lemma GeneratedShaderLayout(t: Template, h: seq<Call>)
    requires AllFit(h)
    ensures AllWellFormed(Statements(h))
    ensures var r := Replay(h);
      Laid(ShaderOf(t, r), t, Join(r.sdfFunctions, "\n"), OperatorFunctions(r.operations), RenderAll(Statements(h)))
  {
    CodeRendersStatements(h);
  }

  /** Fed only classes that declare the names they report, a builder holds one
      definition per name, in first-registration order. */
  lemma DefinitionPerName(h: seq<Call>)
    requires AllFit(h) && AllDeclare(Registered(h))
    ensures Replay(h).sdfFunctions == Texts(Registered(h))
    ensures |Replay(h).sdfFunctions| == |Replay(h).sdfFunctionNames|
  {
    ReplayKeepsInv(h);
    OneDefinitionPerName(Registered(h));
  }

  /** A builder's code is the rendering of the statements its calls appended, in
      call order. */
  lemma CodeRendersStatements(h: seq<Call>)
    requires AllFit(h)
    ensures AllWellFormed(Statements(h))
    ensures Replay(h).shapeOperationsCode == RenderAll(Statements(h))
  {
    ReplayKeepsInv(h);
  }

  /** Fed only catalog-like classes, a builder defines every distance function its
      statements call. */
  lemma CalledFunctionsDefined(h: seq<Call>)
    requires AllFit(h)
    requires forall i :: 0 <= i < |Sources(h)| ==> Catalogued(Sources(h)[i])
    requires AllDeclare(Registered(h))
    ensures |Statements(h)| == |Sources(h)|
    ensures forall i :: 0 <= i < |Statements(h)| ==>
      exists j :: 0 <= j < |Replay(h).sdfFunctions| && DeclaresName(Replay(h).sdfFunctions[j], SDFunctionName(Statements(h)[i].kind))
  {
    ReplayKeepsInv(h);
    DefinitionPerName(h);
    var r := Replay(h);
    var reg := Registered(h);
    forall i | 0 <= i < |Statements(h)|
      ensures exists j :: 0 <= j < |r.sdfFunctions| && DeclaresName(r.sdfFunctions[j], SDFunctionName(Statements(h)[i].kind))
    {
      var n := Sources(h)[i].sdFunctionName;
      var j :| 0 <= j < |r.sdfFunctionNames| && r.sdfFunctionNames[j] == n;
      assert DeclaresName(r.sdfFunctions[j], reg[j].sdFunctionName);
    }
  }

  /** Every statement whose operation the fragment stage can apply calls an operator
      function the shader defines. */
  lemma UsedOperatorsEmitted(h: seq<Call>)
    requires AllFit(h)
    ensures forall i ::
      (0 <= i < |Statements(h)| && Statements(h)[i].op in [OpName("sdUnion"), OpName("sdSubtract"), OpName("sdIntersect")])
      ==> Statements(h)[i].op.name in Emitted(Replay(h).operations, OperatorNames())
  {
    ReplayKeepsInv(h);
    EmittedExactly(Replay(h).operations, OperatorNames());
  }
}
