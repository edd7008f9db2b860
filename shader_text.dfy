/** The text `generateShader` produces around the builder's state: the operator
    functions `generateOperationFunctions` emits, and the fixed WGSL template with
    its three substitutions. */
module ShaderText {
  import opened Collections
  import opened Catalog

  /** The three operator functions the builder knows, in the order it emits them. */
  function OperatorNames(): seq<string> {
    ["sdUnion", "sdSubtract", "sdIntersect"]
  }

  /** The body of the operator function `n`. */
  function OperatorBody(n: string): string {
    if n == "sdUnion" then "min(d1, d2)"
    else if n == "sdSubtract" then "max(d1, -d2)"
    else "max(d1, d2)"
  }

  /** The text `generateOperationFunctions` appends for operator `n`. */
  function OperatorBlock(n: string): string {
    "\n        fn " + n + "(d1: f32, d2: f32) -> f32 {\n          return " + OperatorBody(n) + ";\n        }\n      "
  }

  /** The names of `names` present as plain strings in `ops`, in the order of `names`. */
  function Emitted(ops: seq<Operation>, names: seq<string>): seq<string> {
    if names == [] then []
    else (if OpName(names[0]) in ops then [names[0]] else []) + Emitted(ops, names[1..])
  }

  /** The blocks of the operators `e`, in order. */
  function Blocks(e: seq<string>): string {
    if e == [] then "" else OperatorBlock(e[0]) + Blocks(e[1..])
  }

  /** What `generateOperationFunctions` returns for the operations `ops`. */
  function OperatorFunctions(ops: seq<Operation>): string {
    Blocks(Emitted(ops, OperatorNames()))
  }

  /** An operator function is emitted exactly when its name was registered as a
      string; an object operation or any other name emits nothing. */
  lemma {:induction false} EmittedExactly(ops: seq<Operation>, names: seq<string>)
    ensures forall n :: n in Emitted(ops, names) <==> n in names && OpName(n) in ops
  {
    if names != [] {
      EmittedExactly(ops, names[1..]);
      assert names == [names[0]] + names[1..];
    }
  }

  /** Only membership matters: registration order, repetitions and object
      operations leave the emitted functions unchanged. */
  lemma {:induction false} EmittedByMembership(ops1: seq<Operation>, ops2: seq<Operation>, names: seq<string>)
    requires forall n :: n in names ==> (OpName(n) in ops1 <==> OpName(n) in ops2)
    ensures Emitted(ops1, names) == Emitted(ops2, names)
  {
    if names != [] {
      EmittedByMembership(ops1, ops2, names[1..]);
    }
  }

  /** With every name registered, all of them are emitted, in the fixed order. */
  lemma {:induction false} EmittedAll(ops: seq<Operation>, names: seq<string>)
    requires forall n :: n in names ==> OpName(n) in ops
    ensures Emitted(ops, names) == names
  {
    if names != [] {
      EmittedAll(ops, names[1..]);
    }
  }

  /** The fixed text around the shader's variable parts. */
  datatype Template = Template(head: string, between: string, middle: string, tail: string)

  /** `generateShader`'s template literal, cut at its three substitutions. */
  function ShaderTemplate(): Template {
    Template(ShaderHead(), "\n      ", GradientsAndVertexStage() + FragmentEntry(), FragmentExit())
  }

  /** The text up to the definitions: the vertex and uniform structures. */
  function ShaderHead(): string {
    "\n" +
    "      struct VertexInput {\n" +
    "        @location(0) pos: vec2f,\n" +
    "      };\n" +
    "\n" +
    "      struct VertexOutput {\n" +
    "        @builtin(position) pos: vec4f,\n" +
    "        @location(0) fragPos: vec2f,\n" +
    "      };\n" +
    "\n" +
    "      struct ColorUniforms {\n" +
    "        bgTopColor: vec4f,\n" +
    "        bgBottomColor: vec4f,\n" +
    "        shapeTopColor: vec4f,\n" +
    "        shapeBottomColor: vec4f,\n" +
    "      };\n" +
    "\n" +
    "      @group(0) @binding(0) var<uniform> colors: ColorUniforms;\n" +
    "\n" +
    "      "
  }

  /** The two gradients and the vertex stage. */
  function GradientsAndVertexStage(): string {
    "\n" +
    "\n" +
    "      fn getBackgroundGradient(pos: vec2f) -> vec4f {\n" +
    "        return mix(\n" +
    "          colors.bgBottomColor,\n" +
    "          colors.bgTopColor,\n" +
    "          pos.y * 0.5 + 0.5\n" +
    "        );\n" +
    "      }\n" +
    "\n" +
    "      fn getShapeGradient(pos: vec2f) -> vec4f {\n" +
    "        return mix(\n" +
    "          colors.shapeBottomColor,\n" +
    "          colors.shapeTopColor,\n" +
    "          clamp((pos.y + 1.0) * 0.5, 0.0, 1.0)\n" +
    "        );\n" +
    "      }\n" +
    "\n" +
    "      @vertex\n" +
    "      fn vertexMain(input: VertexInput) -> VertexOutput {\n" +
    "        var output: VertexOutput;\n" +
    "        output.pos = vec4f(input.pos, 0.0, 1.0);\n" +
    "        output.fragPos = input.pos;\n" +
    "        return output;\n" +
    "      }\n"
  }

  /** The fragment stage up to its statements: `sdf` starts at `1e10`. */
  function FragmentEntry(): string {
    "\n" +
    "      @fragment\n" +
    "      fn fragmentMain(input: VertexOutput) -> @location(0) vec4f {\n" +
    "        var sdf = 1e10; // ! using large value to be far by default, could be better\n" +
    "\n" +
    "        "
  }

  /** The fragment stage after its statements: the shape gradient when `sdf < 0.0`,
      else the background gradient. */
  function FragmentExit(): string {
    " // ! loop unrolling might cause issues with high shape amount\n" +
    "\n" +
    "        if (sdf < 0.0) {\n" +
    "          return getShapeGradient(input.fragPos);\n" +
    "        } else {\n" +
    "          return getBackgroundGradient(input.fragPos);\n" +
    "        }\n" +
    "      }\n" +
    "    "
  }

  /** The template with its substitutions filled in. */
  function Assemble(t: Template, definitions: string, operators: string, code: string): string {
    t.head + definitions + t.between + operators + t.middle + code + t.tail
  }

  /** `s` is the template `t` with each part verbatim at its place: the head, the
      definitions, the fixed separator, the operator functions, the fixed middle
      (which declares `var sdf = 1e10`), the statements and the tail. */
  predicate Laid(s: string, t: Template, definitions: string, operators: string, code: string) {
    var p := |t.head| + |definitions| + |t.between|;
    var q := p + |operators| + |t.middle|;
    && |s| == q + |code| + |t.tail|
    && s[..|t.head|] == t.head
    && s[|t.head|..|t.head| + |definitions|] == definitions
    && s[|t.head| + |definitions|..p] == t.between
    && s[p..p + |operators|] == operators
    && s[p + |operators|..q] == t.middle
    && s[q..q + |code|] == code
    && s[q + |code|..] == t.tail
  }

  /** Filling in the template lays every part at its place. */
  lemma AssembleLayout(t: Template, definitions: string, operators: string, code: string)
    ensures Laid(Assemble(t, definitions, operators, code), t, definitions, operators, code)
  {
    LayoutFront(t, definitions, operators, code);
    LayoutBack(t, definitions, operators, code);
  }

  /** The head, the definitions and the separator open the text. */
  lemma LayoutFront(t: Template, definitions: string, operators: string, code: string)
    ensures var s := Assemble(t, definitions, operators, code);
      var p := |t.head| + |definitions| + |t.between|;
      && s[..|t.head|] == t.head
      && s[|t.head|..|t.head| + |definitions|] == definitions
      && s[|t.head| + |definitions|..p] == t.between
  {
    var s := Assemble(t, definitions, operators, code);
    var h := t.head + definitions;
    var rest := operators + t.middle + code + t.tail;
    assert s == t.head + (definitions + t.between + rest);
    assert s == t.head + definitions + (t.between + rest);
    assert s == h + t.between + rest;
  }

  /** The operator functions, the middle, the statements and the tail close it. */
  lemma LayoutBack(t: Template, definitions: string, operators: string, code: string)
    ensures var s := Assemble(t, definitions, operators, code);
      var p := |t.head| + |definitions| + |t.between|;
      var q := p + |operators| + |t.middle|;
      && |s| == q + |code| + |t.tail|
      && s[p..p + |operators|] == operators
      && s[p + |operators|..q] == t.middle
      && s[q..q + |code|] == code
      && s[q + |code|..] == t.tail
  {
    var s := Assemble(t, definitions, operators, code);
    var a := t.head + definitions + t.between;
    var b := a + operators + t.middle;
    assert s == a + operators + (t.middle + code + t.tail);
    assert s == a + operators + t.middle + (code + t.tail);
    assert s == b + code + t.tail;
  }

  /** The three-way case split `OperatorFunctions` amounts to. */
  lemma OperatorFunctionsUnfold(ops: seq<Operation>)
    ensures OperatorFunctions(ops)
        == Optional(ops, "sdUnion") + Optional(ops, "sdSubtract") + Optional(ops, "sdIntersect")
  {
    BlocksOfThree(ops, "sdUnion", "sdSubtract", "sdIntersect");
  }

  /** The block of operator `n` when `n` is registered as a string, else nothing. */
  function Optional(ops: seq<Operation>, n: string): string {
    if OpName(n) in ops then OperatorBlock(n) else ""
  }

  /** `[n]` when `n` is registered as a string, else nothing. */
  function Pick(ops: seq<Operation>, n: string): seq<string> {
    if OpName(n) in ops then [n] else []
  }

  lemma BlocksOfThree(ops: seq<Operation>, a: string, b: string, c: string)
    ensures Blocks(Emitted(ops, [a, b, c])) == Optional(ops, a) + Optional(ops, b) + Optional(ops, c)
  {
    var names := [a, b, c];
    assert names[1..] == [b, c] && names[1..][1..] == [c] && [c][1..] == [];
    assert Emitted(ops, [c]) == Pick(ops, c) + [];
    assert Emitted(ops, [b, c]) == Pick(ops, b) + Pick(ops, c);
    assert Emitted(ops, names) == Pick(ops, a) + (Pick(ops, b) + Pick(ops, c));
    BlocksAppend(Pick(ops, b), Pick(ops, c));
    BlocksAppend(Pick(ops, a), Pick(ops, b) + Pick(ops, c));
    BlocksPick(ops, a);
    BlocksPick(ops, b);
    BlocksPick(ops, c);
    AppendAssociative(Optional(ops, a), Optional(ops, b), Optional(ops, c));
  }

  lemma BlocksPick(ops: seq<Operation>, n: string)
    ensures Blocks(Pick(ops, n)) == Optional(ops, n)
  {
    if OpName(n) in ops {
      assert [n][1..] == [];
      assert Blocks([n]) == OperatorBlock(n) + "";
    }
  }

  lemma {:induction false} BlocksAppend(a: seq<string>, b: seq<string>)
    ensures Blocks(a + b) == Blocks(a) + Blocks(b)
  {
    if a != [] {
      assert (a + b)[1..] == a[1..] + b;
      BlocksAppend(a[1..], b);
    } else {
      assert a + b == b;
    }
  }
}
