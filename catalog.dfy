/** The shape catalog that ships inside the shader builder's own file: five shape
    classes with static methods, each giving the WGSL text of its distance
    function, the function's name (the key the builder de-duplicates on) and one
    per-pixel statement that folds the shape into the running `sdf` value. */
module Catalog {
  import opened Collections
  import opened JsText

  /** The `operation` argument of `addShape`. The builder accepts any JavaScript
      value: a string names a combination function; an object literal such as
      `{id: 'opUnion'}` is a distinct object per literal (a `Set` compares it by
      identity) and turns into the text "[object Object]" inside a template. */
  datatype Operation = OpName(name: string) | OpObject(identity: nat, id: string)

  /** `${operation}` inside a template literal. */
  function OpText(op: Operation): string {
    match op
    case OpName(n) => n
    case OpObject(_, _) => "[object Object]"
  }

  datatype Kind = Circle | Rectangle | Triangle | Ellipse | RoundedSquare

  /** The parameters each kind's `generateOperationCode` takes after `operation`. */
  datatype Args =
    | CircleArgs(center: seq<real>, radius: real)
    | RectangleArgs(center: seq<real>, size: seq<real>)
    | TriangleArgs(p0: seq<real>, p1: seq<real>, p2: seq<real>)
    | EllipseArgs(center: seq<real>, radii: seq<real>)
    | RoundedSquareArgs(center: seq<real>, size: seq<real>, radius: real)

  /** The arguments are the ones the kind's generator expects. */
  predicate Fits(k: Kind, a: Args) {
    match k
    case Circle => a.CircleArgs?
    case Rectangle => a.RectangleArgs?
    case Triangle => a.TriangleArgs?
    case Ellipse => a.EllipseArgs?
    case RoundedSquare => a.RoundedSquareArgs?
  }

  /** A WGSL function definition as the shape classes lay it out, held as the name
      written after `fn` and the rest of the template literal (the parameter list,
      the return type and the body); `Text` gives the string itself. */
  datatype Definition = Definition(name: string, rest: string)

  /** The definition's text: a newline, six spaces of indentation, `fn`, the name,
      `(`, and the rest. */
  function Text(d: Definition): (t: string)
    ensures Head(d.name) <= t
  {
    Head(d.name) + d.rest
  }

  /** The opening of a definition up to and including the `(` after its name. */
  function Head(name: string): (h: string)
    ensures |h| == |name| + 11
    ensures forall i :: 0 <= i < |name| ==> h[10 + i] == name[i]
    ensures h[|name| + 10] == '('
  {
    "\n      fn " + name + "("
  }

  /** The name written after `fn` in each kind's definition. */
  function DeclaredName(k: Kind): string {
    match k
    case Circle => "sdCircle"
    case Rectangle => "sdRectangle"
    case Triangle => "sdTriangle"
    case Ellipse => "sdEllipse"
    case RoundedSquare => "sdRoundedSquare"
  }

  /** What follows `fn NAME(` in each kind's definition. */
  function DefinitionRest(k: Kind): string {
    match k
    case Circle => CircleRest()
    case Rectangle => RectangleRest()
    case Triangle => TriangleRest()
    case Ellipse => EllipseRest()
    case RoundedSquare => RoundedSquareRest()
  }

  /** `getSDFunction()`: the WGSL definition of the kind's distance function. */
  function SDFunction(k: Kind): Definition {
    Definition(DeclaredName(k), DefinitionRest(k))
  }

  /** What follows `fn NAME(` in each definition: the rest of the signature and the body. */
  function CircleRest(): string {
    "pos: vec2f, center: vec2f, radius: f32) -> f32 {\n"
    + "        return length(pos - center) - radius;\n"
    + "      }\n"
    + "    "
  }

  function RectangleRest(): string {
    "pos: vec2f, center: vec2f, size: vec2f) -> f32 {\n"
    + "        let d = abs(pos - center) - size * 0.5;\n"
    + "        return length(max(d, vec2f(0.0, 0.0))) + max(min(d.x, d.y), 0.0);\n"
    + "      }\n"
    + "    "
  }

  function TriangleRest(): string {
    "pos: vec2f, p0: vec2f, p1: vec2f, p2: vec2f) -> f32 {\n"
    + "        let e0 = length(cross(vec3f(p1 - p0, 0.0), vec3f(pos - p0, 0.0))) / length(p1 - p0);\n"
    + "        let e1 = length(cross(vec3f(p2 - p1, 0.0), vec3f(pos - p1, 0.0))) / length(p2 - p1);\n"
    + "        let e2 = length(cross(vec3f(p0 - p2, 0.0), vec3f(pos - p2, 0.0))) / length(p0 - p2);\n"
    + "\n"
    + "        return min(min(e0, e1), e2);\n"
    + "      }\n"
    + "    "
  }

  function EllipseRest(): string {
    "pos: vec2f, center: vec2f, radii: vec2f) -> f32 {\n"
    + "        let d = abs(pos - center) / radii;\n"
    + "        return length(max(d, vec2f(0.0, 0.0))) - 1.0;\n"
    + "      }\n"
    + "    "
  }

  function RoundedSquareRest(): string {
    "pos: vec2f, center: vec2f, size: vec2f, radius: f32) -> f32 {\n"
    + "        let d = abs(pos - center) - (size * 0.5 - vec2f(radius, radius));\n"
    + "        let inside = length(max(d, vec2f(0.0, 0.0)));\n"
    + "        let outside = length(max(d - vec2f(radius, radius), vec2f(0.0, 0.0)));\n"
    + "        return min(inside, outside) - radius;\n"
    + "      }\n"
    + "    "
  }

  /** `getSDFunctionName()`. */
  function SDFunctionName(k: Kind): string {
    match k
    case Circle => "sdCircle"
    case Rectangle => "sdRectangle"
    case Triangle => "sdTriangle"
    case Ellipse => "sdEllipse"
    case RoundedSquare => "sdRoundedSquare"
  }

  /** `generateOperationCode(operation, ...params)`: one statement
      `sdf = OP(sdf, NAME(input.fragPos, ...));` and a newline. */
  function OperationCode(k: Kind, op: Operation, a: Args): string
    requires Fits(k, a)
  {
    match a
    case CircleArgs(center, radius) =>
      "sdf = " + OpText(op) + "(sdf, " + "sdCircle" + "(input.fragPos, " + Vec2fText(center) + ", " + NumStr(radius) + "));\n"
    case RectangleArgs(center, size) =>
      "sdf = " + OpText(op) + "(sdf, " + "sdRectangle" + "(input.fragPos, " + Vec2fText(center) + ", " + Vec2fText(size) + "));\n"
    case TriangleArgs(p0, p1, p2) =>
      "sdf = " + OpText(op) + "(sdf, " + "sdTriangle" + "(input.fragPos, " + Vec2fText(p0) + ", " + Vec2fText(p1) + ", " + Vec2fText(p2) + "));\n"
    case EllipseArgs(center, radii) =>
      "sdf = " + OpText(op) + "(sdf, " + "sdEllipse" + "(input.fragPos, " + Vec2fText(center) + ", " + Vec2fText(radii) + "));\n"
    case RoundedSquareArgs(center, size, radius) =>
      "sdf = " + OpText(op) + "(sdf, " + "sdRoundedSquare" + "(input.fragPos, " + Vec2fText(center) + ", " + Vec2fText(size) + ", " + NumStr(radius) + "));\n"
  }

  /** The arguments a statement passes after `input.fragPos`, comma separated. */
  function ArgList(a: Args): string {
    match a
    case CircleArgs(center, radius) => Vec2fText(center) + ", " + NumStr(radius)
    case RectangleArgs(center, size) => Vec2fText(center) + ", " + Vec2fText(size)
    case TriangleArgs(p0, p1, p2) => Vec2fText(p0) + ", " + Vec2fText(p1) + ", " + Vec2fText(p2)
    case EllipseArgs(center, radii) => Vec2fText(center) + ", " + Vec2fText(radii)
    case RoundedSquareArgs(center, size, radius) => Vec2fText(center) + ", " + Vec2fText(size) + ", " + NumStr(radius)
  }

  /** The kind whose `getSDFunctionName()` is `name`, if any. */
  function KindNamed(name: string): (r: Option<Kind>)
    ensures r.Some? ==> SDFunctionName(r.value) == name
    ensures forall k: Kind :: SDFunctionName(k) == name ==> r == Some(k)
  {
    if name == "sdCircle" then Some(Circle)
    else if name == "sdRectangle" then Some(Rectangle)
    else if name == "sdTriangle" then Some(Triangle)
    else if name == "sdEllipse" then Some(Ellipse)
    else if name == "sdRoundedSquare" then Some(RoundedSquare)
    else None
  }

  /** A class argument as `addShape` and `addShapes` use it: the strings its static
      `getSDFunction()` and `getSDFunctionName()` return, and the kind whose
      `generateOperationCode` it carries. */
  datatype ShapeClass = ShapeClass(sdFunction: string, sdFunctionName: string, kind: Kind)

  /** The catalog class of each kind. */
  function Class(k: Kind): ShapeClass {
    ShapeClass(Text(SDFunction(k)), SDFunctionName(k), k)
  }

  /** The text declares, right after `fn`, the given name, and the name contains no
      `(` (so the text declares no other name). */
  predicate DeclaresName(text: string, name: string) {
    Head(name) <= text && '(' !in name
  }

  /** The class's definition declares the name the class reports. */
  predicate Declares(c: ShapeClass) {
    DeclaresName(c.sdFunction, c.sdFunctionName)
  }

  /** The class behaves as a catalog class: its definition declares the name it
      reports, and its statements call that same name. */
  predicate Catalogued(c: ShapeClass) {
    Declares(c) && c.sdFunctionName == SDFunctionName(c.kind)
  }

  /** A definition whose name has no `(` declares that name. */
  lemma DefinitionDeclares(d: Definition)
    requires '(' !in d.name
    ensures DeclaresName(Text(d), d.name)
  {
  }

  /** `getSDFunctionName()` returns the name written after `fn` in `getSDFunction()`,
      and that name contains no `(`. */
  lemma ReportedNameIsDeclared(k: Kind)
    ensures DeclaredName(k) == SDFunctionName(k)
    ensures '(' !in DeclaredName(k)
  {
  }

  /** Every catalog class declares, in its definition, the name it reports, and its
      statements call that name. */
  lemma ClassDeclaresName(k: Kind)
    ensures Declares(Class(k)) && Catalogued(Class(k))
  {
    ReportedNameIsDeclared(k);
    var d := SDFunction(k);
    assert d.name == DeclaredName(k);
    DefinitionDeclares(d);
    assert Class(k) == ShapeClass(Text(d), d.name, k);
  }

  /** Distinct kinds have distinct names, so de-duplicating on the name never drops a
      definition another kind needs. */
  lemma NamesDistinct(k1: Kind, k2: Kind)
    requires k1 != k2
    ensures SDFunctionName(k1) != SDFunctionName(k2)
  {
    var r := KindNamed(SDFunctionName(k1));
  }

  /** A text declares at most one name. */
  lemma {:induction false} DeclaredNameUnique(text: string, n1: string, n2: string)
    requires DeclaresName(text, n1) && DeclaresName(text, n2)
    ensures n1 == n2
  {
    assert |n1| == |n2|;
    forall i | 0 <= i < |n1| ensures n1[i] == n2[i] {
      assert Head(n1)[10 + i] == text[10 + i] == Head(n2)[10 + i];
    }
  }

  /** Classes that declare the names they report and report different names have
      different definition texts. */
  lemma DistinctNamesDistinctTexts(c1: ShapeClass, c2: ShapeClass)
    requires Declares(c1) && Declares(c2) && c1.sdFunctionName != c2.sdFunctionName
    ensures c1.sdFunction != c2.sdFunction
  {
    if c1.sdFunction == c2.sdFunction {
      DeclaredNameUnique(c1.sdFunction, c1.sdFunctionName, c2.sdFunctionName);
    }
  }

  /** Distinct kinds have distinct definition texts. */
  lemma DefinitionsDistinct(k1: Kind, k2: Kind)
    requires k1 != k2
    ensures Class(k1).sdFunction != Class(k2).sdFunction
  {
    ClassDeclaresName(k1);
    ClassDeclaresName(k2);
    NamesDistinct(k1, k2);
    DistinctNamesDistinctTexts(Class(k1), Class(k2));
  }

  /** Every statement calls the function the class declares, on `input.fragPos`,
      and feeds it to the operation together with the running `sdf`. */
  lemma StatementCallsDeclaredFunction(k: Kind, op: Operation, a: Args)
    requires Fits(k, a)
    ensures OperationCode(k, op, a)
         == "sdf = " + OpText(op) + "(sdf, " + SDFunctionName(k) + "(input.fragPos, " + ArgList(a) + "));\n"
  {
    var head := "sdf = " + OpText(op) + "(sdf, " + SDFunctionName(k) + "(input.fragPos, ";
    match a
    case CircleArgs(c, r) =>
      Regroup3(head, Vec2fText(c), ", ", NumStr(r));
    case RectangleArgs(c, sz) =>
      Regroup3(head, Vec2fText(c), ", ", Vec2fText(sz));
    case TriangleArgs(p0, p1, p2) =>
      Regroup5(head, Vec2fText(p0), ", ", Vec2fText(p1), ", ", Vec2fText(p2));
    case EllipseArgs(c, radii) =>
      Regroup3(head, Vec2fText(c), ", ", Vec2fText(radii));
    case RoundedSquareArgs(c, sz, r) =>
      Regroup5(head, Vec2fText(c), ", ", Vec2fText(sz), ", ", NumStr(r));
  }

  lemma Regroup3(h: string, a: string, b: string, c: string)
    ensures h + (a + b + c) == h + a + b + c
  {
  }

  /** A statement that closes a complete call reads the same as one that closes
      the call's argument list and the statement together. */
  lemma CloseCall(h: string, n: string, args: string)
    ensures h + (n + "(input.fragPos, " + args + ")") + ");\n"
         == h + n + "(input.fragPos, " + args + "));\n"
  {
    assert ")" + ");\n" == "));\n";
    AppendAssociative(h + n + "(input.fragPos, " + args, ")", ");\n");
  }

  lemma Regroup5(h: string, a: string, b: string, c: string, d: string, e: string)
    ensures h + (a + b + c + d + e) == h + a + b + c + d + e
  {
    assert a + b + c + d + e == a + (b + c + d + e);
    assert h + (a + (b + c + d + e)) == h + a + (b + c + d + e);
    assert h + a + (b + c + d + e) == h + a + (b + c + d) + e;
    assert h + a + (b + c + d) == h + a + (b + c) + d;
  }
}
