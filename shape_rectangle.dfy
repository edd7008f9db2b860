/** The stand-alone rectangle class of the shapes directory. Unlike the circle and
    ellipse classes, its `generateSDFCode` renders the whole call, function name
    and pixel position included. */
module RectangleShape {
  import opened JsText
  import opened Catalog

  /** The name written after `fn` in the definition. */
  function DeclaredName(): string {
    "sdRectangle"
  }

  /** `getSDFunction()`. */
  function SDFunction(): Definition {
    Definition(DeclaredName(),
      "pos: vec2f, center: vec2f, size: vec2f) -> f32 {\n"
      + "        let d = abs(pos - center) - size * 0.5;\n"
      + "        return length(max(d, vec2f(0.0, 0.0))) + max(min(d.x, d.y), 0.0);\n"
      + "      }\n"
      + "    ")
  }

  /** `getSDFunctionName()`. */
  function SDFunctionName(): string {
    "sdRectangle"
  }

  /** `generateSDFCode(center, size)`: a complete call of the distance function. */
  function SDFCode(center: seq<real>, size: seq<real>): string {
    "sdRectangle" + "(input.fragPos, " + Vec2fText(center) + ", " + Vec2fText(size) + ")"
  }

  /** The reported name is the declared one and contains no `(`. */
  lemma NameFacts()
    ensures DeclaredName() == SDFunctionName() && '(' !in SDFunctionName()
  {
  }

  /** The definition declares the name the class reports. */
  lemma DeclaresOwnName()
    ensures DeclaresName(Text(SDFunction()), SDFunctionName())
  {
    NameFacts();
    DefinitionDeclares(SDFunction());
  }

  /** The class describes the same WGSL function as the builder's own rectangle. */
  lemma SameAsCatalog()
    ensures SDFunctionName() == Catalog.SDFunctionName(Rectangle)
    ensures SDFunction().name == Catalog.DeclaredName(Rectangle)
    ensures SDFunction().rest == Catalog.RectangleRest()
  {
  }

  /** The rendered call names the class's own function and passes the pixel position
      followed by the builder's rectangle arguments. */
  lemma CodeCallsOwnFunction(center: seq<real>, size: seq<real>)
    ensures SDFCode(center, size)
         == SDFunctionName() + "(input.fragPos, " + ArgList(RectangleArgs(center, size)) + ")"
  {
    Regroup3(SDFunctionName() + "(input.fragPos, ", Vec2fText(center), ", ", Vec2fText(size));
  }

  /** The builder's rectangle statement folds exactly this call into `sdf`. */
  lemma CatalogStatementWrapsCode(op: Operation, center: seq<real>, size: seq<real>)
    ensures OperationCode(Rectangle, op, RectangleArgs(center, size))
         == "sdf = " + OpText(op) + "(sdf, " + SDFCode(center, size) + ");\n"
  {
    StatementCallsDeclaredFunction(Rectangle, op, RectangleArgs(center, size));
    CodeCallsOwnFunction(center, size);
    CloseCall("sdf = " + OpText(op) + "(sdf, ", SDFunctionName(), ArgList(RectangleArgs(center, size)));
  }
}
