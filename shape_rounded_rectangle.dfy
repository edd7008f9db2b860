/** The stand-alone rounded-rectangle class of the shapes directory, a stop-gap kept
    until the rectangle renders correctly. Its function is named `sdRoundedSquare`,
    the name of the builder's own rounded square, and its definition spells the
    same text. */
module RoundedRectangleShape {
  import opened JsText
  import opened Catalog

  /** The name written after `fn` in the definition. */
  function DeclaredName(): string {
    "sdRoundedSquare"
  }

  /** `getSDFunction()`. */
  function SDFunction(): Definition {
    Definition(DeclaredName(),
      "pos: vec2f, center: vec2f, size: vec2f, radius: f32) -> f32 {\n"
      + "        let d = abs(pos - center) - (size * 0.5 - vec2f(radius, radius));\n"
      + "        let inside = length(max(d, vec2f(0.0, 0.0)));\n"
      + "        let outside = length(max(d - vec2f(radius, radius), vec2f(0.0, 0.0)));\n"
      + "        return min(inside, outside) - radius;\n"
      + "      }\n"
      + "    ")
  }

  /** `getSDFunctionName()`. */
  function SDFunctionName(): string {
    "sdRoundedSquare"
  }

  /** `generateSDFCode(center, size, radius)`: a complete call of the distance
      function. */
  function SDFCode(center: seq<real>, size: seq<real>, radius: real): string {
    "sdRoundedSquare" + "(input.fragPos, " + Vec2fText(center) + ", " + Vec2fText(size) + ", "
      + NumStr(radius) + ")"
  }

  /** The reported name is the declared one and contains no `(`. */
  lemma NameFacts()
    ensures DeclaredName() == SDFunctionName() && '(' !in SDFunctionName()
  {
  }

  /** The definition declares the name the class reports. */
  lemma DeclaresOwnName()
    ensures DeclaresName(Text(SDFunction()), SDFunctionName())
  {
    NameFacts();
    DefinitionDeclares(SDFunction());
  }

  /** The class reports the builder's rounded-square name, so a builder that
      registers both keeps only the first one's definition. */
  lemma SameNameAsCatalogRoundedSquare()
    ensures SDFunctionName() == Catalog.SDFunctionName(RoundedSquare)
    ensures DeclaredName() == Catalog.DeclaredName(RoundedSquare)
  {
  }

  /** The definition after the name is the builder's rounded-square text, so either
      class contributes the same WGSL function. */
  lemma SameTextAsCatalogRoundedSquare()
    ensures SDFunction().rest == Catalog.RoundedSquareRest()
  {
  }

  /** The rendered call names the class's own function and passes the pixel position
      followed by the builder's rounded-square arguments. */
  lemma CodeCallsOwnFunction(center: seq<real>, size: seq<real>, radius: real)
    ensures SDFCode(center, size, radius)
         == SDFunctionName() + "(input.fragPos, " + ArgList(RoundedSquareArgs(center, size, radius)) + ")"
  {
    Regroup5(SDFunctionName() + "(input.fragPos, ", Vec2fText(center), ", ", Vec2fText(size), ", ", NumStr(radius));
  }

  /** The builder's rounded-square statement folds exactly this call into `sdf`. */
  lemma CatalogStatementWrapsCode(op: Operation, center: seq<real>, size: seq<real>, radius: real)
    ensures OperationCode(RoundedSquare, op, RoundedSquareArgs(center, size, radius))
         == "sdf = " + OpText(op) + "(sdf, " + SDFCode(center, size, radius) + ");\n"
  {
    StatementCallsDeclaredFunction(RoundedSquare, op, RoundedSquareArgs(center, size, radius));
    CodeCallsOwnFunction(center, size, radius);
    CloseCall("sdf = " + OpText(op) + "(sdf, ", SDFunctionName(), ArgList(RoundedSquareArgs(center, size, radius)));
  }
}
