/** The stand-alone circle class of the shapes directory: its distance-function
    definition, that function's name, and the argument list it renders for a call. */
module CircleShape {
  import opened JsText
  import opened Catalog

  /** The name written after `fn` in the definition. */
  function DeclaredName(): string {
    "sdCircle"
  }

  /** `getSDFunction()`. */
  function SDFunction(): Definition {
    Definition(DeclaredName(),
      "pos: vec2f, center: vec2f, radius: f32) -> f32 {\n"
      + "        return length(pos - center) - radius;\n"
      + "      }\n"
      + "    ")
  }

  /** `getSDFunctionName()`. */
  function SDFunctionName(): string {
    "sdCircle"
  }

  /** `generateSDFCode(center, radius)`: the arguments after the pixel position. */
  function SDFCode(center: seq<real>, radius: real): string {
    Vec2fText(center) + ", " + NumStr(radius)
  }

  /** The reported name is the declared one and contains no `(`. */
  lemma NameFacts()
    ensures DeclaredName() == SDFunctionName() && '(' !in SDFunctionName()
  {
  }

  /** The definition declares the name the class reports. */
  lemma DeclaresOwnName()
    ensures DeclaresName(Text(SDFunction()), SDFunctionName())
  {
    NameFacts();
    DefinitionDeclares(SDFunction());
  }

  /** The class describes the same WGSL function as the builder's own circle: same
      name, same text. */
  lemma SameAsCatalog()
    ensures SDFunctionName() == Catalog.SDFunctionName(Circle)
    ensures SDFunction().name == Catalog.DeclaredName(Circle)
    ensures SDFunction().rest == Catalog.CircleRest()
  {
  }

  /** The argument list is the one the builder's circle statement passes after
      `input.fragPos`. */
  lemma CodeIsCatalogArguments(center: seq<real>, radius: real)
    ensures SDFCode(center, radius) == ArgList(CircleArgs(center, radius))
  {
  }

  /** Only the first two coordinates of the centre reach the text. */
  lemma CodeIgnoresExtraCoordinates(center: seq<real>, extra: seq<real>, radius: real)
    requires |center| >= 2
    ensures SDFCode(center + extra, radius) == SDFCode(center, radius)
  {
    assert (center + extra)[0] == center[0] && (center + extra)[1] == center[1];
  }
}
