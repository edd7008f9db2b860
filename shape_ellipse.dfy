/** The stand-alone ellipse class of the shapes directory. */
module EllipseShape {
  import opened JsText
  import opened Catalog

  /** The name written after `fn` in the definition. */
  function DeclaredName(): string {
    "sdEllipse"
  }

  /** `getSDFunction()`. */
  function SDFunction(): Definition {
    Definition(DeclaredName(),
      "pos: vec2f, center: vec2f, radii: vec2f) -> f32 {\n"
      + "        let d = abs(pos - center) / radii;\n"
      + "        return length(max(d, vec2f(0.0, 0.0))) - 1.0;\n"
      + "      }\n"
      + "    ")
  }

  /** `getSDFunctionName()`. */
  function SDFunctionName(): string {
    "sdEllipse"
  }

  /** `generateSDFCode(center, radii)`: the arguments after the pixel position. */
  function SDFCode(center: seq<real>, radii: seq<real>): string {
    Vec2fText(center) + ", " + Vec2fText(radii)
  }

  /** The reported name is the declared one and contains no `(`. */
  lemma NameFacts()
    ensures DeclaredName() == SDFunctionName() && '(' !in SDFunctionName()
  {
  }

  /** The definition declares the name the class reports. */
  lemma DeclaresOwnName()
    ensures DeclaresName(Text(SDFunction()), SDFunctionName())
  {
    NameFacts();
    DefinitionDeclares(SDFunction());
  }

  /** The class describes the same WGSL function as the builder's own ellipse. */
  lemma SameAsCatalog()
    ensures SDFunctionName() == Catalog.SDFunctionName(Ellipse)
    ensures SDFunction().name == Catalog.DeclaredName(Ellipse)
    ensures SDFunction().rest == Catalog.EllipseRest()
  {
  }

  /** The argument list is the one the builder's ellipse statement passes after
      `input.fragPos`. */
  lemma CodeIsCatalogArguments(center: seq<real>, radii: seq<real>)
    ensures SDFCode(center, radii) == ArgList(EllipseArgs(center, radii))
  {
  }
}
