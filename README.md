# A verified model of the WebGPU signed-distance-field shader builder

The repository draws 2D shapes on a WebGPU canvas. Each shape is a signed
distance function (SDF) written in WGSL, the WebGPU shading language. A
`ShaderBuilder` collects shapes through `addShape` and `addShapes` and keeps
four things:

- the WGSL definition of each distance function, once per function name;
- the function names;
- the operations used;
- one WGSL statement per shape, `sdf = OP(sdf, NAME(input.fragPos, ...));`.

`generateShader` splices these parts into a fixed vertex and fragment
template. The fragment stage starts `sdf` at `1e10` and runs the statements in
order. A pixel takes the shape gradient when the final `sdf` is below zero,
and the background gradient otherwise. `generateOperationFunctions` emits the
WGSL of `sdUnion`, `sdSubtract` and `sdIntersect`, but only for the ones
registered as plain strings.

The `Renderer` keeps five horizontal bands given in pixel rows. It turns them
into rectangles `[x, y, width, height]` in device coordinates. A click selects
the band whose middle lies within 0.02 of the clicked height. An arrow key then
moves the selected band (up or down) or resizes it (left or right), and the
shader is rebuilt from a fresh builder. `Buffers` supplies a full-screen quad
of two triangles and a line table. Each line row gets two trailing zeros (four
numbers for the two-number bands, as the `array<vec4f, 5>` uniform in
scripts/shaderModule.js expects), then rows of four zeros follow up to five
rows.

The Dafny modules follow the program:

| module | models |
|---|---|
| `Collections` | JavaScript `Set` with insertion order, as a sequence without duplicates; `flat()`; `join` |
| `JsText` | how template literals print numbers and `vec2f(${v[0]}, ${v[1]})` |
| `Catalog` | the five shape classes inside `scripts/ShaderBuilder.js` |
| `Geometry` | those classes' WGSL distance functions, over the reals |
| `Fragment` | the per-pixel fold the generated fragment stage runs |
| `ShaderText` | `generateOperationFunctions` and the `generateShader` template |
| `Builder` | `ShaderBuilder`, both as functions on a value `Registry` and as a class whose methods update its fields |
| `CircleShape`, `RectangleShape`, `EllipseShape`, `RoundedRectangleShape` | the stand-alone classes in `scripts/shapes/` |
| `Renderer` | the band editor, the colour table and the shader rebuild |
| `Buffers` | the vertex array and the line-table padding |

The `ShaderBuilder` class has a ghost `history` of the calls it received.
`Valid()` says that its fields equal `Replay(history)`, the functional state
those calls lead to. Lemmas about `Replay` then carry over to every builder.

WGSL's `length` is a square root, and Dafny's reals have none. So every
distance function takes the 2D length as a parameter `len`. The predicate
`IsLength` pins `len` down: it is never negative and its square is the sum
of the squared coordinates.

## Model

| member | source | states |
|---|---|---|
| Builder.Fresh | scripts/ShaderBuilder.js:2-7 | A new builder has empty definition, name and operation sets and empty statement code. |
| Builder.ShaderBuilder.constructor | scripts/ShaderBuilder.js:2-7 | The constructed builder holds the fresh state, has received no calls, and is valid. |
| Builder.Register | scripts/ShaderBuilder.js:10-18 | Registration leaves the code alone. Afterwards the class's name and the operation are registered, and the old sets are prefixes of the new ones. A known name leaves the definitions and names unchanged. A new name appends the name, and also the definition unless that exact text is already held. The operation is appended exactly when it was absent, so the second unconditional `add` is a no-op. |
| Builder.AddShapeResult | scripts/ShaderBuilder.js:9-22 | The state after `addShape`. Its partners are `AddShapeAppends`, `AppendKeepsInv` and `AddShapesIsRepeatedAddShape`. |
| Builder.AddShapesResult | scripts/ShaderBuilder.js:24-39 | The state after `addShapes`. Its partners are `AddShapesIsRepeatedAddShape`, `AddShapesNone` and `AddShapesStep`. |
| Builder.ReduceCode | scripts/ShaderBuilder.js:34-36 | The reduction of the statements, left to right. Its partners are `RenderedStatements` and `StatementsOfAt`. |
| Builder.RegisterIdempotent | scripts/ShaderBuilder.js:10-18 | Registering the same class and operation twice equals registering them once. |
| Builder.ShaderBuilder.RegisterClass | scripts/ShaderBuilder.js:10-18 | The method's new fields are `Register` applied to the old ones. |
| Builder.ShaderBuilder.AddShape | scripts/ShaderBuilder.js:9-22 | `addShape` registers the class and the operation, then appends the class's statement for the parameters. The builder stays valid and records the call. |
| Builder.AddShapeAppends | scripts/ShaderBuilder.js:9-22 | The old code is a prefix of the new code, and the suffix is exactly the new statement. Re-adding a registered name leaves the definitions and names as they were. |
| Builder.ShaderBuilder.AddShapes | scripts/ShaderBuilder.js:24-39 | `addShapes` registers once, then appends the reduction of the statements of every parameter list, left to right. The builder stays valid and records the call. |
| Builder.AddShapesIsRepeatedAddShape | scripts/ShaderBuilder.js:24-39 | For a non-empty parameter array, `addShapes` reaches the same state as one `addShape` per entry, in order. |
| Builder.AddShapesNone | scripts/ShaderBuilder.js:24-39 | With an empty parameter array, `addShapes` still registers the class and the operation, and appends no code. |
| Builder.AddShapesStep | scripts/ShaderBuilder.js:34-36 | `addShapes` with one more parameter list equals one more `addShape` after it. |
| Builder.StatementsOf | scripts/ShaderBuilder.js:34-36 | The reduction stands for one statement per parameter list. |
| Builder.StatementsOfAt | scripts/ShaderBuilder.js:34-36 | Statement `i` of the reduction is the statement of parameter list `i`. |
| Builder.RenderedStatements | scripts/ShaderBuilder.js:34-36 | The reduced text is exactly the rendering of those statements. |
| Builder.RenderReduce | scripts/ShaderBuilder.js:34-36 | Appending the reduction to existing code equals rendering the old statements followed by the new ones. |
| Builder.Collected | scripts/ShaderBuilder.js:12-15 | The `Set` of definitions holds no duplicates, is no longer than the classes that fed it, and contains every one of their definitions. |
| Builder.NewNameNewText | scripts/ShaderBuilder.js:12-15 | A class that declares the name it reports brings a definition that no class of another name has brought. |
| Builder.OneDefinitionPerName | scripts/ShaderBuilder.js:12-15 | When every class declares its reported name and the names are distinct, the `Set` keeps every definition, in registration order. |
| Builder.RegisterKeepsInv | scripts/ShaderBuilder.js:10-18 | Registration keeps the builder invariant: no duplicate names or operations; the code renders the statements; every statement's operation and class name are registered; the definitions are the collected definitions of one registered class per name. |
| Builder.AppendKeepsInv | scripts/ShaderBuilder.js:19 | Appending one statement after registration keeps the invariant. |
| Builder.AppendAllKeepsInv | scripts/ShaderBuilder.js:34-36 | Appending the reduction after registration keeps the invariant. |
| Builder.ReplayAppend | scripts/ShaderBuilder.js:9-39 | One more call takes the replayed state one `addShape` or `addShapes` step further. |
| Builder.ReplayKeepsInv | scripts/ShaderBuilder.js:1-39 | Every state that a sequence of `addShape`/`addShapes` calls reaches from a fresh builder keeps the invariant. |
| Builder.DefinitionPerName | scripts/ShaderBuilder.js:12-15 | Fed only classes that declare their reported names, a builder holds exactly one definition per registered name, in first-registration order. |
| Builder.CodeRendersStatements | scripts/ShaderBuilder.js:19 | A builder's code is the rendering of the statements its calls appended, in call order. |
| Builder.CalledFunctionsDefined | scripts/ShaderBuilder.js:12-19 | Fed only catalog-like classes, every statement calls a distance function that one of the builder's definitions declares. |
| Builder.UsedOperatorsEmitted | scripts/ShaderBuilder.js:103-126 | Every statement whose operation is one of the three operator names calls an operator function that the shader emits. |
| Builder.ShaderBuilder.GenerateOperationFunctions | scripts/ShaderBuilder.js:103-126 | The method returns the operator blocks of the registered string operations: union, then subtract, then intersect. |
| ShaderText.EmittedExactly | scripts/ShaderBuilder.js:103-126 | An operator function is emitted if and only if its name was registered as a string. Object operations and other names emit nothing. |
| ShaderText.EmittedByMembership | scripts/ShaderBuilder.js:103-126 | Only membership matters: registration order, repetitions and object operations do not change the emitted functions. |
| ShaderText.EmittedAll | scripts/ShaderBuilder.js:103-126 | With all three names registered, all three are emitted, in the fixed order. |
| ShaderText.OperatorFunctionsUnfold | scripts/ShaderBuilder.js:104-125 | The emitted text is the optional union block, then the optional subtract block, then the optional intersect block. |
| ShaderText.AssembleLayout | scripts/ShaderBuilder.js:41-100 | Filling in the template lays out all seven parts verbatim, in order (`Laid`): the head, the definitions, the fixed separator, the operator functions, the fixed middle that declares `var sdf = 1e10`, the statement code and the fixed tail, with lengths adding up. |
| Builder.ShaderOf | scripts/ShaderBuilder.js:41-100 | `generateShader()` for a given state and template: the template's fixed parts, the joined definitions, the operator functions and the statement code are each verbatim at their place (`Laid`). |
| Builder.ShaderBuilder.GenerateShader | scripts/ShaderBuilder.js:41-100 | The shader of the builder's current state around the fixed template. Its layout is stated by `ShaderOf` and, in terms of the calls received, by `GeneratedShaderLayout`. |
| ShaderText.ShaderTemplate | scripts/ShaderBuilder.js:41-100 | The fixed WGSL text around the three inserted parts. Its partner is `AssembleLayout`. |
| ShaderText.OperatorFunctions | scripts/ShaderBuilder.js:103-126 | The operator functions for the registered operations. Its partners are `EmittedExactly`, `EmittedByMembership` and `OperatorFunctionsUnfold`. |
| Builder.GeneratedShaderLayout | scripts/ShaderBuilder.js:41-100 | After any sequence of calls, `generateShader()` holds three parts at their places in the template. They are the stored definitions joined by newlines, the operator functions for the registered operations, and the rendering of every statement the calls appended, in call order, right before the closing `sdf < 0.0` test. |
| Catalog.Text | scripts/ShaderBuilder.js:130-136 | A definition's text opens with `fn`, its name and `(`. |
| Catalog.SDFunction | scripts/ShaderBuilder.js:130-136 | Each class's `getSDFunction()`. Its partners are `ReportedNameIsDeclared` and `DefinitionsDistinct`. (This row covers lines 148-155, 167-177, 189-196 and 208-217 alike.) |
| Catalog.SDFunctionName | scripts/ShaderBuilder.js:138-140 | Each class's `getSDFunctionName()`. Its partners are `KindNamed` (its inverse) and `NamesDistinct`. (This row covers lines 157-159, 179-181, 198-200 and 219-221 alike.) |
| Catalog.OperationCode | scripts/ShaderBuilder.js:142-144 | Each class's `generateOperationCode`. Its partner is `StatementCallsDeclaredFunction`. |
| Catalog.KindNamed | scripts/ShaderBuilder.js:129-226 | The name lookup is the inverse of `getSDFunctionName`: it finds the kind reporting a name, and the only one. |
| Catalog.ReportedNameIsDeclared | scripts/ShaderBuilder.js:129-226 | Each class's `getSDFunctionName()` is the name written after `fn` in its `getSDFunction()`, and contains no `(`. |
| Catalog.DefinitionDeclares | scripts/ShaderBuilder.js:130-136 | A definition whose name has no `(` declares that name. |
| Catalog.ClassDeclaresName | scripts/ShaderBuilder.js:129-226 | Every catalog class declares the name it reports, and its statements call that name. |
| Catalog.NamesDistinct | scripts/ShaderBuilder.js:129-226 | Different kinds report different names. |
| Catalog.DeclaredNameUnique | scripts/ShaderBuilder.js:130-136 | A definition text declares at most one name. |
| Catalog.DistinctNamesDistinctTexts | scripts/ShaderBuilder.js:129-226 | Classes that declare different reported names have different definition texts. |
| Catalog.DefinitionsDistinct | scripts/ShaderBuilder.js:129-226 | Different kinds have different definition texts, so the `Set` of definitions never merges two of them. |
| Catalog.StatementCallsDeclaredFunction | scripts/ShaderBuilder.js:142-144 | Every `generateOperationCode` result has the form `sdf = OP(sdf, NAME(input.fragPos, ARGS));` and a newline. `NAME` is the class's reported name and `ARGS` the rendered parameters. (This row covers lines 161-163, 183-185, 202-204 and 223-225 alike.) |
| JsText.Vec2fIgnoresExtra | scripts/ShaderBuilder.js:143 | Entries after the second never reach the text. |
| Geometry.SdCircle | scripts/ShaderBuilder.js:132-134 | The circle's WGSL distance over reals. Its partner is `CircleInside`. |
| Geometry.SdRectangle | scripts/ShaderBuilder.js:150-153 | The rectangle's WGSL distance, as written. Its partners are `RectangleNeverInside` and `RectangleBoxSamePositive`. |
| Geometry.SdBox | scripts/ShaderBuilder.js:150-153 | The intended box distance. Its partner is `BoxInside`. |
| Geometry.SdEllipse | scripts/ShaderBuilder.js:191-194 | The ellipse's WGSL distance. Its partner is `EllipseInside`. |
| Geometry.SdRoundedSquare | scripts/ShaderBuilder.js:210-215 | The rounded square's WGSL distance. Its partner is `RoundedSquareInside`. |
| Geometry.CircleInside | scripts/ShaderBuilder.js:132-134 | A pixel is inside a circle if and only if the radius is positive and the squared distance from the centre is below the squared radius. |
| Geometry.RectangleNeverInside | scripts/ShaderBuilder.js:150-153 | The rectangle as written is never negative, and is zero exactly on the closed box. |
| Geometry.BoxInside | scripts/ShaderBuilder.js:150-153 | The intended box distance is negative exactly on the open box. |
| Geometry.RectangleBoxSamePositive | scripts/ShaderBuilder.js:150-153 | The written and the intended rectangle are positive at the same pixels, namely those outside the closed box. |
| Geometry.RectangleAgreesWithBoxOutside | scripts/ShaderBuilder.js:150-153 | Away from the interior and from the corner quadrants, the written and the intended rectangle agree. |
| Geometry.EllipseInside | scripts/ShaderBuilder.js:191-194 | With positive radii, a pixel is inside if and only if its normalised squared distance is below one. The centre reads -1. |
| Geometry.RoundedSquareInside | scripts/ShaderBuilder.js:210-215 | With a non-negative radius, the rounded square is the box's outside distance minus the radius. It reads `-radius` everywhere inside the box. |
| Fragment.RenderAppend | scripts/ShaderBuilder.js:19 | Rendering one more statement appends exactly its text. |
| Fragment.RenderConcat | scripts/ShaderBuilder.js:34-36 | Rendering maps concatenation of statement lists to concatenation of strings. |
| Fragment.ShapeDistance | scripts/ShaderBuilder.js:88-99 | The distance one statement's shape takes at a pixel. Its partners are the `Geometry` lemmas and `FrameDistances`. |
| Fragment.ApplyOp | scripts/ShaderBuilder.js:106-123 | The value of `op(sdf, d)` in the fragment stage. Its partners are `OperatorsDefined` and `OperatorSign`. |
| Fragment.Run | scripts/ShaderBuilder.js:88-99 | The fold of the statements from `1e10` at one pixel. Its partners are `RunClassifies`, `UnionsCoverTheirShapes` and `SubtractionClears`. |
| Fragment.OperatorsDefined | scripts/ShaderBuilder.js:103-126 | An operation has a value in the fragment stage if and only if it is one of the three emitted operator names. |
| Fragment.OperatorSign | scripts/ShaderBuilder.js:106-123 | The sign of `min(d1, d2)`, `max(d1, -d2)` and `max(d1, d2)` is set by the signs of the inputs. Union adds the shape, subtract removes it together with its boundary, and intersect keeps the overlap. |
| Fragment.RunClassifies | scripts/ShaderBuilder.js:88-99 | The fold from `1e10` has a value exactly when the sign-only classification does. The pixel takes the shape gradient exactly when that classification says inside. |
| Fragment.UnionsCoverTheirShapes | scripts/ShaderBuilder.js:88-99 | Under unions only, a pixel takes the shape gradient if and only if some shape contains it. |
| Fragment.UnionStep | scripts/ShaderBuilder.js:88-99 | One union statement extends that equivalence by one shape. |
| Fragment.SubtractionClears | scripts/ShaderBuilder.js:112-117 | After subtracting a shape, no pixel on or inside that shape takes the shape gradient. |
| Fragment.UnionedRectangleChangesNothing | scripts/ShaderBuilder.js:150-153 | A rectangle united as written changes no pixel's classification. |
| Fragment.SubtractedRectanglesClassifyAlike | scripts/ShaderBuilder.js:150-153 | When every rectangle is subtracted, the written and the intended rectangle classify every pixel alike. |
| Fragment.FrameSceneMissesFrame | scripts/ShaderBuilder.js:150-153 | The scene is a 1 by 1 square united at the origin, then a circle of radius 0.3 subtracted. At pixel (0.4, 0), the fold ends at 0 (background) as written and at -0.1 (shape) with the intended box. |
| Fragment.FrameRuns | scripts/ShaderBuilder.js:88-99 | The fold over that scene follows from its two distances. |
| Fragment.FrameDistances | scripts/ShaderBuilder.js:88-99 | The scene's two statements take those distances at (0.4, 0). |
| Fragment.FrameSquareAt | scripts/ShaderBuilder.js:150-153 | At (0.4, 0), the written rectangle reads 0 and the intended box reads -0.1. |
| Fragment.FrameHoleAt | scripts/ShaderBuilder.js:132-134 | At (0.4, 0), the circle of radius 0.3 reads 0.1. |
| Fragment.DiscCoversCentreOnly | scripts/ShaderBuilder.js:88-99 | A union of the 0.75 disc colours the centre and not the corner (1, 1). |
| Fragment.OrderMatters | scripts/ShaderBuilder.js:88-99 | Statements do not commute: a union followed by a subtraction and the reverse order classify the centre differently. |
| CircleShape.NameFacts | scripts/shapes/Circle.js:2-12 | The reported name is the one after `fn` and contains no `(`. |
| CircleShape.DeclaresOwnName | scripts/shapes/Circle.js:2-12 | The definition declares the reported name. |
| CircleShape.SameAsCatalog | scripts/shapes/Circle.js:2-12 | Same name and same definition text as the builder's own circle. |
| CircleShape.SDFCode | scripts/shapes/Circle.js:14-16 | `generateSDFCode`. Its partner is `CodeIsCatalogArguments`. |
| CircleShape.CodeIsCatalogArguments | scripts/shapes/Circle.js:14-16 | `generateSDFCode` gives exactly the argument list that the builder's circle statement passes after `input.fragPos`. |
| CircleShape.CodeIgnoresExtraCoordinates | scripts/shapes/Circle.js:14-16 | Coordinates after the second do not change the code. |
| EllipseShape.NameFacts | scripts/shapes/Ellipse.js:2-13 | The reported name is the one after `fn` and contains no `(`. |
| EllipseShape.DeclaresOwnName | scripts/shapes/Ellipse.js:2-13 | The definition declares the reported name. |
| EllipseShape.SameAsCatalog | scripts/shapes/Ellipse.js:2-13 | Same name and same definition text as the builder's own ellipse. |
| EllipseShape.SDFCode | scripts/shapes/Ellipse.js:15-17 | `generateSDFCode`. Its partner is `CodeIsCatalogArguments`. |
| EllipseShape.CodeIsCatalogArguments | scripts/shapes/Ellipse.js:15-17 | `generateSDFCode` gives exactly the builder's ellipse argument list. |
| RectangleShape.NameFacts | scripts/shapes/Rectangle.js:2-13 | The reported name is the one after `fn` and contains no `(`. |
| RectangleShape.DeclaresOwnName | scripts/shapes/Rectangle.js:2-13 | The definition declares the reported name. |
| RectangleShape.SameAsCatalog | scripts/shapes/Rectangle.js:2-13 | Same name and same definition text as the builder's own rectangle. |
| RectangleShape.SDFCode | scripts/shapes/Rectangle.js:15-17 | `generateSDFCode`. Its partners are `CodeCallsOwnFunction` and `CatalogStatementWrapsCode`. |
| RectangleShape.CodeCallsOwnFunction | scripts/shapes/Rectangle.js:15-17 | `generateSDFCode` is a complete call of the class's own function on `input.fragPos` and the builder's rectangle arguments. |
| RectangleShape.CatalogStatementWrapsCode | scripts/shapes/Rectangle.js:15-17 | The builder's rectangle statement folds exactly this call into `sdf`. |
| RoundedRectangleShape.NameFacts | scripts/shapes/RoundedRectangle.js:2-15 | The reported name is the one after `fn` and contains no `(`. |
| RoundedRectangleShape.DeclaresOwnName | scripts/shapes/RoundedRectangle.js:2-15 | The definition declares the reported name. |
| RoundedRectangleShape.SameNameAsCatalogRoundedSquare | scripts/shapes/RoundedRectangle.js:13-15 | The class reports, and declares, the builder's rounded-square name. |
| RoundedRectangleShape.SameTextAsCatalogRoundedSquare | scripts/shapes/RoundedRectangle.js:2-11 | Its definition text after the name is the builder's rounded-square text. |
| RoundedRectangleShape.SDFCode | scripts/shapes/RoundedRectangle.js:17-19 | `generateSDFCode`. Its partners are `CodeCallsOwnFunction` and `CatalogStatementWrapsCode`. |
| RoundedRectangleShape.CodeCallsOwnFunction | scripts/shapes/RoundedRectangle.js:17-19 | `generateSDFCode` is a complete call of `sdRoundedSquare` on `input.fragPos` and the builder's rounded-square arguments. |
| RoundedRectangleShape.CatalogStatementWrapsCode | scripts/shapes/RoundedRectangle.js:17-19 | The builder's rounded-square statement folds exactly this call into `sdf`. |
| Renderer.PixelToNdcOrder | scripts/Renderer.js:36-40 | The pixel-to-device map is strictly decreasing. Rows 0, 480 and 960 map to 1, 0 and -1. |
| Renderer.InitialLines | scripts/Renderer.js:26-40 | Five bands. Each starts above where it ends, and each lies wholly above the next, so they descend without overlapping. |
| Renderer.PixelToNdc | scripts/Renderer.js:38 | The map from a pixel row of the 960-row canvas to a device height. Its partner is `PixelToNdcOrder`: strictly decreasing, with rows 0, 480 and 960 mapping to 1, 0 and -1. |
| Renderer.LineValues | scripts/Renderer.js:44-55 | One rectangle per band, in order. Each is centred at x = 0, `2 * radius` wide, with non-negative height, and spans exactly from the band's lower end to its upper end. |
| Renderer.Renderer.SetupLineValues | scripts/Renderer.js:44-55 | The rectangles are recomputed from the current bands. Nothing else changes. |
| Renderer.Renderer.constructor | scripts/Renderer.js:12-24 | It starts with the initial bands, radius 0.75, no selection, the normalised colours, and a builder that received the scene's calls. |
| Renderer.ClickUsesBandCoordinates | scripts/Renderer.js:203-207 | On a canvas 960 rows high, the click height is the device coordinate of the clicked row, as used for the bands. |
| Renderer.Renderer.Click | scripts/Renderer.js:203-207 | The selection becomes the search result for the clicked height. Bands, rectangles and builder stay. |
| Renderer.Renderer.GetLineIndexFromCoords | scripts/Renderer.js:246-255 | Returns the first band whose middle is within 0.02 of `y`, or nothing when no band is. |
| Renderer.SelectionUnique | scripts/Renderer.js:246-255 | The search has exactly one outcome for each height. |
| Renderer.InitialLinesSeparated | scripts/Renderer.js:246-255 | No height is near two of the starting bands. |
| Renderer.Moved | scripts/Renderer.js:221-244 | The new band for an arrow key. Its partner is `MovementEffects`: the effect of each key on the rectangle, and the inverse pairs. |
| Renderer.MovementEffects | scripts/Renderer.js:221-244 | Up and down shift the rectangle by 0.01 without resizing it. Left and right change its height by 0.02 without moving its middle (while the band is at least that tall). Other keys do nothing, and opposite arrows undo each other. |
| Renderer.Renderer.HandleLineMovement | scripts/Renderer.js:221-244 | Only the selected band's slot changes, in place, as the key says. The rectangles are recomputed. |
| Renderer.Renderer.KeyDown | scripts/Renderer.js:209-216 | With no selection nothing changes. Otherwise the selected band moves and a fresh builder receives the scene again. The radius and the colours never change. |
| Renderer.Renderer.UpdateShader | scripts/Renderer.js:145-149 | The builder is replaced by a fresh one that received exactly the scene's calls. Nothing of the previous builder survives. |
| Renderer.Renderer.InitializeShaderBuilder | scripts/Renderer.js:57-58 | A brand-new builder whose history is exactly the scene. |
| Renderer.BuildScene | scripts/Renderer.js:73-140 | Feeding the scene's calls, in order, to a new builder leaves it valid with exactly those calls received. |
| Renderer.Perform | scripts/Renderer.js:73-140 | One call of the chain is one `addShape` or `addShapes`. |
| Renderer.Normalized | scripts/Renderer.js:151-166 | Every channel is divided by 255: the shape is kept, and 0..255 maps into 0..1. |
| Renderer.ColorData | scripts/Renderer.js:302-306 | `colors.flat()`. Its partner is `InitialColorData`: where each channel lands in the flat data. |
| Renderer.InitialColorData | scripts/Renderer.js:302-306 | The colour data has 16 numbers, with channel `j` of colour `i` at `4 * i + j`, each in 0..1. |
| Buffers.VertexArray | scripts/Buffers.js:12-17 | The twelve numbers of the full-screen quad. Its partner is `VertexArrayCoversClipSpace`. |
| Buffers.VertexArrayCoversClipSpace | scripts/Buffers.js:12-17 | Six vertices, all corners of clip space, every corner used, and two triangles sharing the diagonal from (-1, -1) to (1, 1). |
| Buffers.PadLines | scripts/Buffers.js:28-32 | `max(n, 5)` rows: each input row followed by two zeros, then rows of four zeros. |
| Buffers.LineBufferData | scripts/Buffers.js:28-33 | The written numbers are the padded rows flattened. For two-number rows, entry `k` is `lines[k/4][k%4]` when `k%4 < 2` and `k/4` is an input row, and zero otherwise. |
| Buffers.LineBufferLayout | scripts/Buffers.js:28-33 | The flat layout of the padded two-number rows. |

## Left out

- **GPU and browser plumbing:** device and canvas context, bind group and pipeline layouts, render pipeline creation, `render()`, buffer creation and every `writeBuffer`, and event-listener registration. The model keeps the data these steps consume: the shader text, the line table, the vertex array and the colour data. It does not model the steps themselves.
- **The renderer's concrete scene** (`scripts/Renderer.js:74-140`): it passes modifier lists and `{id: ...}` operation objects to the stand-alone shape classes. Those classes have no `generateOperationCode`, so the call chain does not meet the builder's interface. The model does not invent the missing glue. The renderer takes its scene as a parameter, a sequence of `addShape`/`addShapes` calls on builder-style classes, and replays it on every rebuild.
- **The modifiers:** `translate`, `rotate`, `symX`, `onion` and `opSmoothUnion`. They are not part of this model.
- **Triangle distances:** the triangle's WGSL maths is not evaluated. `Fragment.ShapeDistance` gives no value for a triangle statement, and its text is still modelled.
- **The gradients:** the `mix` and `clamp` colour maths in the shader. The model stops at the sign of `sdf`, which picks the gradient.
- **Floating point:** WGSL `f32` and JavaScript numbers are modelled as reals, and `Float32Array` rounding is not modelled. JavaScript's number-to-string conversion is the uninterpreted `JsText.NumStr`.
- **WGSL validity:** whether the generated text compiles is not modelled. The model states where each part sits and which names are defined and called.
- **The static WGSL modules and the game-of-life tutorial:** not part of this model.
- Renderer.Renderer.Click: requires a non-zero canvas height. With height 0, JavaScript divides to an infinity or NaN, and the model has no real for that.
- Renderer.BuildScene: states that the new builder is valid and has received exactly the scene's calls. That the fields equal `Replay(scene)` follows from `Valid()` and is not restated.
- Renderer.MovementEffects: the resize is stated only while the band's start exceeds its end by at least 0.02. Beyond that, the band flips over and the rectangle's height is an absolute value.
- Renderer.Renderer.HandleLineMovement: a band is a pair value stored in an array slot. JavaScript mutates the two-element array object in place. No other reference to it exists, so replacing the slot is equivalent, but aliasing is not modelled.
- Builder.AddShapesIsRepeatedAddShape: holds only for a non-empty parameter array. With an empty one, `addShapes` still registers the class and the operation (`Builder.AddShapesNone`), while zero `addShape` calls register nothing.
- Builder.CalledFunctionsDefined: holds only for classes whose definitions declare the names they report. A class that reports a different name would register a definition no statement calls.
- Geometry.SdEllipse: requires non-zero radii. WGSL division by zero has no real value, and `Fragment.ShapeDistance` gives none there.
- Catalog.Fits: only argument lists of the kind's exact shape, with numeric entries, are modelled. JavaScript accepts any list: a missing scalar prints `undefined` into the WGSL, and a missing array throws a TypeError at `center[0]`.
- Fragment.ShapeDistance: a coordinate array shorter than two prints `undefined` into the WGSL. The statement then has no distance.

## Findings

| source | as written | input that shows it | evidently intended | confidence | as-written member | corrected member |
|---|---|---|---|---|---|---|
| scripts/ShaderBuilder.js:152 | `sdRectangle` returns `length(max(d, 0)) + max(min(d.x, d.y), 0.0)`: a sum of two non-negative terms, never below zero. So no pixel is ever inside a rectangle: a united rectangle draws nothing (`Fragment.UnionedRectangleChangesNothing`). A subtracted one still clears exactly its closed box, as the intended box would (`Fragment.SubtractedRectanglesClassifyAlike`). The same text is in scripts/shapes/Rectangle.js:6, and scripts/shapes/RoundedRectangle.js:1 marks that class as a stop-gap until the rectangle works. | A 1 by 1 rectangle united at the origin, then a circle of radius 0.3 subtracted, at pixel (0.4, 0): the fold ends at 0, which is background. | `length(max(d, 0)) + min(max(d.x, d.y), 0.0)`, the standard box distance: the same pixel reads -0.1 and is drawn. | not executed | Fragment.FrameSceneMissesFrame | Geometry.BoxInside |
