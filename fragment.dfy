/** What the generated fragment stage computes for one pixel, over the reals: `sdf`
    starts at `1e10`, each statement folds one shape's distance into it with its
    operation, and the pixel takes the shape gradient exactly when the final `sdf`
    is below zero. */
module Fragment {
  import opened Collections
  import opened Catalog
  import opened Geometry

  /** One statement of `shapeOperationsCode`: the shape kind whose
      `generateOperationCode` wrote it, the operation, and the parameters. */
  datatype Statement = Statement(kind: Kind, op: Operation, args: Args)

  predicate WellFormed(s: Statement) {
    Fits(s.kind, s.args)
  }

  predicate AllWellFormed(stmts: seq<Statement>) {
    forall i :: 0 <= i < |stmts| ==> WellFormed(stmts[i])
  }

  /** A statement's text: what its kind's generator emits for it. */
  function Line(s: Statement): string {
    if WellFormed(s) then OperationCode(s.kind, s.op, s.args) else ""
  }

  /** The statements' text, in order. */
  function RenderAll(stmts: seq<Statement>): string
    requires AllWellFormed(stmts)
  {
    ConcatMap(Line, stmts)
  }

  /** Rendering one more statement appends its text. */
  lemma RenderAppend(stmts: seq<Statement>, s: Statement)
    requires AllWellFormed(stmts) && WellFormed(s)
    ensures AllWellFormed(stmts + [s])
    ensures RenderAll(stmts + [s]) == RenderAll(stmts) + OperationCode(s.kind, s.op, s.args)
  {
    assert (stmts + [s])[..|stmts|] == stmts;
  }

  /** Rendering is a homomorphism from statement sequences to strings. */
  lemma RenderConcat(a: seq<Statement>, b: seq<Statement>)
    requires AllWellFormed(a) && AllWellFormed(b)
    ensures AllWellFormed(a + b) && RenderAll(a + b) == RenderAll(a) + RenderAll(b)
  {
    ConcatMapAppend(Line, a, b);
  }

  /** `var sdf = 1e10;` */
  const Far: real := 10000000000.0

  /** Which rectangle distance the fold uses: the catalog's as written, or the box it
      evidently intends. Every other kind is the same under both. */
  datatype Rectangles = AsWritten | Intended

  /** `vec2f(v[0], v[1])`; a shorter array leaves `undefined` in the text, which is
      not WGSL. */
  function Vec(v: seq<real>): Option<Vec2> {
    if |v| >= 2 then Some(Vec2(v[0], v[1])) else None
  }

  /** The value the statement's distance call returns at `pos`, if the call has one:
      no value when a vector argument is short, for an ellipse radius of zero
      (division by zero), and for triangles, whose distance is not part of this
      model. */
  function ShapeDistance(len: (real, real) -> real, rect: Rectangles, a: Args, pos: Vec2): Option<real> {
    match a
    case CircleArgs(c, r) =>
      if Vec(c).Some? then Some(SdCircle(len, pos, Vec(c).value, r)) else None
    case RectangleArgs(c, sz) =>
      if Vec(c).Some? && Vec(sz).Some? then
        Some(if rect == AsWritten then SdRectangle(len, pos, Vec(c).value, Vec(sz).value)
             else SdBox(len, pos, Vec(c).value, Vec(sz).value))
      else None
    case TriangleArgs(_, _, _) => None
    case EllipseArgs(c, radii) =>
      if Vec(c).Some? && Vec(radii).Some? && radii[0] != 0.0 && radii[1] != 0.0 then
        Some(SdEllipse(len, pos, Vec(c).value, Vec(radii).value))
      else None
    case RoundedSquareArgs(c, sz, r) =>
      if Vec(c).Some? && Vec(sz).Some? then Some(SdRoundedSquare(len, pos, Vec(c).value, Vec(sz).value, r)) else None
  }

  /** `OP(sdf, d)` for the three operator functions the builder can emit; any other
      operation calls a function the shader never defines. */
  function ApplyOp(op: Operation, sdf: real, d: real): Option<real> {
    match op
    case OpName(n) =>
      if n == "sdUnion" then Some(Min(sdf, d))
      else if n == "sdSubtract" then Some(Max(sdf, -d))
      else if n == "sdIntersect" then Some(Max(sdf, d))
      else None
    case OpObject(_, _) => None
  }

  /** The final `sdf` after the statements run in order, if every step has a value. */
  function Run(len: (real, real) -> real, rect: Rectangles, stmts: seq<Statement>, pos: Vec2): Option<real> {
    if stmts == [] then Some(Far)
    else
      var last := stmts[|stmts| - 1];
      match Run(len, rect, stmts[..|stmts| - 1], pos)
      case None => None
      case Some(v) =>
        match ShapeDistance(len, rect, last.args, pos)
        case None => None
        case Some(d) => ApplyOp(last.op, v, d)
  }

  /** The pixel takes the shape gradient. */
  predicate Inside(r: Option<real>) {
    r.Some? && r.value < 0.0
  }

  /** Whether the pixel is inside after one more step, from whether it was inside
      before and the step's distance: a union adds the shape, a subtraction removes
      it (its boundary included), an intersection keeps only the overlap. */
  function Covers(op: Operation, inside: bool, d: real): bool {
    match op
    case OpName(n) =>
      if n == "sdUnion" then inside || d < 0.0
      else if n == "sdSubtract" then inside && d > 0.0
      else inside && d < 0.0
    case OpObject(_, _) => false
  }

  /** The sign of each operator's result follows from the signs of its inputs. */
  lemma OperatorSign(op: Operation, v: real, d: real)
    requires ApplyOp(op, v, d).Some?
    ensures ApplyOp(op, v, d).value < 0.0 <==> Covers(op, v < 0.0, d)
  {
  }

  /** Exactly the three emitted operators give a value. */
  lemma OperatorsDefined(op: Operation, v: real, d: real)
    ensures ApplyOp(op, v, d).Some?
        <==> op in [OpName("sdUnion"), OpName("sdSubtract"), OpName("sdIntersect")]
  {
  }

  /** Whether the pixel ends inside, computed from signs alone. */
  function Classify(len: (real, real) -> real, rect: Rectangles, stmts: seq<Statement>, pos: Vec2): Option<bool> {
    if stmts == [] then Some(false)
    else
      var last := stmts[|stmts| - 1];
      match Classify(len, rect, stmts[..|stmts| - 1], pos)
      case None => None
      case Some(inside) =>
        match ShapeDistance(len, rect, last.args, pos)
        case None => None
        case Some(d) => if ApplyOp(last.op, 0.0, d).Some? then Some(Covers(last.op, inside, d)) else None
  }

  /** The fold's sign depends on nothing but the signs along the way: the pixel is
      inside exactly when the sign-only classification says so. */
  lemma {:induction false} RunClassifies(len: (real, real) -> real, rect: Rectangles, stmts: seq<Statement>, pos: Vec2)
    ensures Run(len, rect, stmts, pos).Some? <==> Classify(len, rect, stmts, pos).Some?
    ensures Run(len, rect, stmts, pos).Some? ==> (Inside(Run(len, rect, stmts, pos)) <==> Classify(len, rect, stmts, pos).value)
  {
    if stmts != [] {
      var init := stmts[..|stmts| - 1];
      var last := stmts[|stmts| - 1];
      RunClassifies(len, rect, init, pos);
      var r := Run(len, rect, init, pos);
      var d := ShapeDistance(len, rect, last.args, pos);
      if r.Some? && d.Some? {
        OperatorsDefined(last.op, r.value, d.value);
        OperatorsDefined(last.op, 0.0, d.value);
        if ApplyOp(last.op, r.value, d.value).Some? {
          OperatorSign(last.op, r.value, d.value);
        }
      }
    }
  }

  /** Some statement's shape contains the pixel. */
  predicate SomeShapeContains(len: (real, real) -> real, rect: Rectangles, stmts: seq<Statement>, pos: Vec2) {
    exists i :: 0 <= i < |stmts| && Inside(ShapeDistance(len, rect, stmts[i].args, pos))
  }

  /** Under unions only, the pixel is inside exactly when it is inside one of the
      shapes: the fold computes the union. */
  lemma {:induction false} UnionsCoverTheirShapes(len: (real, real) -> real, rect: Rectangles, stmts: seq<Statement>, pos: Vec2)
    requires forall i :: 0 <= i < |stmts| ==> stmts[i].op == OpName("sdUnion")
    requires forall i :: 0 <= i < |stmts| ==> ShapeDistance(len, rect, stmts[i].args, pos).Some?
    ensures Run(len, rect, stmts, pos).Some?
    ensures Inside(Run(len, rect, stmts, pos)) <==> SomeShapeContains(len, rect, stmts, pos)
  {
    if stmts != [] {
      var n := |stmts| - 1;
      var init := stmts[..n];
      assert forall i :: 0 <= i < n ==> init[i] == stmts[i];
      UnionsCoverTheirShapes(len, rect, init, pos);
      UnionStep(len, rect, init, stmts[n], pos);
      assert stmts == init + [stmts[n]];
    }
  }

  /** One union step of UnionsCoverTheirShapes. */
  lemma UnionStep(len: (real, real) -> real, rect: Rectangles, init: seq<Statement>, s: Statement, pos: Vec2)
    requires s.op == OpName("sdUnion") && ShapeDistance(len, rect, s.args, pos).Some?
    requires Run(len, rect, init, pos).Some?
    requires Inside(Run(len, rect, init, pos)) <==> SomeShapeContains(len, rect, init, pos)
    ensures Run(len, rect, init + [s], pos).Some?
    ensures Inside(Run(len, rect, init + [s], pos)) <==> SomeShapeContains(len, rect, init + [s], pos)
  {
    var all := init + [s];
    assert all[..|init|] == init;
    assert all[|init|] == s;
    if SomeShapeContains(len, rect, init, pos) {
      var i :| 0 <= i < |init| && Inside(ShapeDistance(len, rect, init[i].args, pos));
      assert all[i] == init[i];
    }
    if SomeShapeContains(len, rect, all, pos) && !Inside(ShapeDistance(len, rect, s.args, pos)) {
      var i :| 0 <= i < |all| && Inside(ShapeDistance(len, rect, all[i].args, pos));
      assert i < |init| && init[i] == all[i];
    }
  }

  /** A subtracted shape leaves every pixel on or inside it outside. */
  lemma SubtractionClears(len: (real, real) -> real, rect: Rectangles, stmts: seq<Statement>, s: Statement, pos: Vec2)
    requires s.op == OpName("sdSubtract")
    requires ShapeDistance(len, rect, s.args, pos).Some? && ShapeDistance(len, rect, s.args, pos).value <= 0.0
    ensures !Inside(Run(len, rect, stmts + [s], pos))
  {
    assert (stmts + [s])[..|stmts|] == stmts;
  }

  /** A union'd rectangle as written never turns a pixel interior: appending one
      leaves every pixel's classification as it was. */
  lemma UnionedRectangleChangesNothing(len: (real, real) -> real, stmts: seq<Statement>, c: seq<real>, size: seq<real>, pos: Vec2)
    requires IsLength(len)
    requires Run(len, AsWritten, stmts, pos).Some? && |c| >= 2 && |size| >= 2
    ensures var s := Statement(Rectangle, OpName("sdUnion"), RectangleArgs(c, size));
      Inside(Run(len, AsWritten, stmts + [s], pos)) <==> Inside(Run(len, AsWritten, stmts, pos))
  {
    var s := Statement(Rectangle, OpName("sdUnion"), RectangleArgs(c, size));
    assert (stmts + [s])[..|stmts|] == stmts;
    RectangleNeverInside(len, pos, Vec2(c[0], c[1]), Vec2(size[0], size[1]));
  }

  /** Where every rectangle is subtracted, the rectangle as written and the intended
      box classify every pixel alike: a subtraction reads only whether the distance
      is positive, and the two are positive at the same pixels. */
  lemma {:induction false} SubtractedRectanglesClassifyAlike(len: (real, real) -> real, stmts: seq<Statement>, pos: Vec2)
    requires IsLength(len)
    requires forall i :: 0 <= i < |stmts| && stmts[i].args.RectangleArgs? ==> stmts[i].op == OpName("sdSubtract")
    ensures Classify(len, AsWritten, stmts, pos) == Classify(len, Intended, stmts, pos)
  {
    if stmts != [] {
      var init := stmts[..|stmts| - 1];
      var last := stmts[|stmts| - 1];
      assert forall i :: 0 <= i < |init| ==> init[i] == stmts[i];
      SubtractedRectanglesClassifyAlike(len, init, pos);
      match last.args
      case RectangleArgs(c, sz) =>
        if |c| >= 2 && |sz| >= 2 {
          RectangleBoxSamePositive(len, pos, Vec2(c[0], c[1]), Vec2(sz[0], sz[1]));
        }
      case _ =>
    }
  }

  /** A rectangle of size 1 by 1 united at the origin, then a circle of radius 0.3
      subtracted at the origin: a frame whose inner edge should be the circle. */
  function FrameScene(): seq<Statement> {
    [Statement(Rectangle, OpName("sdUnion"), RectangleArgs([0.0, 0.0], [1.0, 1.0])),
     Statement(Circle, OpName("sdSubtract"), CircleArgs([0.0, 0.0], 0.3))]
  }

  /** At (0.4, 0), inside the square and outside the circle, the frame's pixel is
      background as the rectangle is written and interior with the intended box. */
  lemma FrameSceneMissesFrame(len: (real, real) -> real)
    requires IsLength(len)
    ensures Run(len, AsWritten, FrameScene(), Vec2(0.4, 0.0)) == Some(0.0)
    ensures Run(len, Intended, FrameScene(), Vec2(0.4, 0.0)) == Some(-0.1)
    ensures !Inside(Run(len, AsWritten, FrameScene(), Vec2(0.4, 0.0)))
    ensures Inside(Run(len, Intended, FrameScene(), Vec2(0.4, 0.0)))
  {
    LengthZero(len, 0.0, 0.0);
    FrameSquareAt(len);
    FrameHoleAt(len);
    FrameDistances(len);
    FrameRuns(len);
  }

  /** The fold over the frame, given the distances of its two shapes. */
  lemma FrameRuns(len: (real, real) -> real)
    requires ShapeDistance(len, AsWritten, FrameScene()[0].args, Vec2(0.4, 0.0)) == Some(0.0)
    requires ShapeDistance(len, Intended, FrameScene()[0].args, Vec2(0.4, 0.0)) == Some(-0.1)
    requires ShapeDistance(len, AsWritten, FrameScene()[1].args, Vec2(0.4, 0.0)) == Some(0.1)
    requires ShapeDistance(len, Intended, FrameScene()[1].args, Vec2(0.4, 0.0)) == Some(0.1)
    ensures Run(len, AsWritten, FrameScene(), Vec2(0.4, 0.0)) == Some(0.0)
    ensures Run(len, Intended, FrameScene(), Vec2(0.4, 0.0)) == Some(-0.1)
  {
    var s, p := FrameScene(), Vec2(0.4, 0.0);
    assert s[..1] == [s[0]] && [s[0]][..0] == [];
    assert Run(len, AsWritten, s[..1], p) == Some(0.0);
    assert Run(len, Intended, s[..1], p) == Some(-0.1);
  }

  /** The distances at (0.4, 0) of the frame's two shapes. */
  lemma FrameDistances(len: (real, real) -> real)
    requires SdRectangle(len, Vec2(0.4, 0.0), Vec2(0.0, 0.0), Vec2(1.0, 1.0)) == 0.0
    requires SdBox(len, Vec2(0.4, 0.0), Vec2(0.0, 0.0), Vec2(1.0, 1.0)) == -0.1
    requires SdCircle(len, Vec2(0.4, 0.0), Vec2(0.0, 0.0), 0.3) == 0.1
    ensures ShapeDistance(len, AsWritten, FrameScene()[0].args, Vec2(0.4, 0.0)) == Some(0.0)
    ensures ShapeDistance(len, Intended, FrameScene()[0].args, Vec2(0.4, 0.0)) == Some(-0.1)
    ensures ShapeDistance(len, AsWritten, FrameScene()[1].args, Vec2(0.4, 0.0)) == Some(0.1)
    ensures ShapeDistance(len, Intended, FrameScene()[1].args, Vec2(0.4, 0.0)) == Some(0.1)
  {
    assert Vec([0.0, 0.0]) == Some(Vec2(0.0, 0.0)) && Vec([1.0, 1.0]) == Some(Vec2(1.0, 1.0));
  }

  lemma FrameSquareAt(len: (real, real) -> real)
    requires len(0.0, 0.0) == 0.0
    ensures SdRectangle(len, Vec2(0.4, 0.0), Vec2(0.0, 0.0), Vec2(1.0, 1.0)) == 0.0
    ensures SdBox(len, Vec2(0.4, 0.0), Vec2(0.0, 0.0), Vec2(1.0, 1.0)) == -0.1
  {
    var d := Overshoot(Vec2(0.4, 0.0), Vec2(0.0, 0.0), Vec2(1.0 * 0.5, 1.0 * 0.5));
    assert d == Vec2(-0.1, -0.5);
    assert Outside(len, d) == 0.0;
  }

  lemma FrameHoleAt(len: (real, real) -> real)
    requires IsLength(len)
    ensures SdCircle(len, Vec2(0.4, 0.0), Vec2(0.0, 0.0), 0.3) == 0.1
  {
    LengthOnAxis(len, 0.4);
  }

  /** The disc the renderer's base scene starts from: radius 0.75 at the origin. */
  function Disc(): seq<Statement> {
    [Statement(Circle, OpName("sdUnion"), CircleArgs([0.0, 0.0], 0.75))]
  }

  /** The disc covers its centre and not the corner (1, 1) of the view. */
  lemma DiscCoversCentreOnly(len: (real, real) -> real)
    requires IsLength(len)
    ensures Inside(Run(len, AsWritten, Disc(), Vec2(0.0, 0.0)))
    ensures !Inside(Run(len, AsWritten, Disc(), Vec2(1.0, 1.0)))
  {
    assert Disc()[..0] == [];
    LengthZero(len, 0.0, 0.0);
    CircleInside(len, Vec2(1.0, 1.0), Vec2(0.0, 0.0), 0.75);
    assert Sq(1.0) + Sq(1.0) == 2.0 && Sq(0.75) == 0.5625;
  }

  /** Statements do not commute: subtracting a small disc and then uniting a large
      one covers the centre, the other order does not. */
  lemma OrderMatters(len: (real, real) -> real)
    requires IsLength(len)
    ensures var big := Statement(Circle, OpName("sdUnion"), CircleArgs([0.0, 0.0], 0.5));
      var small := Statement(Circle, OpName("sdSubtract"), CircleArgs([0.0, 0.0], 0.25));
      !Inside(Run(len, AsWritten, [big, small], Vec2(0.0, 0.0)))
      && Inside(Run(len, AsWritten, [small, big], Vec2(0.0, 0.0)))
  {
    var big := Statement(Circle, OpName("sdUnion"), CircleArgs([0.0, 0.0], 0.5));
    var small := Statement(Circle, OpName("sdSubtract"), CircleArgs([0.0, 0.0], 0.25));
    LengthZero(len, 0.0, 0.0);
    assert [big, small][..1] == [big] && [small, big][..1] == [small];
    assert [big][..0] == [] && [small][..0] == [];
    assert Run(len, AsWritten, [small], Vec2(0.0, 0.0)) == Some(Far);
    assert Run(len, AsWritten, [big], Vec2(0.0, 0.0)) == Some(-0.5);
  }
}
