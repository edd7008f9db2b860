/** The WGSL distance functions of the shape catalog, evaluated over the reals. A
    distance below zero means the pixel lies inside the shape. WGSL's `length` is a
    square root, which Dafny's reals do not provide, so every function takes the
    two-dimensional `length` as a parameter `len` that `IsLength` pins down. */
module Geometry {

  datatype Vec2 = Vec2(x: real, y: real)

  /** `len` is the Euclidean length of a two-dimensional vector: never negative, and
      its square is the sum of the squared coordinates. */
  ghost predicate IsLength(len: (real, real) -> real) {
    forall x: real, y: real :: len(x, y) >= 0.0 && Sq(len(x, y)) == Sq(x) + Sq(y)
  }

  function Abs(x: real): real { if x < 0.0 then -x else x }
  function Min(a: real, b: real): real { if a <= b then a else b }
  function Max(a: real, b: real): real { if a >= b then a else b }

  /** `abs(pos - center) - half` per coordinate: the signed overshoot of the pixel
      past a box of half-extents `half` around `center`. */
  function Overshoot(pos: Vec2, center: Vec2, half: Vec2): Vec2 {
    Vec2(Abs(pos.x - center.x) - half.x, Abs(pos.y - center.y) - half.y)
  }

  /** `length(max(d, vec2f(0.0, 0.0)))`: how far the pixel lies outside the box. */
  function Outside(len: (real, real) -> real, d: Vec2): real {
    len(Max(d.x, 0.0), Max(d.y, 0.0))
  }

  /** `sdCircle`: `length(pos - center) - radius`. */
  function SdCircle(len: (real, real) -> real, pos: Vec2, center: Vec2, radius: real): real {
    len(pos.x - center.x, pos.y - center.y) - radius
  }

  /** `sdRectangle` as the catalog writes it: the outside distance plus
      `max(min(d.x, d.y), 0.0)`. */
  function SdRectangle(len: (real, real) -> real, pos: Vec2, center: Vec2, size: Vec2): real {
    var d := Overshoot(pos, center, Vec2(size.x * 0.5, size.y * 0.5));
    Outside(len, d) + Max(Min(d.x, d.y), 0.0)
  }

  /** The box distance the rectangle evidently intends, the form the project's other
      shader module uses: the outside distance plus `min(max(d.x, d.y), 0.0)`. */
  function SdBox(len: (real, real) -> real, pos: Vec2, center: Vec2, size: Vec2): real {
    var d := Overshoot(pos, center, Vec2(size.x * 0.5, size.y * 0.5));
    Outside(len, d) + Min(Max(d.x, d.y), 0.0)
  }

  /** `sdEllipse`: `d = abs(pos - center) / radii`, then `length(max(d, 0)) - 1.0`.
      Radii must be non-zero: WGSL division by zero has no real value. */
  function SdEllipse(len: (real, real) -> real, pos: Vec2, center: Vec2, radii: Vec2): real
    requires radii.x != 0.0 && radii.y != 0.0
  {
    var d := Vec2(Abs(pos.x - center.x) / radii.x, Abs(pos.y - center.y) / radii.y);
    Outside(len, d) - 1.0
  }

  /** `sdRoundedSquare`: the minimum of an inside and an outside term, less the radius. */
  function SdRoundedSquare(len: (real, real) -> real, pos: Vec2, center: Vec2, size: Vec2, radius: real): real {
    var d := Overshoot(pos, center, Vec2(size.x * 0.5 - radius, size.y * 0.5 - radius));
    var inside := Outside(len, d);
    var outside := Outside(len, Vec2(d.x - radius, d.y - radius));
    Min(inside, outside) - radius
  }

  // Facts about squares and about `len`. Products stay inside `Sq`, and each step
  // that multiplies is spelled out as a `calc`.

  function Sq(x: real): real { x * x }

  lemma SqPositive(x: real)
    requires x != 0.0
    ensures Sq(x) > 0.0
  {
    if x > 0.0 {
      calc { Sq(x); == x * x; > 0.0; }
    } else {
      calc { Sq(x); == x * x; == (-x) * (-x); > 0.0; }
    }
  }

  lemma SqNonNegative(x: real)
    ensures Sq(x) >= 0.0
  {
    if x != 0.0 {
      SqPositive(x);
    }
  }

  lemma SqNegate(x: real)
    ensures Sq(-x) == Sq(x)
  {
    calc { Sq(-x); == (-x) * (-x); == x * x; == Sq(x); }
  }

  /** Of two non-negative numbers, the one with the smaller square is the smaller. */
  lemma SquareOrder(a: real, b: real)
    requires a >= 0.0 && b >= 0.0
    ensures a < b <==> Sq(a) < Sq(b)
  {
    if a < b {
      SqGrows(a, b);
    } else if b < a {
      SqGrows(b, a);
    }
  }

  lemma SqGrows(a: real, b: real)
    requires 0.0 <= a < b
    ensures Sq(a) < Sq(b)
  {
    calc {
      Sq(a);
    == a * a;
    <= a * b;
    <  b * b;
    == Sq(b);
    }
  }

  /** The length of a vector is zero exactly when both coordinates are. */
  lemma LengthZero(len: (real, real) -> real, x: real, y: real)
    requires IsLength(len)
    ensures len(x, y) == 0.0 <==> x == 0.0 && y == 0.0
  {
    var l := len(x, y);
    SqNonNegative(x);
    SqNonNegative(y);
    if l != 0.0 {
      SqPositive(l);
    }
    if x != 0.0 {
      SqPositive(x);
    }
    if y != 0.0 {
      SqPositive(y);
    }
  }

  /** The length of `(a, 0)` and of `(0, a)` for `a >= 0` is `a`. */
  lemma LengthOnAxis(len: (real, real) -> real, a: real)
    requires IsLength(len) && a >= 0.0
    ensures len(a, 0.0) == a && len(0.0, a) == a
  {
    assert Sq(0.0) == 0.0;
    SquareOrder(len(a, 0.0), a);
    SquareOrder(a, len(a, 0.0));
    SquareOrder(len(0.0, a), a);
    SquareOrder(a, len(0.0, a));
  }

  /** Growing both coordinates away from zero never shortens a vector. */
  lemma LengthMonotone(len: (real, real) -> real, a: real, b: real, a2: real, b2: real)
    requires IsLength(len)
    requires 0.0 <= a <= a2 && 0.0 <= b <= b2
    ensures len(a, b) <= len(a2, b2)
  {
    if a < a2 { SqGrows(a, a2); }
    if b < b2 { SqGrows(b, b2); }
    SquareOrder(len(a, b), len(a2, b2));
  }

  // What each distance says about the pixel.

  /** A pixel is inside a circle exactly when the radius is positive and the pixel's
      squared distance from the centre is below the squared radius. */
  lemma CircleInside(len: (real, real) -> real, pos: Vec2, center: Vec2, radius: real)
    requires IsLength(len)
    ensures SdCircle(len, pos, center, radius) < 0.0
        <==> radius > 0.0 && Sq(pos.x - center.x) + Sq(pos.y - center.y) < Sq(radius)
  {
    var l := len(pos.x - center.x, pos.y - center.y);
    if radius > 0.0 {
      SquareOrder(l, radius);
    }
  }

  /** The rectangle as written is never negative, and is zero exactly on the closed
      box: no pixel is ever inside it. */
  lemma RectangleNeverInside(len: (real, real) -> real, pos: Vec2, center: Vec2, size: Vec2)
    requires IsLength(len)
    ensures SdRectangle(len, pos, center, size) >= 0.0
    ensures SdRectangle(len, pos, center, size) == 0.0
        <==> Abs(pos.x - center.x) <= size.x * 0.5 && Abs(pos.y - center.y) <= size.y * 0.5
  {
    var d := Overshoot(pos, center, Vec2(size.x * 0.5, size.y * 0.5));
    LengthZero(len, Max(d.x, 0.0), Max(d.y, 0.0));
  }

  /** The intended box is negative exactly on the open box. */
  lemma BoxInside(len: (real, real) -> real, pos: Vec2, center: Vec2, size: Vec2)
    requires IsLength(len)
    ensures SdBox(len, pos, center, size) < 0.0
        <==> Abs(pos.x - center.x) < size.x * 0.5 && Abs(pos.y - center.y) < size.y * 0.5
  {
    var d := Overshoot(pos, center, Vec2(size.x * 0.5, size.y * 0.5));
    LengthZero(len, Max(d.x, 0.0), Max(d.y, 0.0));
  }

  /** The rectangle as written and the intended box are positive at the same pixels:
      exactly those outside the closed box. */
  lemma RectangleBoxSamePositive(len: (real, real) -> real, pos: Vec2, center: Vec2, size: Vec2)
    requires IsLength(len)
    ensures SdRectangle(len, pos, center, size) > 0.0 <==> SdBox(len, pos, center, size) > 0.0
    ensures SdBox(len, pos, center, size) > 0.0
        <==> Abs(pos.x - center.x) > size.x * 0.5 || Abs(pos.y - center.y) > size.y * 0.5
  {
    var d := Overshoot(pos, center, Vec2(size.x * 0.5, size.y * 0.5));
    LengthZero(len, Max(d.x, 0.0), Max(d.y, 0.0));
    RectangleNeverInside(len, pos, center, size);
  }

  /** Outside the box, away from its corners' quadrants, the two rectangles agree; inside
      the box the written one reads zero where the intended one is negative. */
  lemma RectangleAgreesWithBoxOutside(len: (real, real) -> real, pos: Vec2, center: Vec2, size: Vec2)
    requires IsLength(len)
    ensures var d := Overshoot(pos, center, Vec2(size.x * 0.5, size.y * 0.5));
      ((d.x <= 0.0 || d.y <= 0.0) && (d.x >= 0.0 || d.y >= 0.0))
      ==> SdRectangle(len, pos, center, size) == SdBox(len, pos, center, size)
  {
  }

  /** A pixel is inside an ellipse with positive radii exactly when its normalised
      squared distance from the centre is below one; the centre reads -1. */
  lemma EllipseInside(len: (real, real) -> real, pos: Vec2, center: Vec2, radii: Vec2)
    requires IsLength(len)
    requires radii.x > 0.0 && radii.y > 0.0
    ensures var u := (pos.x - center.x) / radii.x;
            var v := (pos.y - center.y) / radii.y;
            SdEllipse(len, pos, center, radii) < 0.0 <==> Sq(u) + Sq(v) < 1.0
    ensures SdEllipse(len, center, center, radii) == -1.0
  {
    var du := Abs(pos.x - center.x) / radii.x;
    var dv := Abs(pos.y - center.y) / radii.y;
    ScaledSquare(pos.x - center.x, radii.x);
    ScaledSquare(pos.y - center.y, radii.y);
    assert Max(du, 0.0) == du && Max(dv, 0.0) == dv;
    SquareOrder(len(du, dv), 1.0);
    assert Abs(center.x - center.x) / radii.x == 0.0 && Abs(center.y - center.y) / radii.y == 0.0;
    LengthZero(len, 0.0, 0.0);
  }

  /** Dividing the absolute value by a positive number keeps it non-negative and
      squares like the signed quotient. */
  lemma ScaledSquare(t: real, r: real)
    requires r > 0.0
    ensures Abs(t) / r >= 0.0
    ensures Sq(Abs(t) / r) == Sq(t / r)
  {
    if t < 0.0 {
      assert Abs(t) / r == -(t / r);
      SqNegate(t / r);
    }
  }

  /** With a non-negative radius the outside term is the smaller one, so the rounded
      square is the plain box of `size` grown by `radius` with rounded corners: it reads
      `-radius` everywhere inside the box, and a pixel is inside it exactly when its
      distance to the box is below the radius. */
  lemma RoundedSquareInside(len: (real, real) -> real, pos: Vec2, center: Vec2, size: Vec2, radius: real)
    requires IsLength(len) && radius >= 0.0
    ensures var e := Overshoot(pos, center, Vec2(size.x * 0.5, size.y * 0.5));
      SdRoundedSquare(len, pos, center, size, radius) == Outside(len, e) - radius
    ensures Abs(pos.x - center.x) <= size.x * 0.5 && Abs(pos.y - center.y) <= size.y * 0.5
        ==> SdRoundedSquare(len, pos, center, size, radius) == -radius
  {
    var d := Overshoot(pos, center, Vec2(size.x * 0.5 - radius, size.y * 0.5 - radius));
    var e := Overshoot(pos, center, Vec2(size.x * 0.5, size.y * 0.5));
    assert Vec2(d.x - radius, d.y - radius) == e;
    LengthMonotone(len, Max(e.x, 0.0), Max(e.y, 0.0), Max(d.x, 0.0), Max(d.y, 0.0));
    LengthZero(len, 0.0, 0.0);
  }
}
