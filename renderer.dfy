/** The renderer's line editor: five horizontal bands given by pixel rows, turned
    into rectangles the shader cuts out of the scene; a click selects the band
    whose middle is near the clicked height, and the arrow keys move or resize the
    selected band, after which the shader is rebuilt. The colour table the shader
    reads is set up here too. */
module Renderer {
  import opened Collections
  import opened Geometry
  import opened Builder

  /** The canvas height in pixels that the band rows are given in. */
  const CanvasHeight: real := 960.0
  /** How far from a band's middle a click may land and still select it. */
  const Threshold: real := 0.02
  /** How far one key press moves a band's end. */
  const Step: real := 0.01

  /** The normalised device coordinate of pixel row `c`: row 0 is the top (1.0),
      the last row the bottom (-1.0). */
  function PixelToNdc(c: real): real {
    -((c / CanvasHeight) * 2.0 - 1.0)
  }

  /** The map runs from the top of the canvas down: strictly decreasing, with the
      top, middle and bottom rows at 1, 0 and -1. */
  lemma PixelToNdcOrder(a: real, b: real)
    ensures a < b <==> PixelToNdc(a) > PixelToNdc(b)
    ensures PixelToNdc(0.0) == 1.0 && PixelToNdc(480.0) == 0.0 && PixelToNdc(960.0) == -1.0
  {
  }

  /** The height the click handler computes from the clicked row within the
      canvas. */
  function ClickY(clientY: real, top: real, height: real): real
    requires height != 0.0
  {
    ((clientY - top) / height) * -2.0 + 1.0
  }

  /** On a canvas 960 rows high a click lands at the same height the bands are
      placed with. */
  lemma ClickUsesBandCoordinates(clientY: real, top: real)
    ensures ClickY(clientY, top, CanvasHeight) == PixelToNdc(clientY - top)
  {
  }

  /** A band as the two ends of its vertical extent. */
  datatype LinePos = LinePos(start: real, end: real)

  /** The rectangle a band becomes: centre (x, y), width and height. */
  datatype LineRect = LineRect(x: real, y: real, width: real, height: real)

  /** The band rows, in pixels, the renderer starts with. */
  function LineCoords(): seq<LinePos> {
    [LinePos(428.0, 440.0), LinePos(480.0, 500.0), LinePos(544.0, 568.0),
     LinePos(620.0, 662.0), LinePos(714.0, 770.0)]
  }

  /** `initializeLines`: every coordinate of every row mapped to device
      coordinates. There are five bands; each starts above where it ends, and each
      lies wholly above the next, so they run down the canvas without overlapping. */
  function InitialLines(): (r: seq<LinePos>)
    ensures |r| == 5
    ensures forall i :: 0 <= i < 5 ==> r[i].start > r[i].end
    ensures forall i :: 0 <= i < 4 ==> r[i].end > r[i + 1].start
  {
    PixelToNdcOrder(428.0, 440.0);
    PixelToNdcOrder(440.0, 480.0);
    PixelToNdcOrder(480.0, 500.0);
    PixelToNdcOrder(500.0, 544.0);
    PixelToNdcOrder(544.0, 568.0);
    PixelToNdcOrder(568.0, 620.0);
    PixelToNdcOrder(620.0, 662.0);
    PixelToNdcOrder(662.0, 714.0);
    PixelToNdcOrder(714.0, 770.0);
    seq(|LineCoords()|, i requires 0 <= i < |LineCoords()| =>
      LinePos(PixelToNdc(LineCoords()[i].start), PixelToNdc(LineCoords()[i].end)))
  }

  /** `setupLineValues(lines)`: one rectangle per band, in order, centred on the
      vertical axis, `2 * radius` wide, spanning exactly from the band's lower end
      to its upper end. */
  function LineValues(radius: real, ls: seq<LinePos>): (r: seq<LineRect>)
    ensures |r| == |ls|
    ensures forall i :: 0 <= i < |ls| ==>
      && r[i].x == 0.0 && r[i].width == 2.0 * radius && r[i].height >= 0.0
      && r[i].y - r[i].height / 2.0 == Min(ls[i].start, ls[i].end)
      && r[i].y + r[i].height / 2.0 == Max(ls[i].start, ls[i].end)
  {
    seq(|ls|, i requires 0 <= i < |ls| =>
      LineRect(0.0, (ls[i].start + ls[i].end) * 0.5, radius * 2.0, Abs(ls[i].start - ls[i].end)))
  }

  /** A height selects a band when it lies within the threshold of the band's middle. */
  predicate Near(p: LinePos, y: real) {
    Abs(y - (p.start + p.end) / 2.0) < Threshold
  }

  /** `r` is what a search for `y` over `ls` finds: the first band near `y`, or
      nothing when no band is. */
  predicate IsSelection(ls: seq<LinePos>, y: real, r: Option<nat>) {
    match r
    case None => forall j :: 0 <= j < |ls| ==> !Near(ls[j], y)
    case Some(i) => i < |ls| && Near(ls[i], y) && forall j :: 0 <= j < i ==> !Near(ls[j], y)
  }

  /** The search has exactly one outcome for every height. */
  lemma SelectionUnique(ls: seq<LinePos>, y: real, r1: Option<nat>, r2: Option<nat>)
    requires IsSelection(ls, y, r1) && IsSelection(ls, y, r2)
    ensures r1 == r2
  {
  }

  /** The starting bands lie far enough apart that no height is near two of them:
      whichever band a click selects is the only candidate. */
  lemma InitialLinesSeparated(y: real, i: nat, j: nat)
    requires i < j < |InitialLines()|
    ensures !(Near(InitialLines()[i], y) && Near(InitialLines()[j], y))
  {
    var ls := InitialLines();
    assert ls[0] == LinePos(PixelToNdc(428.0), PixelToNdc(440.0));
    assert ls[1] == LinePos(PixelToNdc(480.0), PixelToNdc(500.0));
    assert ls[2] == LinePos(PixelToNdc(544.0), PixelToNdc(568.0));
    assert ls[3] == LinePos(PixelToNdc(620.0), PixelToNdc(662.0));
    assert ls[4] == LinePos(PixelToNdc(714.0), PixelToNdc(770.0));
  }

  /** The band after the key press `key` (`handleLineMovement`'s switch): up and
      down shift both ends, left and right move them in opposite directions, any
      other key leaves the band alone. */
  function Moved(p: LinePos, key: string): LinePos {
    if key == "ArrowUp" then LinePos(p.start + Step, p.end + Step)
    else if key == "ArrowDown" then LinePos(p.start - Step, p.end - Step)
    else if key == "ArrowLeft" then LinePos(p.start - Step, p.end + Step)
    else if key == "ArrowRight" then LinePos(p.start + Step, p.end - Step)
    else p
  }

  /** Up and down move the band's rectangle by one step without resizing it; left
      and right resize it by two steps without moving its middle; other keys change
      nothing; and each arrow is undone by its opposite. */
  lemma MovementEffects(radius: real, p: LinePos)
    ensures var r, up, down := LineValues(radius, [p])[0], LineValues(radius, [Moved(p, "ArrowUp")])[0], LineValues(radius, [Moved(p, "ArrowDown")])[0];
      up.height == r.height == down.height && up.y == r.y + Step && down.y == r.y - Step
    ensures var r, left, right := LineValues(radius, [p])[0], LineValues(radius, [Moved(p, "ArrowLeft")])[0], LineValues(radius, [Moved(p, "ArrowRight")])[0];
      left.y == r.y == right.y
      && (p.start - p.end >= 2.0 * Step ==> left.height == r.height - 2.0 * Step && right.height == r.height + 2.0 * Step)
    ensures forall key :: key !in ["ArrowUp", "ArrowDown", "ArrowLeft", "ArrowRight"] ==> Moved(p, key) == p
    ensures Moved(Moved(p, "ArrowUp"), "ArrowDown") == p && Moved(Moved(p, "ArrowDown"), "ArrowUp") == p
    ensures Moved(Moved(p, "ArrowLeft"), "ArrowRight") == p && Moved(Moved(p, "ArrowRight"), "ArrowLeft") == p
  {
  }

  /** `initializeColors`' table: four RGBA colours on the 0-255 scale. */
  function InitialColorValues(): seq<seq<real>> {
    [[134.0, 109.0, 255.0, 255.0],
     [0.0, 0.0, 132.0, 255.0],
     [254.0, 208.0, 46.0, 255.0],
     [251.0, 1.0, 249.0, 255.0]]
  }

  /** Every channel divided by 255. */
  function Normalized(rows: seq<seq<real>>): (r: seq<seq<real>>)
    ensures |r| == |rows|
    ensures forall i :: 0 <= i < |rows| ==> |r[i]| == |rows[i]|
    ensures forall i, j :: 0 <= i < |rows| && 0 <= j < |rows[i]| ==>
      r[i][j] * 255.0 == rows[i][j]
      && (0.0 <= rows[i][j] <= 255.0 ==> 0.0 <= r[i][j] <= 1.0)
  {
    seq(|rows|, i requires 0 <= i < |rows| =>
      seq(|rows[i]|, j requires 0 <= j < |rows[i]| => rows[i][j] / 255.0))
  }

  /** The numbers `updateColorUniforms(colors)` writes: the rows laid end to end. */
  function ColorData(colors: seq<seq<real>>): seq<real> {
    Flatten(colors)
  }

  /** The starting colour data holds 16 numbers, channel `j` of colour `i` at
      `4 * i + j`, each within 0..1. */
  lemma InitialColorData()
    ensures |ColorData(Normalized(InitialColorValues()))| == 16
    ensures forall i, j :: 0 <= i < 4 && 0 <= j < 4 ==>
      && ColorData(Normalized(InitialColorValues()))[4 * i + j] * 255.0 == InitialColorValues()[i][j]
      && 0.0 <= ColorData(Normalized(InitialColorValues()))[4 * i + j] <= 1.0
  {
    var rows := InitialColorValues();
    var n := Normalized(rows);
    assert forall i, j :: 0 <= i < 4 && 0 <= j < 4 ==> 0.0 <= rows[i][j] <= 255.0;
    FlattenUniformLength(n, 4);
    forall i, j | 0 <= i < 4 && 0 <= j < 4
      ensures ColorData(n)[4 * i + j] == n[i][j]
    {
      FlattenUniformAt(n, 4, i, j);
    }
  }

  /** One call of the chain in `initializeShaderBuilder`. */
  method Perform(b: ShaderBuilder, c: Call)
    requires b.Valid() && CallFits(c)
    modifies b
    ensures b.Valid() && b.history == old(b.history) + [c]
  {
    match c
    case AddShapeCall(cls, op, args) =>
      b.AddShape(cls, op, args);
    case AddShapesCall(cls, op, paramsArray) =>
      b.AddShapes(cls, op, paramsArray);
  }

  /** A new builder given the calls of `scene`, in order, as the chain of
      `addShape` and `addShapes` calls in `initializeShaderBuilder` gives them. */
  method BuildScene(scene: seq<Call>) returns (b: ShaderBuilder)
    requires AllFit(scene)
    ensures fresh(b) && b.Valid() && b.history == scene
  {
    b := new ShaderBuilder();
    var i := 0;
    while i < |scene|
      invariant 0 <= i <= |scene|
      invariant fresh(b) && b.Valid() && b.history == scene[..i]
    {
      PrefixStep(scene, i);
      Perform(b, scene[i]);
      i := i + 1;
    }
    assert scene[..i] == scene;
  }

  /** The next prefix of a scene whose calls all fit adds one call that fits. */
  lemma PrefixStep(scene: seq<Call>, i: nat)
    requires AllFit(scene) && i < |scene|
    ensures scene[..i + 1] == scene[..i] + [scene[i]]
    ensures CallFits(scene[i])
  {
  }

  class Renderer {
    /** The bands, in device coordinates; a key press rewrites one slot in place. */
    var linesPos: array<LinePos>
    /** The rectangles derived from `linesPos`. */
    var lines: seq<LineRect>
    var circleRadius: real
    var selectedLineIndex: Option<nat>
    var initialColors: seq<seq<real>>
    var shaderBuilder: ShaderBuilder
    /** The calls `initializeShaderBuilder` makes on each new builder. */
    const scene: seq<Call>

    /** The rectangles are derived from the current bands, and a selected band
        exists. */
    ghost predicate Valid()
      reads this, linesPos
    {
      && AllFit(scene)
      && lines == LineValues(circleRadius, linesPos[..])
      && (selectedLineIndex.Some? ==> selectedLineIndex.value < linesPos.Length)
    }

    /** The builder has received the scene's calls and nothing else, so it holds
        `Replay(scene)`. */
    ghost predicate Built()
      reads this, shaderBuilder
    {
      shaderBuilder.Valid() && shaderBuilder.history == scene
    }

    /** The steps of the constructor that this model keeps: the bands, the first
        builder and the colours. */
    constructor(scene: seq<Call>)
      requires AllFit(scene)
      ensures Valid() && Built()
      ensures linesPos[..] == InitialLines() && circleRadius == 0.75 && selectedLineIndex == None
      ensures initialColors == Normalized(InitialColorValues())
      ensures this.scene == scene
    {
      var builder := BuildScene(scene);
      this.scene := scene;
      selectedLineIndex := None;
      circleRadius := 0.75;
      var init := InitialLines();
      linesPos := new LinePos[|init|](i requires 0 <= i < |init| => init[i]);
      lines := LineValues(0.75, init);
      initialColors := Normalized(InitialColorValues());
      shaderBuilder := builder;
      new;
      assert linesPos[..] == init;
    }

    /** `setupLineValues(this.linesPos)`. */
    method SetupLineValues()
      modifies this
      ensures lines == LineValues(circleRadius, linesPos[..])
      ensures linesPos == old(linesPos) && circleRadius == old(circleRadius)
      ensures selectedLineIndex == old(selectedLineIndex) && shaderBuilder == old(shaderBuilder)
      ensures initialColors == old(initialColors)
    {
      lines := LineValues(circleRadius, linesPos[..]);
    }

    /** `initializeShaderBuilder()`: a brand-new builder that has received the
        scene's calls and nothing else. */
    method InitializeShaderBuilder()
      requires AllFit(scene)
      modifies this
      ensures fresh(shaderBuilder) && Built()
      ensures linesPos == old(linesPos) && lines == old(lines) && circleRadius == old(circleRadius)
      ensures selectedLineIndex == old(selectedLineIndex) && initialColors == old(initialColors)
    {
      shaderBuilder := BuildScene(scene);
    }

    /** `getLineIndexFromCoords(y)`: the first band whose middle is within the
        threshold of `y`, or nothing. */
    method GetLineIndexFromCoords(y: real) returns (r: Option<nat>)
      ensures IsSelection(linesPos[..], y, r)
    {
      var i := 0;
      while i < linesPos.Length
        invariant 0 <= i <= linesPos.Length
        invariant forall j :: 0 <= j < i ==> !Near(linesPos[j], y)
      {
        var linePos := linesPos[i];
        var distance := Abs(y - (linePos.start + linePos.end) / 2.0);
        if distance < Threshold {
          return Some(i);
        }
        i := i + 1;
      }
      return None;
    }

    /** The click handler: select the band at the clicked height, or none. */
    method Click(clientY: real, top: real, height: real)
      requires Valid() && height != 0.0
      modifies this
      ensures Valid()
      ensures IsSelection(linesPos[..], ClickY(clientY, top, height), selectedLineIndex)
      ensures linesPos == old(linesPos) && lines == old(lines) && shaderBuilder == old(shaderBuilder)
      ensures circleRadius == old(circleRadius) && initialColors == old(initialColors)
    {
      var y := ClickY(clientY, top, height);
      selectedLineIndex := GetLineIndexFromCoords(y);
    }

    /** `handleLineMovement(key)`: only the selected band changes, in place, as
        `Moved` says; then the rectangles are derived again. */
    method HandleLineMovement(key: string)
      requires Valid() && selectedLineIndex.Some?
      modifies this, linesPos
      ensures Valid()
      ensures linesPos == old(linesPos)
      ensures linesPos[..] == old(linesPos[..])[old(selectedLineIndex.value) := Moved(old(linesPos[selectedLineIndex.value]), key)]
      ensures selectedLineIndex == old(selectedLineIndex) && shaderBuilder == old(shaderBuilder)
      ensures circleRadius == old(circleRadius) && initialColors == old(initialColors)
    {
      var i := selectedLineIndex.value;
      var linePos := linesPos[i];
      if key == "ArrowUp" {
        linesPos[i] := LinePos(linePos.start + Step, linePos.end + Step);
      } else if key == "ArrowDown" {
        linesPos[i] := LinePos(linePos.start - Step, linePos.end - Step);
      } else if key == "ArrowLeft" {
        linesPos[i] := LinePos(linePos.start - Step, linePos.end + Step);
      } else if key == "ArrowRight" {
        linesPos[i] := LinePos(linePos.start + Step, linePos.end - Step);
      }
      SetupLineValues();
    }

    /** `updateShader()`: the builder is replaced by a brand-new one that receives
        the scene's calls, so nothing of the previous build survives. */
    method UpdateShader()
      requires Valid()
      modifies this
      ensures Valid() && fresh(shaderBuilder) && Built()
      ensures linesPos == old(linesPos) && lines == old(lines) && selectedLineIndex == old(selectedLineIndex)
      ensures circleRadius == old(circleRadius) && initialColors == old(initialColors)
    {
      InitializeShaderBuilder();
    }

    /** The keydown handler: with no band selected nothing happens; otherwise the
        selected band moves and the shader is rebuilt. */
    method KeyDown(key: string)
      requires Valid() && Built()
      modifies this, linesPos
      ensures Valid() && Built()
      ensures linesPos == old(linesPos) && selectedLineIndex == old(selectedLineIndex)
      ensures circleRadius == old(circleRadius) && initialColors == old(initialColors)
      ensures old(selectedLineIndex).None? ==>
        linesPos[..] == old(linesPos[..]) && shaderBuilder == old(shaderBuilder) && lines == old(lines)
      ensures old(selectedLineIndex).Some? ==>
        && linesPos[..] == old(linesPos[..])[old(selectedLineIndex.value) := Moved(old(linesPos[selectedLineIndex.value]), key)]
        && fresh(shaderBuilder)
    {
      if selectedLineIndex == None {
        return;
      }
      HandleLineMovement(key);
      UpdateShader();
    }
  }
}
