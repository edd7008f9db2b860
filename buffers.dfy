/** The data the renderer uploads to the GPU: the full-screen quad and the padded
    table of line rows. Buffer creation and the writes themselves are not part of
    this model; only the numbers that would be written are. */
module Buffers {
  import opened Collections

  /** The fixed number of rows the line table holds at least. */
  const MaxLines: nat := 5

  /** `createVertexArray()`: six (x, y) vertices, two triangles that share the
      diagonal from (-1, -1) to (1, 1). */
  function VertexArray(): seq<real> {
    [-1.0, -1.0, 1.0, -1.0, 1.0, 1.0,
     -1.0, -1.0, 1.0, 1.0, -1.0, 1.0]
  }

  /** Vertex `i` of the vertex array, as a pair. */
  function Vertex(i: nat): (real, real)
    requires i < 6
  {
    (VertexArray()[2 * i], VertexArray()[2 * i + 1])
  }

  predicate IsCorner(p: (real, real)) {
    (p.0 == 1.0 || p.0 == -1.0) && (p.1 == 1.0 || p.1 == -1.0)
  }

  /** The array holds six vertices, each a corner of clip space, every corner is
      used, and the two triangles meet along the diagonal: so together they cover
      the whole square from (-1, -1) to (1, 1). */
  lemma VertexArrayCoversClipSpace()
    ensures |VertexArray()| == 12
    ensures forall i :: 0 <= i < 6 ==> IsCorner(Vertex(i))
    ensures forall p :: IsCorner(p) ==> exists i :: 0 <= i < 6 && Vertex(i) == p
    ensures Vertex(0) == Vertex(3) == (-1.0, -1.0) && Vertex(2) == Vertex(4) == (1.0, 1.0)
    ensures Vertex(1) == (1.0, -1.0) && Vertex(5) == (-1.0, 1.0)
  {
    forall p | IsCorner(p)
      ensures exists i :: 0 <= i < 6 && Vertex(i) == p
    {
      if p == (-1.0, -1.0) {
        assert Vertex(0) == p;
      } else if p == (1.0, -1.0) {
        assert Vertex(1) == p;
      } else if p == (1.0, 1.0) {
        assert Vertex(2) == p;
      } else {
        assert Vertex(5) == p;
      }
    }
  }

  /** The padding in `createLineBuffer(device, lines)`: every input row gets two
      trailing zeros, then zero rows are pushed until there are `MaxLines` rows. */
  method PadLines(lines: seq<seq<real>>) returns (paddedLines: seq<seq<real>>)
    ensures |paddedLines| == if |lines| < MaxLines then MaxLines else |lines|
    ensures forall i :: 0 <= i < |lines| ==> paddedLines[i] == lines[i] + [0.0, 0.0]
    ensures forall i :: |lines| <= i < |paddedLines| ==> paddedLines[i] == [0.0, 0.0, 0.0, 0.0]
  {
    paddedLines := seq(|lines|, i requires 0 <= i < |lines| => lines[i] + [0.0, 0.0]);
    while |paddedLines| < MaxLines
      invariant |lines| <= |paddedLines| <= if |lines| < MaxLines then MaxLines else |lines|
      invariant forall i :: 0 <= i < |lines| ==> paddedLines[i] == lines[i] + [0.0, 0.0]
      invariant forall i :: |lines| <= i < |paddedLines| ==> paddedLines[i] == [0.0, 0.0, 0.0, 0.0]
      decreases MaxLines - |paddedLines|
    {
      paddedLines := paddedLines + [[0.0, 0.0, 0.0, 0.0]];
    }
  }

  /** The numbers `createLineBuffer` writes: the padded rows, flattened. For rows
      of two numbers that is four numbers per row, row after row: the row's own two
      and two zeros, then four zeros for each padding row. */
  method LineBufferData(lines: seq<seq<real>>) returns (lineArray: seq<real>)
    ensures exists padded: seq<seq<real>> ::
      |padded| == (if |lines| < MaxLines then MaxLines else |lines|)
      && (forall i :: 0 <= i < |lines| ==> padded[i] == lines[i] + [0.0, 0.0])
      && (forall i :: |lines| <= i < |padded| ==> padded[i] == [0.0, 0.0, 0.0, 0.0])
      && lineArray == Flatten(padded)
    ensures (forall i :: 0 <= i < |lines| ==> |lines[i]| == 2) ==> WideLayout(lines, lineArray)
  {
    var paddedLines := PadLines(lines);
    lineArray := Flatten(paddedLines);
    if forall i :: 0 <= i < |lines| ==> |lines[i]| == 2 {
      LineBufferLayout(lines, paddedLines);
    }
  }

  /** `data` holds four numbers per row for `max(|lines|, MaxLines)` rows: entry
      `j < 2` of row `i < |lines|` is `lines[i][j]`, every other entry is zero. */
  predicate WideLayout(lines: seq<seq<real>>, data: seq<real>)
    requires forall i :: 0 <= i < |lines| ==> |lines[i]| == 2
  {
    && |data| == 4 * (if |lines| < MaxLines then MaxLines else |lines|)
    && forall k :: 0 <= k < |data| ==>
         data[k] == if k / 4 < |lines| && k % 4 < 2 then lines[k / 4][k % 4] else 0.0
  }

  lemma LineBufferLayout(lines: seq<seq<real>>, padded: seq<seq<real>>)
    requires forall i :: 0 <= i < |lines| ==> |lines[i]| == 2
    requires |padded| == (if |lines| < MaxLines then MaxLines else |lines|)
    requires forall i :: 0 <= i < |lines| ==> padded[i] == lines[i] + [0.0, 0.0]
    requires forall i :: |lines| <= i < |padded| ==> padded[i] == [0.0, 0.0, 0.0, 0.0]
    ensures WideLayout(lines, Flatten(padded))
  {
    assert forall i :: 0 <= i < |padded| ==> |padded[i]| == 4;
    FlattenUniformLength(padded, 4);
    var data := Flatten(padded);
    forall k | 0 <= k < |data|
      ensures data[k] == if k / 4 < |lines| && k % 4 < 2 then lines[k / 4][k % 4] else 0.0
    {
      var i, j := k / 4, k % 4;
      assert k == 4 * i + j;
      FlattenUniformAt(padded, 4, i, j);
      if i < |lines| {
        assert padded[i][j] == (lines[i] + [0.0, 0.0])[j];
      }
    }
  }
}
