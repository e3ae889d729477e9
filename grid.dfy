/** The numbers `PlaneGeometry` writes into its buffers, as functions of its
    parameters. Vertices are numbered row by row: vertex `idx` of a grid
    `segX` cells wide sits in column `idx % (segX + 1)` and row
    `idx / (segX + 1)`; quads are numbered the same way over `segX` columns. */
module Grid {

  import Text

  function VertexCount(segX: nat, segY: nat): nat { (segX + 1) * (segY + 1) }

  function QuadCount(segX: nat, segY: nat): nat { segX * segY }

  function Column(segX: nat, idx: nat): nat { idx % (segX + 1) }

  function Row(segX: nat, idx: nat): nat { idx / (segX + 1) }

  /** Row-major numbering and (row, column) determine each other. */
  lemma Coordinates(width: nat, row: nat, col: nat)
    requires col < width
    ensures (row * width + col) / width == row
    ensures (row * width + col) % width == col
  {
    var n := row * width + col;
    assert n == width * row + col;
    assert n / width == row && n % width == col by {
      DivModUnique(n, width, row, col);
    }
  }

  lemma DivModUnique(n: nat, d: nat, q: nat, r: nat)
    requires r < d && n == d * q + r
    ensures n / d == q && n % d == r
  {
    var q' := n / d;
    var r' := n % d;
    assert n == d * q' + r';
    if q' < q {
      MulLeq(d, q' + 1, q);
    } else if q < q' {
      MulLeq(d, q + 1, q');
    }
  }

  lemma MulLeq(d: nat, a: nat, b: nat)
    requires a <= b
    ensures d * a <= d * b
  {
  }

  // ---------------------------------------------------------------------
  // The index buffer

  /** A value stored into a `Uint16Array` element is kept modulo 2^16. */
  function ToUint16(v: int): (r: int)
    ensures 0 <= r < 65536
    ensures 0 <= v < 65536 ==> r == v
  {
    v % 65536
  }

  /** The vertex slot `j` (0 to 5) of quad `q` refers to. With v1 the quad's
      top-left vertex, v2 = v1 + 1 its right neighbour and v3, v4 the two
      vertices one row further, the slots are v1, v3, v2, v2, v3, v4. Quad
      `q` lies in row `q / segX`, and each earlier row has one more vertex
      than quads, so v1 is `q` plus that row number. */
  function Corner(segX: nat, q: nat, j: nat): nat
    requires segX >= 1 && j < 6
  {
    var v1 := q + q / segX;
    if j == 0 then v1
    else if j == 1 || j == 4 then v1 + segX + 1
    else if j == 2 || j == 3 then v1 + 1
    else v1 + segX + 2
  }

  /** Slot `k` of the index buffer as stored. */
  function IndexAt(segX: nat, k: nat): (v: int)
    requires segX >= 1
    ensures 0 <= v < 65536
  {
    ToUint16(Corner(segX, k / 6, k % 6))
  }

  /** The whole index buffer for a grid of `segX` by `segY` cells. */
  function IndexBuffer(segX: nat, segY: nat): (r: seq<int>)
    requires segX >= 1
    ensures |r| == 6 * QuadCount(segX, segY)
    ensures forall k :: 0 <= k < |r| ==> r[k] == IndexAt(segX, k)
  {
    seq(6 * QuadCount(segX, segY), k requires 0 <= k => IndexAt(segX, k))
  }

  /** Offset of the six index slots of cell (x, y): quads are numbered row by row. */
  function QuadBase(segX: nat, x: nat, y: nat): nat { 6 * (y * segX + x) }

  /** The number of vertex (x, y): vertices are numbered row by row, each row
      holding segX + 1 of them; it is also the top-left vertex v1 of cell (x, y). */
  function VertexIndex(segX: nat, x: nat, y: nat): nat { y * (segX + 1) + x }

  /** What the six slots of cell (x, y) should name: with v2 = v1 + 1, v3 =
      v1 + segX + 1 and v4 = v1 + segX + 2, the triangles (v1, v3, v2) and
      (v2, v3, v4). */
  function CellCorners(segX: nat, x: nat, y: nat): (vs: seq<nat>)
    ensures |vs| == 6
  {
    var v1 := VertexIndex(segX, x, y);
    [v1, v1 + segX + 1, v1 + 1, v1 + 1, v1 + segX + 1, v1 + segX + 2]
  }

  /** While the grid has at most 2^16 vertices, the six slots of cell (x, y)
      hold its two triangles exactly. */
  lemma CellWinding(segX: nat, segY: nat, x: nat, y: nat)
    requires segX >= 1 && x < segX && y < segY
    requires VertexCount(segX, segY) <= 65536
    ensures QuadBase(segX, x, y) + 6 <= |IndexBuffer(segX, segY)|
    ensures IndexBuffer(segX, segY)[QuadBase(segX, x, y)..QuadBase(segX, x, y) + 6] == CellCorners(segX, x, y)
  {
    QuadBelowCount(segX, segY, x, y);
    var base := QuadBase(segX, x, y);
    var cell := IndexBuffer(segX, segY)[base..base + 6];
    forall j | 0 <= j < 6
      ensures cell[j] == CellCorners(segX, x, y)[j]
    {
      CellCorner(segX, segY, x, y, j);
    }
  }

  lemma QuadBelowCount(segX: nat, segY: nat, x: nat, y: nat)
    requires x < segX && y < segY
    ensures y * segX + x < QuadCount(segX, segY)
  {
    MulLeq(segX, y + 1, segY);
  }

  lemma VertexBelowCount(segX: nat, segY: nat, x: nat, y: nat)
    requires x <= segX && y <= segY
    ensures y * (segX + 1) + x < VertexCount(segX, segY)
  {
    MulLeq(segX + 1, y + 1, segY + 1);
  }

  /** While the grid has at most 2^16 vertices, every stored index names a vertex. */
  lemma IndicesInRange(segX: nat, segY: nat)
    requires segX >= 1 && VertexCount(segX, segY) <= 65536
    ensures forall k :: 0 <= k < |IndexBuffer(segX, segY)| ==> 0 <= IndexBuffer(segX, segY)[k] < VertexCount(segX, segY)
  {
    forall k | 0 <= k < |IndexBuffer(segX, segY)|
      ensures 0 <= IndexBuffer(segX, segY)[k] < VertexCount(segX, segY)
    {
      assert k / 6 < QuadCount(segX, segY);
      CornerBelow(segX, segY, k / 6, k % 6);
    }
  }

  /** Every corner of every quad is a vertex of the grid. */
  lemma CornerBelow(segX: nat, segY: nat, q: nat, j: nat)
    requires segX >= 1 && q < QuadCount(segX, segY) && j < 6
    ensures Corner(segX, q, j) < VertexCount(segX, segY)
  {
    var x, y := q % segX, q / segX;
    assert y < segY by {
      if y >= segY {
        MulLeq(segX, segY, y);
      }
    }
    VertexBelowCount(segX, segY, x + 1, y + 1);
    RowStep(segX + 1, y, x + 1);
  }

  /** Every vertex of the grid is a corner of some triangle. */
  lemma EveryVertexIndexed(segX: nat, segY: nat, v: nat)
    requires segX >= 1 && segY >= 1 && v < VertexCount(segX, segY)
    requires VertexCount(segX, segY) <= 65536
    ensures exists k :: 0 <= k < |IndexBuffer(segX, segY)| && IndexBuffer(segX, segY)[k] == v
  {
    var col, row := Column(segX, v), Row(segX, v);
    assert v == row * (segX + 1) + col;
    assert row <= segY by {
      if row > segY {
        MulLeq(segX + 1, segY + 1, row);
      }
    }
    VertexIndexed(segX, segY, col, row);
  }

  /** The cell the vertex in column `col` and row `row` is a corner of, and which of its six slots names it. */
  lemma VertexIndexed(segX: nat, segY: nat, col: nat, row: nat)
    requires segX >= 1 && segY >= 1 && col <= segX && row <= segY
    requires VertexCount(segX, segY) <= 65536
    ensures exists k :: 0 <= k < |IndexBuffer(segX, segY)| && IndexBuffer(segX, segY)[k] == row * (segX + 1) + col
  {
    if col < segX && row < segY {
      CellSlotIndexed(segX, segY, col, row, 0);
    } else if row < segY {
      CellSlotIndexed(segX, segY, col - 1, row, 2);
    } else if col < segX {
      CellSlotIndexed(segX, segY, col, row - 1, 1);
      RowStep(segX + 1, row - 1, col);
    } else {
      CellSlotIndexed(segX, segY, col - 1, row - 1, 5);
      RowStep(segX + 1, row - 1, col - 1);
    }
  }

  lemma CellSlotIndexed(segX: nat, segY: nat, x: nat, y: nat, slot: nat)
    requires segX >= 1 && x < segX && y < segY && slot < 6
    requires VertexCount(segX, segY) <= 65536
    ensures exists k :: 0 <= k < |IndexBuffer(segX, segY)| && IndexBuffer(segX, segY)[k] == CellCorners(segX, x, y)[slot]
  {
    CellCorner(segX, segY, x, y, slot);
    var k := QuadBase(segX, x, y) + slot;
    assert 0 <= k < |IndexBuffer(segX, segY)|;
  }

  /** The loops end after segY + 1 rows of segX + 1 vertices and segY rows of segX quads. */
  lemma GridCounts(segX: nat, segY: nat)
    ensures (segY + 1) * (segX + 1) == VertexCount(segX, segY)
    ensures segY * segX == QuadCount(segX, segY)
  {
  }

  /** The vertex after the last row is one past the last vertex. */
  lemma PastLastRow(segX: nat, segY: nat)
    ensures VertexIndex(segX, 0, segY + 1) == VertexCount(segX, segY)
  {
  }

  lemma RowStep(w: nat, r: nat, c: nat)
    ensures (r + 1) * w + c == r * w + c + w
  {
  }

  /** One slot of `CellWinding`. */
  lemma CellCorner(segX: nat, segY: nat, x: nat, y: nat, slot: nat)
    requires segX >= 1 && x < segX && y < segY && slot < 6
    requires VertexCount(segX, segY) <= 65536
    ensures QuadBase(segX, x, y) + slot < |IndexBuffer(segX, segY)|
    ensures IndexBuffer(segX, segY)[QuadBase(segX, x, y) + slot] == CellCorners(segX, x, y)[slot]
  {
    CellEntry(segX, segY, x, y, slot);
    VertexBelowCount(segX, segY, x + 1, y + 1);
    RowStep(segX + 1, y, x + 1);
    CornerFits(segX, x, y, VertexCount(segX, segY), slot);
  }

  /** The corners of a cell whose last corner is a vertex all fit in 16 bits. */
  lemma CornerFits(segX: nat, x: nat, y: nat, vertices: int, slot: nat)
    requires VertexIndex(segX, x, y) + segX + 2 < vertices <= 65536 && slot < 6
    ensures CellCorners(segX, x, y)[slot] < 65536
  {
  }

  /** Slot `j` of cell (x, y) in the index buffer, whatever the vertex count. */
  lemma CellEntry(segX: nat, segY: nat, x: nat, y: nat, j: nat)
    requires segX >= 1 && x < segX && y < segY && j < 6
    ensures QuadBase(segX, x, y) + j < |IndexBuffer(segX, segY)|
    ensures IndexBuffer(segX, segY)[QuadBase(segX, x, y) + j] == ToUint16(CellCorners(segX, x, y)[j])
  {
    CellSlot(segX, segY, x, y, j);
  }

  /** Beyond 2^16 vertices the stored indices wrap: in a 1 by 32768 grid the
      last corner of the last quad is vertex 65537, stored as 1. */
  lemma IndexWrapsBeyondUint16()
    ensures VertexCount(1, 32768) == 65538
    ensures CellCorners(1, 0, 32767)[5] == 65537
    ensures IndexBuffer(1, 32768)[QuadBase(1, 0, 32767) + 5] == 1
  {
    assert (6 * 32767 + 5) / 6 == 32767 && (6 * 32767 + 5) % 6 == 5;
    assert Corner(1, 32767, 5) == 65537;
  }

  /** Slot `j` of the quad of cell (x, y), as the topology loop writes it. */
  lemma CellSlot(segX: nat, segY: nat, x: nat, y: nat, j: nat)
    requires segX >= 1 && x < segX && y < segY && j < 6
    ensures QuadBase(segX, x, y) + j < 6 * QuadCount(segX, segY)
    ensures IndexAt(segX, QuadBase(segX, x, y) + j) == ToUint16(CellCorners(segX, x, y)[j])
  {
    var q := y * segX + x;
    QuadBelowCount(segX, segY, x, y);
    assert (6 * q + j) / 6 == q && (6 * q + j) % 6 == j by {
      Coordinates(6, q, j);
    }
    assert q / segX == y by {
      Coordinates(segX, y, x);
    }
    assert q + y == VertexIndex(segX, x, y);
  }

  /** The six slots of the quad of cell (x, y) at offset `base`, as the topology loop writes them. */
  lemma QuadSlots(segX: nat, segY: nat, x: nat, y: nat, base: nat, vs: seq<nat>)
    requires segX >= 1 && x < segX && y < segY && base == (y * segX + x) * 6
    requires var v1 := y * (segX + 1) + x;
             vs == [v1, v1 + segX + 1, v1 + 1, v1 + 1, v1 + segX + 1, v1 + segX + 2]
    ensures base + 6 <= 6 * QuadCount(segX, segY)
    ensures forall j :: 0 <= j < 6 ==> IndexAt(segX, base + j) == ToUint16(vs[j])
  {
    assert base == QuadBase(segX, x, y) && vs == CellCorners(segX, x, y);
    forall j | 0 <= j < 6
      ensures IndexAt(segX, base + j) == ToUint16(vs[j])
    {
      CellSlot(segX, segY, x, y, j);
    }
    QuadBelowCount(segX, segY, x, y);
  }

  /** Vertex (x, y) is vertex number y * (segX + 1) + x of the grid. */
  lemma VertexAt(segX: nat, segY: nat, x: nat, y: nat)
    requires x <= segX && y <= segY
    ensures var idx := y * (segX + 1) + x;
            idx < VertexCount(segX, segY) && Column(segX, idx) == x && Row(segX, idx) == y
  {
    Coordinates(segX + 1, y, x);
    VertexBelowCount(segX, segY, x, y);
  }

  // ---------------------------------------------------------------------
  // Texture coordinates

  /** u of vertex `idx`: its column over the column count. */
  function U(segX: nat, idx: nat): real
    requires segX >= 1
  {
    (Column(segX, idx) as real) / (segX as real)
  }

  /** v of vertex `idx`: one minus its row over the row count. */
  function V(segX: nat, segY: nat, idx: nat): real
    requires segX >= 1 && segY >= 1
  {
    1.0 - (Row(segX, idx) as real) / (segY as real)
  }

  /** Slot `k` of the uv buffer: u and v of vertex k / 2, in that order. */
  function UvAt(segX: nat, segY: nat, k: nat): real
    requires segX >= 1 && segY >= 1
  {
    if k % 2 == 0 then U(segX, k / 2) else V(segX, segY, k / 2)
  }

  /** Slot `k` of the uvNorm buffer: the uv value stretched from [0, 1] to [-1, 1]. */
  function UvNormAt(segX: nat, segY: nat, k: nat): real
    requires segX >= 1 && segY >= 1
  {
    if k % 2 == 0 then U(segX, k / 2) * 2.0 - 1.0 else V(segX, segY, k / 2) * 2.0 - 1.0
  }

  /** The whole uv buffer: two slots per vertex. */
  function UvBuffer(segX: nat, segY: nat): (r: seq<real>)
    requires segX >= 1 && segY >= 1
    ensures |r| == 2 * VertexCount(segX, segY)
    ensures forall k :: 0 <= k < |r| ==> r[k] == UvAt(segX, segY, k)
  {
    seq(2 * VertexCount(segX, segY), k requires 0 <= k => UvAt(segX, segY, k))
  }

  /** The whole uvNorm buffer: two slots per vertex. */
  function UvNormBuffer(segX: nat, segY: nat): (r: seq<real>)
    requires segX >= 1 && segY >= 1
    ensures |r| == 2 * VertexCount(segX, segY)
    ensures forall k :: 0 <= k < |r| ==> r[k] == UvNormAt(segX, segY, k)
  {
    seq(2 * VertexCount(segX, segY), k requires 0 <= k => UvNormAt(segX, segY, k))
  }

  /** The two uv and uvNorm slots of vertex (x, y), as the topology loop writes them. */
  lemma UvSlots(segX: nat, segY: nat, x: nat, y: nat)
    requires segX >= 1 && segY >= 1 && x <= segX && y <= segY
    ensures var idx := y * (segX + 1) + x;
            && UvAt(segX, segY, 2 * idx) == (x as real) / (segX as real)
            && UvAt(segX, segY, 2 * idx + 1) == 1.0 - (y as real) / (segY as real)
            && UvNormAt(segX, segY, 2 * idx) == ((x as real) / (segX as real)) * 2.0 - 1.0
            && UvNormAt(segX, segY, 2 * idx + 1) == (1.0 - (y as real) / (segY as real)) * 2.0 - 1.0
  {
    var idx := y * (segX + 1) + x;
    VertexAt(segX, segY, x, y);
    assert (2 * idx) / 2 == idx && (2 * idx) % 2 == 0;
    assert (2 * idx + 1) / 2 == idx && (2 * idx + 1) % 2 == 1;
  }

  lemma FractionInUnit(n: nat, d: nat)
    requires 1 <= d && n <= d
    ensures 0.0 <= (n as real) / (d as real) <= 1.0
  {
  }

  /** Every uv value of a vertex of the grid lies in [0, 1] and every uvNorm value in [-1, 1]. */
  lemma UvInRange(segX: nat, segY: nat, k: nat)
    requires segX >= 1 && segY >= 1 && k < 2 * VertexCount(segX, segY)
    ensures 0.0 <= UvAt(segX, segY, k) <= 1.0
    ensures -1.0 <= UvNormAt(segX, segY, k) <= 1.0
    ensures UvNormAt(segX, segY, k) == UvAt(segX, segY, k) * 2.0 - 1.0
  {
    var idx := k / 2;
    var row := Row(segX, idx);
    assert idx < VertexCount(segX, segY);
    assert row <= segY by {
      if row > segY {
        MulLeq(segX + 1, segY + 1, row);
      }
    }
    FractionInUnit(Column(segX, idx), segX);
    FractionInUnit(row, segY);
  }

  /** The first vertex maps to uv (0, 1) and the last to (1, 0). */
  lemma UvCorners(segX: nat, segY: nat)
    requires segX >= 1 && segY >= 1
    ensures UvAt(segX, segY, 0) == 0.0 && UvAt(segX, segY, 1) == 1.0
    ensures var last := VertexCount(segX, segY) - 1;
            UvAt(segX, segY, 2 * last) == 1.0 && UvAt(segX, segY, 2 * last + 1) == 0.0
  {
    var last := VertexCount(segX, segY) - 1;
    assert last == segY * (segX + 1) + segX by { RowStep(segX + 1, segY, segX); }
    Coordinates(segX + 1, segY, segX);
    assert Column(segX, last) == segX && Row(segX, last) == segY;
    assert (2 * last) / 2 == last && (2 * last) % 2 == 0;
    assert (2 * last + 1) / 2 == last && (2 * last + 1) % 2 == 1;
    var c, r := Column(segX, last), Row(segX, last);
    assert (c as real) / (segX as real) == 1.0 by { SelfQuotient(segX); }
    assert (r as real) / (segY as real) == 1.0 by { SelfQuotient(segY); }
    assert U(segX, 0) == 0.0 && V(segX, segY, 0) == 1.0;
  }

  lemma SelfQuotient(n: nat)
    requires n >= 1
    ensures (n as real) / (n as real) == 1.0
  {
  }

  // ---------------------------------------------------------------------
  // Positions

  /** `"xyz".indexOf(orientation[i])`: 0, 1 or 2 for an axis letter and -1
      otherwise. A missing letter reads as `undefined`, whose spelling does
      not occur in "xyz" either. */
  function Axis(orientation: string, i: nat): (a: int)
    ensures -1 <= a <= 2
    ensures a == 0 <==> i < |orientation| && orientation[i] == 'x'
    ensures a == 1 <==> i < |orientation| && orientation[i] == 'y'
    ensures a == 2 <==> i < |orientation| && orientation[i] == 'z'
  {
    if i >= |orientation| then -1
    else
      match Text.IndexOf("xyz", [orientation[i]])
      case None => -1
      case Some(k) => AxisLetter(orientation[i], k); k
  }

  lemma AxisLetter(c: char, k: nat)
    requires Text.OccursAt("xyz", [c], k)
    ensures k <= 2 && c == "xyz"[k]
  {
    assert "xyz"[k..k + 1][0] == "xyz"[k];
  }

  /** Everything the position loop depends on. `first` and `second` are the
      axes named by the orientation's two letters. */
  datatype Plane = Plane(segX: nat, segY: nat, width: real, height: real, first: int, second: int)

  /** x of every vertex in column `col`: `-width / 2 + col * (width / segX)`. */
  function XPos(p: Plane, col: nat): real
    requires p.segX >= 1
  {
    -(p.width / 2.0) + (col as real) * (p.width / (p.segX as real))
  }

  /** y of every vertex in row `row`: `-height / 2 + row * (height / segY)`. */
  function YPos(p: Plane, row: nat): real
    requires p.segY >= 1
  {
    -(p.height / 2.0) + (row as real) * (p.height / (p.segY as real))
  }

  /** A store into a typed array: an index outside the array is ignored. */
  function Store(s: seq<real>, j: int, x: real): (r: seq<real>)
    ensures |r| == |s|
    ensures forall i :: 0 <= i < |s| ==> r[i] == (if i == j then x else s[i])
  {
    if 0 <= j < |s| then s[j := x] else s
  }

  /** The buffer after the loop body for vertex `idx`: its three slots are
      zeroed, then x goes to slot `3 * idx + first` and -y to `3 * idx + second`. */
  function WriteVertex(s: seq<real>, p: Plane, idx: nat): (r: seq<real>)
    requires p.segX >= 1 && p.segY >= 1
    ensures |r| == |s|
  {
    var zeroed := Store(Store(Store(s, 3 * idx, 0.0), 3 * idx + 1, 0.0), 3 * idx + 2, 0.0);
    var withX := Store(zeroed, 3 * idx + p.first, XPos(p, Column(p.segX, idx)));
    Store(withX, 3 * idx + p.second, -YPos(p, Row(p.segX, idx)))
  }

  /** The buffer after the loop has handled vertices 0 to n - 1, starting from `init`. */
  function PositionsAfter(init: seq<real>, p: Plane, n: nat): (r: seq<real>)
    requires p.segX >= 1 && p.segY >= 1
    ensures |r| == |init|
  {
    if n == 0 then init else WriteVertex(PositionsAfter(init, p, n - 1), p, n - 1)
  }

  /** A typed array freshly allocated by `new Float32Array(n)`. */
  function Zeros(n: nat): (r: seq<real>)
    ensures |r| == n && forall i :: 0 <= i < n ==> r[i] == 0.0
  {
    seq(n, _ => 0.0)
  }

  /** The position buffer of layout `p`: every vertex written into a fresh array. */
  function Positions(p: Plane): (r: seq<real>)
    requires p.segX >= 1 && p.segY >= 1
    ensures |r| == 3 * VertexCount(p.segX, p.segY)
  {
    PositionsAfter(Zeros(3 * VertexCount(p.segX, p.segY)), p, VertexCount(p.segX, p.segY))
  }

  /** What coordinate `c` of vertex `idx` holds for axes that are both letters of "xyz". */
  function Coordinate(p: Plane, idx: nat, c: nat): real
    requires p.segX >= 1 && p.segY >= 1
  {
    if c == p.second then -YPos(p, Row(p.segX, idx))
    else if c == p.first then XPos(p, Column(p.segX, idx))
    else 0.0
  }

  predicate Placed(s: seq<real>, p: Plane, idx: nat)
    requires p.segX >= 1 && p.segY >= 1
  {
    3 * idx + 2 < |s|
    && s[3 * idx] == Coordinate(p, idx, 0)
    && s[3 * idx + 1] == Coordinate(p, idx, 1)
    && s[3 * idx + 2] == Coordinate(p, idx, 2)
  }

  /** With two axis letters, each handled vertex holds x on the first axis,
      -y on the second (the second wins when both name the same axis) and 0 on
      the third, and the slots of later vertices are untouched. */
  lemma {:induction false} PositionsPlaced(init: seq<real>, p: Plane, n: nat)
    requires p.segX >= 1 && p.segY >= 1
    requires 0 <= p.first <= 2 && 0 <= p.second <= 2
    requires 3 * n <= |init|
    ensures forall i :: 0 <= i < n ==> Placed(PositionsAfter(init, p, n), p, i)
    ensures forall j :: 3 * n <= j < |init| ==> PositionsAfter(init, p, n)[j] == init[j]
  {
    if n > 0 {
      PositionsPlaced(init, p, n - 1);
      var before := PositionsAfter(init, p, n - 1);
      var after := PositionsAfter(init, p, n);
      assert after == WriteVertex(before, p, n - 1);
      forall i | 0 <= i < n
        ensures Placed(after, p, i)
      {
        if i < n - 1 {
          assert Placed(before, p, i);
        }
      }
    }
  }

  /** The closed form of the whole buffer for a valid orientation. */
  lemma PositionsOfValidOrientation(init: seq<real>, p: Plane, idx: nat, c: nat)
    requires p.segX >= 1 && p.segY >= 1
    requires 0 <= p.first <= 2 && 0 <= p.second <= 2
    requires |init| == 3 * VertexCount(p.segX, p.segY)
    requires idx < VertexCount(p.segX, p.segY) && c < 3
    ensures PositionsAfter(init, p, VertexCount(p.segX, p.segY))[3 * idx + c] == Coordinate(p, idx, c)
  {
    var n := VertexCount(p.segX, p.segY);
    PositionsPlaced(init, p, n);
    assert Placed(PositionsAfter(init, p, n), p, idx);
    PlacedSlot(PositionsAfter(init, p, n), p, idx, c);
  }

  /** Slot `c` of a placed vertex holds its coordinate `c`. */
  lemma PlacedSlot(s: seq<real>, p: Plane, idx: nat, c: nat)
    requires p.segX >= 1 && p.segY >= 1
    requires Placed(s, p, idx) && c < 3
    ensures 3 * idx + c < |s| && s[3 * idx + c] == Coordinate(p, idx, c)
  {
    if c == 0 {
      assert 3 * idx + c == 3 * idx;
    } else if c == 1 {
      assert 3 * idx + c == 3 * idx + 1;
    } else {
      assert 3 * idx + c == 3 * idx + 2;
    }
  }

  /** With an orientation letter outside "xyz" the store lands one slot
      early: vertex 1's y goes into vertex 0's third slot. */
  lemma BadSecondAxisOverwritesPreviousVertex(init: seq<real>, p: Plane)
    requires p.segX >= 1 && p.segY >= 1 && p.first == 0 && p.second == -1
    requires |init| == 3 * VertexCount(p.segX, p.segY)
    ensures PositionsAfter(init, p, 2)[2] == -YPos(p, Row(p.segX, 1))
  {
    assert VertexCount(p.segX, p.segY) >= 4 by { MulLeq(p.segX + 1, 2, p.segY + 1); }
  }

  /** Slot agreement below `m` survives storing the same value. */
  lemma StoreAgrees(s: seq<real>, t: seq<real>, m: nat, j: int, x: real)
    requires |s| == |t| && m <= |s| && j < m
    requires forall i :: 0 <= i < m && i != j ==> s[i] == t[i]
    ensures forall i :: 0 <= i < m ==> Store(s, j, x)[i] == Store(t, j, x)[i]
  {
  }

  /** The loop overwrites every slot it owns: after vertices 0 to n - 1 the
      first 3n slots do not depend on what the buffer held before. */
  lemma {:induction false} PositionsForget(s: seq<real>, t: seq<real>, p: Plane, n: nat)
    requires p.segX >= 1 && p.segY >= 1
    requires p.first <= 2 && p.second <= 2
    requires |s| == |t| && 3 * n <= |s|
    ensures forall i :: 0 <= i < 3 * n ==> PositionsAfter(s, p, n)[i] == PositionsAfter(t, p, n)[i]
  {
    if n > 0 {
      PositionsForget(s, t, p, n - 1);
      var a := PositionsAfter(s, p, n - 1);
      var b := PositionsAfter(t, p, n - 1);
      var idx := n - 1;
      var m := 3 * n;
      StoreAgrees(a, b, 3 * idx + 1, 3 * idx, 0.0);
      var a0, b0 := Store(a, 3 * idx, 0.0), Store(b, 3 * idx, 0.0);
      StoreAgrees(a0, b0, 3 * idx + 2, 3 * idx + 1, 0.0);
      var a01, b01 := Store(a0, 3 * idx + 1, 0.0), Store(b0, 3 * idx + 1, 0.0);
      StoreAgrees(a01, b01, m, 3 * idx + 2, 0.0);
      var a1, b1 := Store(a01, 3 * idx + 2, 0.0), Store(b01, 3 * idx + 2, 0.0);
      var xp := XPos(p, Column(p.segX, idx));
      StoreAgrees(a1, b1, m, 3 * idx + p.first, xp);
      StoreAgrees(Store(a1, 3 * idx + p.first, xp), Store(b1, 3 * idx + p.first, xp), m, 3 * idx + p.second, -YPos(p, Row(p.segX, idx)));
    }
  }

  /** Reusing a buffer of the right length ends in the same contents as a
      freshly allocated one. */
  lemma ReuseMatchesFresh(s: seq<real>, t: seq<real>, p: Plane)
    requires p.segX >= 1 && p.segY >= 1
    requires p.first <= 2 && p.second <= 2
    requires |s| == |t| == 3 * VertexCount(p.segX, p.segY)
    ensures PositionsAfter(s, p, VertexCount(p.segX, p.segY)) == PositionsAfter(t, p, VertexCount(p.segX, p.segY))
  {
    PositionsForget(s, t, p, VertexCount(p.segX, p.segY));
  }
}
