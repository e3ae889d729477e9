/** `MiniGl.PlaneGeometry`: a flat grid of `xSegCount` by `ySegCount` cells
    whose uv, uvNorm, index and position buffers are filled in place and
    handed to the four attributes. */
module Geometry {

  import opened Text
  import opened Gl
  import opened Grid
  import opened Buffers

  class PlaneGeometry {
    const gl: Context
    /** `attributes.position`, `.uv`, `.uvNorm` and `.index`, in that order. */
    const position: Attribute
    const uv: Attribute
    const uvNorm: Attribute
    const index: Attribute

    var xSegCount: nat
    var ySegCount: nat
    var vertexCount: nat
    var quadCount: nat
    var width: real
    var height: real
    var orientation: string

    /** The typed arrays the attributes upload (`attributes.X.values`). */
    var uvValues: array<real>
    var uvNormValues: array<real>
    var indexValues: array<int>
    /** Undefined until the first `setSize`. */
    var positionValues: array?<real>

    /** The attributes share the geometry's context and have the layouts the constructor gives them. */
    predicate Wired()
    {
      && position.gl == gl && uv.gl == gl && uvNorm.gl == gl && index.gl == gl
      && position.target == ArrayBuffer && position.size == 3
      && uv.target == ArrayBuffer && uv.size == 2
      && uvNorm.target == ArrayBuffer && uvNorm.size == 2
      && index.target == ElementArrayBuffer && index.componentType == UnsignedShort
    }

    /** What `setTopology` establishes: counts and buffer lengths agree with the segment counts. */
    predicate TopologyValid()
      reads this
    {
      && Wired()
      && xSegCount >= 1 && ySegCount >= 1
      && vertexCount == VertexCount(xSegCount, ySegCount)
      && quadCount == QuadCount(xSegCount, ySegCount)
      && uvValues.Length == 2 * vertexCount
      && uvNormValues.Length == 2 * vertexCount
      && indexValues.Length == 6 * quadCount
      && uvValues != uvNormValues
      && positionValues != uvValues && positionValues != uvNormValues
    }

    /** What the constructor and `setSize` leave behind: a position array as well. */
    predicate Valid()
      reads this
    {
      TopologyValid() && positionValues != null
    }

    /** The position loop's parameters. */
    function Layout(): Plane
      reads this
    {
      Plane(xSegCount, ySegCount, width, height, Axis(orientation, 0), Axis(orientation, 1))
    }

    /** `new PlaneGeometry(width, height, segX, segY, orientation)`: creates the
        four attributes, then sets the topology and the size. */
    constructor (gl: Context, width: real, height: real, segX: nat, segY: nat, orientation: string)
      requires segX >= 1 && segY >= 1
      modifies gl`log, gl`nextHandle
      ensures Valid() && this.gl == gl
      ensures xSegCount == segX && ySegCount == segY
      ensures this.width == width && this.height == height && this.orientation == orientation
      ensures uvValues[..] == UvBuffer(segX, segY) && uvNormValues[..] == UvNormBuffer(segX, segY)
      ensures indexValues[..] == IndexBuffer(segX, segY)
      ensures positionValues[..] == Positions(Layout())
      ensures var h := old(gl.nextHandle);
              && position.buffer == h && uv.buffer == h + 1 && uvNorm.buffer == h + 2 && index.buffer == h + 3
              && gl.nextHandle == h + 4
              && gl.log == old(gl.log) + [CreateBuffer(h), CreateBuffer(h + 1), CreateBuffer(h + 2), CreateBuffer(h + 3)]
                           + uv.UpdateCalls(Some(Floats(UvBuffer(segX, segY))))
                           + uvNorm.UpdateCalls(Some(Floats(UvNormBuffer(segX, segY))))
                           + index.UpdateCalls(Some(Shorts(IndexBuffer(segX, segY))))
                           + position.UpdateCalls(Some(Floats(Positions(Layout()))))
    {
      this.gl := gl;
      var p, u, n, i := NewAttributes(gl);
      position, uv, uvNorm, index := p, u, n, i;
      var none := new real[0];
      uvValues, uvNormValues, indexValues, positionValues := none, none, new int[0], null;
      new;
      ghost var writes := SetTopology(segX, segY);
      assert positionValues == null;
      SetSize(width, height, orientation);
    }

    /** `setTopology(segX, segY)`: new uv, uvNorm and index arrays filled row
        by row, then uploaded. `writes` lists the index slots in the order the
        loop stores them: each slot of the index buffer exactly once. */
    method SetTopology(segX: nat := 1, segY: nat := 1) returns (ghost writes: seq<nat>)
      requires Wired() && segX >= 1 && segY >= 1
      modifies this`xSegCount, this`ySegCount, this`vertexCount, this`quadCount
      modifies this`uvValues, this`uvNormValues, this`indexValues, gl`log
      ensures TopologyValid()
      ensures xSegCount == segX && ySegCount == segY
      ensures fresh(uvValues) && fresh(uvNormValues) && fresh(indexValues)
      ensures uvValues[..] == UvBuffer(segX, segY) && uvNormValues[..] == UvNormBuffer(segX, segY)
      ensures indexValues[..] == IndexBuffer(segX, segY)
      ensures |writes| == indexValues.Length && forall i :: 0 <= i < |writes| ==> writes[i] == i
      ensures gl.log == old(gl.log) + uv.UpdateCalls(Some(Floats(UvBuffer(segX, segY))))
                        + uvNorm.UpdateCalls(Some(Floats(UvNormBuffer(segX, segY))))
                        + index.UpdateCalls(Some(Shorts(IndexBuffer(segX, segY))))
    {
      var uvs, norms, indices;
      uvs, norms, indices, writes := BuildTopology(segX, segY);
      AdoptTopology(segX, segY, uvs, norms, indices);
      uv.Update(Some(Floats(uvs[..])));
      uvNorm.Update(Some(Floats(norms[..])));
      index.Update(Some(Shorts(indices[..])));
    }

    /** The field writes of `setTopology`: the segment counts, the derived
        counts and the three new arrays. */
    method AdoptTopology(segX: nat, segY: nat, uvs: array<real>, norms: array<real>, indices: array<int>)
      modifies this`xSegCount, this`ySegCount, this`vertexCount, this`quadCount
      modifies this`uvValues, this`uvNormValues, this`indexValues
      ensures xSegCount == segX && ySegCount == segY && vertexCount == VertexCount(segX, segY) && quadCount == QuadCount(segX, segY)
      ensures uvValues == uvs && uvNormValues == norms && indexValues == indices
    {
      xSegCount, ySegCount, vertexCount, quadCount := segX, segY, VertexCount(segX, segY), QuadCount(segX, segY);
      uvValues, uvNormValues, indexValues := uvs, norms, indices;
    }

    /** The field writes of `setSize`: the dimensions, the orientation and
        the position array. */
    method AdoptSize(width: real, height: real, orientation: string, pos: array<real>)
      modifies this`width, this`height, this`orientation, this`positionValues
      ensures this.width == width && this.height == height && this.orientation == orientation && positionValues == pos
    {
      this.width, this.height, this.orientation, positionValues := width, height, orientation, pos;
    }

    /** `setSize(width, height, orientation)`: reallocates the position array
        only when its length is not three slots per vertex, then writes every
        vertex and uploads the array. */
    method SetSize(width: real := 1.0, height: real := 1.0, orientation: string := "xz")
      requires TopologyValid()
      modifies this`width, this`height, this`orientation, this`positionValues, positionValues, gl`log
      ensures Valid()
      ensures this.width == width && this.height == height && this.orientation == orientation
      ensures positionValues.Length == 3 * vertexCount
      ensures old(positionValues) != null && old(positionValues.Length) == 3 * vertexCount ==> positionValues == old(positionValues)
      ensures old(positionValues) == null || old(positionValues.Length) != 3 * vertexCount ==> fresh(positionValues)
      ensures positionValues[..] == Positions(Layout())
      ensures gl.log == old(gl.log) + position.UpdateCalls(Some(Floats(positionValues[..])))
    {
      var pos := positionValues;
      if pos == null || pos.Length != 3 * vertexCount {
        pos := new real[3 * vertexCount](_ => 0.0);
      }
      AdoptSize(width, height, orientation, pos);
      FillPositions(pos, xSegCount, ySegCount, width, height, orientation);
      position.Update(Some(Floats(pos[..])));
    }
  }

  /** The four attributes of a plane, in the order the constructor creates them. */
  method NewAttributes(gl: Context) returns (position: Attribute, uv: Attribute, uvNorm: Attribute, index: Attribute)
    modifies gl`log, gl`nextHandle
    ensures position.gl == gl && position.target == ArrayBuffer && position.size == 3 && position.componentType == Float
    ensures uv.gl == gl && uv.target == ArrayBuffer && uv.size == 2 && uv.componentType == Float
    ensures uvNorm.gl == gl && uvNorm.target == ArrayBuffer && uvNorm.size == 2 && uvNorm.componentType == Float
    ensures index.gl == gl && index.target == ElementArrayBuffer && index.size == 3 && index.componentType == UnsignedShort
    ensures var h := old(gl.nextHandle);
            && position.buffer == h && uv.buffer == h + 1 && uvNorm.buffer == h + 2 && index.buffer == h + 3
            && gl.nextHandle == h + 4
            && gl.log == old(gl.log) + [CreateBuffer(h), CreateBuffer(h + 1), CreateBuffer(h + 2), CreateBuffer(h + 3)]
  {
    position := new Attribute(gl, ArrayBuffer, 3);
    uv := new Attribute(gl, ArrayBuffer, 2);
    uvNorm := new Attribute(gl, ArrayBuffer, 2);
    index := new Attribute(gl, ElementArrayBuffer, 3, UnsignedShort);
  }

  /** The three fresh buffers of `setTopology`, filled by its loops. */
  method BuildTopology(segX: nat, segY: nat)
    returns (uvs: array<real>, norms: array<real>, indices: array<int>, ghost writes: seq<nat>)
    requires segX >= 1 && segY >= 1
    ensures fresh(uvs) && fresh(norms) && fresh(indices) && uvs != norms
    ensures uvs[..] == UvBuffer(segX, segY) && norms[..] == UvNormBuffer(segX, segY)
    ensures indices[..] == IndexBuffer(segX, segY)
    ensures |writes| == indices.Length && forall i :: 0 <= i < |writes| ==> writes[i] == i
  {
    uvs := new real[2 * VertexCount(segX, segY)](_ => 0.0);
    norms := new real[2 * VertexCount(segX, segY)](_ => 0.0);
    indices := new int[6 * QuadCount(segX, segY)](_ => 0);
    writes := FillTopology(segX, segY, uvs, norms, indices);
    assert uvs[..] == UvBuffer(segX, segY);
    assert norms[..] == UvNormBuffer(segX, segY);
    assert indices[..] == IndexBuffer(segX, segY);
  }

  /** The loops of `setTopology`: every vertex's uv and uvNorm pair and every
      quad's six indices, row by row. `writes` lists the index slots in the
      order they are stored. */
  method FillTopology(segX: nat, segY: nat, uvs: array<real>, norms: array<real>, indices: array<int>)
    returns (ghost writes: seq<nat>)
    requires segX >= 1 && segY >= 1 && uvs != norms
    requires uvs.Length == norms.Length == 2 * VertexCount(segX, segY)
    requires indices.Length == 6 * QuadCount(segX, segY)
    modifies uvs, norms, indices
    ensures forall k :: 0 <= k < uvs.Length ==> uvs[k] == UvAt(segX, segY, k) && norms[k] == UvNormAt(segX, segY, k)
    ensures forall k :: 0 <= k < indices.Length ==> indices[k] == IndexAt(segX, k)
    ensures |writes| == indices.Length && forall i :: 0 <= i < |writes| ==> writes[i] == i
  {
    writes := [];
    // n vertices and q quads are done
    ghost var n: nat := 0;
    ghost var q: nat := 0;
    var y := 0;
    while y <= segY
      invariant 0 <= y <= segY + 1
      invariant n == y * (segX + 1) && 2 * n <= uvs.Length
      invariant q == (if y <= segY then y else segY) * segX && 6 * q <= indices.Length
      invariant forall k :: 0 <= k < 2 * n ==> uvs[k] == UvAt(segX, segY, k) && norms[k] == UvNormAt(segX, segY, k)
      invariant forall k :: 0 <= k < 6 * q ==> indices[k] == IndexAt(segX, k)
      invariant |writes| == 6 * q && forall i :: 0 <= i < |writes| ==> writes[i] == i
    {
      var x := 0;
      while x <= segX
        invariant 0 <= x <= segX + 1
        invariant n == y * (segX + 1) + x && 2 * n <= uvs.Length
        invariant q == (if y < segY then y * segX + (if x <= segX then x else segX) else segY * segX)
        invariant 6 * q <= indices.Length
        invariant forall k :: 0 <= k < 2 * n ==> uvs[k] == UvAt(segX, segY, k) && norms[k] == UvNormAt(segX, segY, k)
        invariant forall k :: 0 <= k < 6 * q ==> indices[k] == IndexAt(segX, k)
        invariant |writes| == 6 * q && forall i :: 0 <= i < |writes| ==> writes[i] == i
      {
        var idx := y * (segX + 1) + x;
        WriteUv(uvs, norms, segX, segY, x, y, idx);
        if x < segX && y < segY {
          var quadIdx := (y * segX + x) * 6;
          var v1, v2, v3, v4 := idx, idx + 1, idx + segX + 1, idx + segX + 2;
          WriteQuad(indices, segX, segY, x, y, quadIdx, v1, v2, v3, v4);
          writes := writes + [quadIdx, quadIdx + 1, quadIdx + 2, quadIdx + 3, quadIdx + 4, quadIdx + 5];
          q := q + 1;
        }
        n := n + 1;
        x := x + 1;
      }
      RowStep(segX + 1, y, 0);
      RowStep(segX, y, 0);
      y := y + 1;
    }
    GridCounts(segX, segY);
  }

  /** The loops of `setSize`: every vertex's three position slots, row by row. */
  method FillPositions(pos: array<real>, segX: nat, segY: nat, width: real, height: real, orientation: string)
    requires segX >= 1 && segY >= 1 && pos.Length == 3 * VertexCount(segX, segY)
    modifies pos
    ensures pos[..] == Positions(Plane(segX, segY, width, height, Axis(orientation, 0), Axis(orientation, 1)))
  {
    ghost var init := pos[..];
    var halfWidth, halfHeight := width / 2.0, height / 2.0;
    var segWidth, segHeight := width / (segX as real), height / (segY as real);
    var first, second := Axis(orientation, 0), Axis(orientation, 1);
    ghost var p := Plane(segX, segY, width, height, first, second);
    var yIdx := 0;
    while yIdx <= segY
      invariant 0 <= yIdx <= segY + 1
      invariant VertexIndex(segX, 0, yIdx) <= VertexCount(segX, segY)
      invariant pos[..] == PositionsAfter(init, p, VertexIndex(segX, 0, yIdx))
    {
      var yPos := -halfHeight + (yIdx as real) * segHeight;
      RowPosition(p, yIdx, halfHeight, segHeight);
      FillRow(pos, p, init, segX, yIdx, halfWidth, segWidth, first, second, yPos);
      yIdx := yIdx + 1;
    }
    PastLastRow(segX, segY);
    ReuseMatchesFresh(init, Zeros(pos.Length), p);
  }

  /** One pass of the inner loop of `setSize`: the vertices of row `yIdx`, left to right. */
  method FillRow(pos: array<real>, ghost p: Plane, ghost init: seq<real>, segX: nat, yIdx: nat,
                 halfWidth: real, segWidth: real, first: int, second: int, yPos: real)
    requires p.segX == segX >= 1 && p.segY >= 1 && yIdx <= p.segY
    requires first == p.first && second == p.second
    requires pos.Length == |init| == 3 * VertexCount(segX, p.segY)
    requires halfWidth == p.width / 2.0 && segWidth == p.width / (segX as real)
    requires yPos == YPos(p, yIdx)
    requires pos[..] == PositionsAfter(init, p, VertexIndex(segX, 0, yIdx))
    modifies pos
    ensures VertexIndex(segX, 0, yIdx + 1) <= VertexCount(segX, p.segY)
    ensures pos[..] == PositionsAfter(init, p, VertexIndex(segX, 0, yIdx + 1))
  {
    var rowStart := VertexIndex(segX, 0, yIdx);
    assert rowStart + segX < VertexCount(segX, p.segY) by { VertexBelowCount(segX, p.segY, segX, yIdx); }
    assert rowStart + segX + 1 == VertexIndex(segX, 0, yIdx + 1) by { RowStep(segX + 1, yIdx, 0); }
    var xIdx := 0;
    while xIdx <= segX
      invariant 0 <= xIdx <= segX + 1
      invariant pos[..] == PositionsAfter(init, p, rowStart + xIdx)
    {
      WriteColumn(pos, p, init, rowStart, xIdx, yIdx, halfWidth, segWidth, first, second, yPos);
      xIdx := xIdx + 1;
    }
  }

  /** One pass of the inner loop's body: vertex (xIdx, yIdx) is the next one written. */
  method WriteColumn(pos: array<real>, ghost p: Plane, ghost init: seq<real>, rowStart: nat, xIdx: nat, yIdx: nat,
                     halfWidth: real, segWidth: real, first: int, second: int, yPos: real)
    requires p.segX >= 1 && p.segY >= 1 && xIdx <= p.segX && yIdx <= p.segY && rowStart == VertexIndex(p.segX, 0, yIdx)
    requires first == p.first && second == p.second
    requires pos.Length == |init| == 3 * VertexCount(p.segX, p.segY)
    requires halfWidth == p.width / 2.0 && segWidth == p.width / (p.segX as real) && yPos == YPos(p, yIdx)
    requires pos[..] == PositionsAfter(init, p, rowStart + xIdx)
    modifies pos
    ensures pos[..] == PositionsAfter(init, p, rowStart + xIdx + 1)
  {
    var xPos := -halfWidth + (xIdx as real) * segWidth;
    var idx := rowStart + xIdx;
    VertexAt(p.segX, p.segY, xIdx, yIdx);
    ColumnPosition(p, xIdx, halfWidth, segWidth);
    WritePosition(pos, p, idx, first, second, xPos, -yPos);
  }

  /** The running x of the inner loop is the `XPos` of its column. */
  lemma ColumnPosition(p: Plane, x: nat, halfWidth: real, segWidth: real)
    requires p.segX >= 1
    requires halfWidth == p.width / 2.0 && segWidth == p.width / (p.segX as real)
    ensures XPos(p, x) == -halfWidth + (x as real) * segWidth
  {
  }

  /** The running y of the outer loop is the `YPos` of its row. */
  lemma RowPosition(p: Plane, y: nat, halfHeight: real, segHeight: real)
    requires p.segY >= 1
    requires halfHeight == p.height / 2.0 && segHeight == p.height / (p.segY as real)
    ensures YPos(p, y) == -halfHeight + (y as real) * segHeight
  {
  }

  /** The four stores of one vertex of `setTopology`: u, v and their stretched values. */
  method WriteUv(uvs: array<real>, norms: array<real>, segX: nat, segY: nat, x: nat, y: nat, idx: nat)
    requires segX >= 1 && segY >= 1 && x <= segX && y <= segY && uvs != norms
    requires uvs.Length == norms.Length == 2 * VertexCount(segX, segY)
    requires idx == y * (segX + 1) + x
    modifies uvs, norms
    ensures 2 * idx + 2 <= uvs.Length
    ensures forall k :: 0 <= k < uvs.Length && k != 2 * idx && k != 2 * idx + 1 ==>
              uvs[k] == old(uvs[k]) && norms[k] == old(norms[k])
    ensures forall k :: 2 * idx <= k < 2 * idx + 2 ==> uvs[k] == UvAt(segX, segY, k) && norms[k] == UvNormAt(segX, segY, k)
  {
    VertexAt(segX, segY, x, y);
    UvSlots(segX, segY, x, y);
    uvs[2 * idx] := (x as real) / (segX as real);
    uvs[2 * idx + 1] := 1.0 - (y as real) / (segY as real);
    norms[2 * idx] := ((x as real) / (segX as real)) * 2.0 - 1.0;
    norms[2 * idx + 1] := (1.0 - (y as real) / (segY as real)) * 2.0 - 1.0;
  }

  /** The five stores of one vertex of `setSize`: zero its three slots, then
      x and -y at the two axis offsets, an offset outside the array being ignored. */
  method WritePosition(pos: array<real>, ghost p: Plane, idx: nat, first: int, second: int, xPos: real, minusY: real)
    requires p.segX >= 1 && p.segY >= 1 && first == p.first && second == p.second
    requires 3 * idx + 2 < pos.Length
    requires xPos == XPos(p, Column(p.segX, idx)) && minusY == -YPos(p, Row(p.segX, idx))
    modifies pos
    ensures pos[..] == WriteVertex(old(pos[..]), p, idx)
  {
    ghost var before := pos[..];
    pos[3 * idx + 0] := 0.0;
    pos[3 * idx + 1] := 0.0;
    pos[3 * idx + 2] := 0.0;
    assert pos[..] == Store(Store(Store(before, 3 * idx, 0.0), 3 * idx + 1, 0.0), 3 * idx + 2, 0.0);
    ghost var zeroed := pos[..];
    if 0 <= 3 * idx + first < pos.Length {
      pos[3 * idx + first] := xPos;
    }
    assert pos[..] == Store(zeroed, 3 * idx + first, xPos);
    ghost var withX := pos[..];
    if 0 <= 3 * idx + second < pos.Length {
      pos[3 * idx + second] := minusY;
    }
    assert pos[..] == Store(withX, 3 * idx + second, minusY);
  }

  /** The six stores of one quad: triangles (v1, v3, v2) and (v2, v3, v4) at
      offset `quadIdx`, each value kept modulo 2^16. */
  method WriteQuad(indices: array<int>, segX: nat, segY: nat, x: nat, y: nat, quadIdx: nat, v1: nat, v2: nat, v3: nat, v4: nat)
    requires segX >= 1 && x < segX && y < segY && indices.Length == 6 * QuadCount(segX, segY)
    requires quadIdx == (y * segX + x) * 6
    requires v1 == y * (segX + 1) + x && v2 == v1 + 1 && v3 == v1 + segX + 1 && v4 == v1 + segX + 2
    modifies indices
    ensures quadIdx + 6 <= indices.Length
    ensures forall k :: 0 <= k < indices.Length && !(quadIdx <= k < quadIdx + 6) ==> indices[k] == old(indices[k])
    ensures forall k :: quadIdx <= k < quadIdx + 6 ==> indices[k] == IndexAt(segX, k)
  {
    ghost var vs := [v1, v3, v2, v2, v3, v4];
    QuadSlots(segX, segY, x, y, quadIdx, vs);
    indices[quadIdx] := ToUint16(v1);
    indices[quadIdx + 1] := ToUint16(v3);
    indices[quadIdx + 2] := ToUint16(v2);
    indices[quadIdx + 3] := ToUint16(v2);
    indices[quadIdx + 4] := ToUint16(v3);
    indices[quadIdx + 5] := ToUint16(v4);
    forall k | quadIdx <= k < quadIdx + 6
      ensures indices[k] == IndexAt(segX, k)
    {
      assert indices[k] == ToUint16(vs[k - quadIdx]);
    }
  }
}
