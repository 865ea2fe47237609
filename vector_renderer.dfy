/**
  The vertex and index buffer builder of the vector renderer: from the joined
  entities it allocates an interleaved vertex/colour buffer and a line index
  buffer, fills both in place, and returns them with the index width and the
  number of indices written.
 */
module VectorRenderer {
  import opened RenderTypes
  import opened IndexSpec
  import opened IndexLayout

  /**
    Builds the buffers for `es`; `place` stands for the rotation, scaling and
    translation of a shape vertex by the entity's position.

    The vertex buffer has one slot per vertex plus one per shape, and its
    written prefix is Vertices(es, place). The index buffer is zero-filled,
    has two slots per vertex-buffer slot, and its first `count` slots are
    Indices(es); no slot from `count` on is written.
   */
  method GenerateVerts<P(0), Q>(es: seq<Entity<P, Q>>, place: (P, Q) -> P)
    returns (vertices: array<VertColor<P>>, width: IndexWidth, indices: array<nat>, count: nat)
    ensures fresh(vertices) && fresh(indices)
    ensures vertices.Length == VertCount(es)
    ensures width == UnsignedInt <==> vertices.Length > 0x1_0000
    ensures indices.Length == 2 * vertices.Length
    ensures |Vertices(es, place)| <= vertices.Length
    ensures vertices[..|Vertices(es, place)|] == Vertices(es, place)
    ensures count <= indices.Length && indices[..count] == Indices(es)
    ensures forall i :: count <= i < indices.Length ==> indices[i] == 0
  {
    var vertCount := VertCount(es);
    vertices := new VertColor<P>[vertCount];
    if vertCount > 0x1_0000 {
      width := UnsignedInt;
    } else {
      width := UnsignedShort;
    }
    indices := new nat[Allocated(vertCount).slots](_ => 0);
    VertCountSplit(es);
    var vIndex := 0;
    count := 0;
    for n := 0 to |es|
      invariant vIndex == TotalVerts(es[..n]) <= TotalVerts(es)
      invariant 2 * vIndex <= indices.Length && count <= 2 * vIndex
      invariant vertices[..vIndex] == Vertices(es[..n], place)
      invariant indices[..count] == Indices(es[..n])
      invariant forall i :: count <= i < indices.Length ==> indices[i] == 0
    {
      ghost var done := es[..n + 1];
      assert done[..n] == es[..n] && done[n] == es[n];
      assert TotalVerts(done) == vIndex + |es[n].verts|;
      assert Vertices(done, place) == Vertices(es[..n], place) + Placed(es[n], place);
      assert Indices(done) == Indices(es[..n]) + ShapeIndices(es[n], vIndex);
      PrefixProducesPrefix(es, n + 1, place);
      IndicesBounds(es[..n]);
      vIndex, count := WriteShape(vertices, indices, es[n], place, vIndex, count);
    }
    assert es[..|es|] == es;
  }

  /**
    Writes one shape whose first vertex goes to slot `shapeStart` and whose
    first index goes to slot `count0`: its placed, coloured vertices, then its
    segments. Returns the advanced vertex and index cursors.
   */
  method WriteShape<P, Q>(vertices: array<VertColor<P>>, indices: array<nat>, shape: Entity<P, Q>,
                          place: (P, Q) -> P, shapeStart: nat, count0: nat)
    returns (vIndex: nat, count: nat)
    requires shapeStart + |shape.verts| <= vertices.Length
    requires count0 <= 2 * shapeStart && 2 * (shapeStart + |shape.verts|) <= indices.Length
    modifies vertices, indices
    ensures vIndex == shapeStart + |shape.verts|
    ensures count == count0 + |ShapeIndices(shape, shapeStart)| <= 2 * vIndex
    ensures vertices[..vIndex] == old(vertices[..shapeStart]) + Placed(shape, place)
    ensures vertices[vIndex..] == old(vertices[vIndex..])
    ensures indices[..count] == old(indices[..count0]) + ShapeIndices(shape, shapeStart)
    ensures forall i :: count <= i < indices.Length ==> indices[i] == old(indices[i])
  {
    vIndex, count := shapeStart, count0;
    ghost var placed := Placed(shape, place);
    ghost var vPrefix, iPrefix := vertices[..shapeStart], indices[..count0];
    for j := 0 to |shape.verts|
      invariant vIndex == shapeStart + j
      invariant count == count0 + |Chain(shapeStart, j)| <= 2 * vIndex
      invariant vertices[..vIndex] == vPrefix + placed[..j]
      invariant vertices[vIndex..] == old(vertices[vIndex..])
      invariant indices[..count] == iPrefix + Chain(shapeStart, j)
      invariant forall i :: count <= i < indices.Length ==> indices[i] == old(indices[i])
    {
      ChainLength(shapeStart, j);
      var v := VertColor(place(shape.verts[j], shape.placement), shape.color);
      PutVertex(vertices, vIndex, v);
      if vIndex > shapeStart {
        count := PutSegment(indices, count, vIndex - 1, vIndex);
        assert Chain(shapeStart, j + 1) == Chain(shapeStart, j) + [vIndex - 1, vIndex];
      } else {
        assert Chain(shapeStart, j + 1) == [];
      }
      vIndex := vIndex + 1;
      assert placed[j] == v;
      assert placed[..j + 1] == placed[..j] + [v];
    }
    ChainLength(shapeStart, |shape.verts|);
    assert placed[..|shape.verts|] == placed;
    if shape.closed && vIndex - shapeStart > 2 {
      count := PutSegment(indices, count, vIndex - 1, shapeStart);
    }
  }

  /** Writes one placed, coloured vertex into slot `vIndex`. */
  method PutVertex<P>(vertices: array<VertColor<P>>, vIndex: nat, v: VertColor<P>)
    requires vIndex < vertices.Length
    modifies vertices
    ensures vertices[..vIndex + 1] == old(vertices[..vIndex]) + [v]
    ensures vertices[vIndex + 1..] == old(vertices[vIndex + 1..])
  {
    vertices[vIndex] := v;
    assert vertices[..vIndex + 1] == vertices[..vIndex] + [v];
  }

  /** Writes the segment (`from`, `to`) into the next two index slots. */
  method PutSegment(indices: array<nat>, count: nat, from: nat, to: nat) returns (next: nat)
    requires count + 2 <= indices.Length
    modifies indices
    ensures next == count + 2
    ensures indices[..next] == old(indices[..count]) + [from, to]
    ensures forall i :: next <= i < indices.Length ==> indices[i] == old(indices[i])
  {
    next := count;
    indices[next] := from;
    next := next + 1;
    indices[next] := to;
    next := next + 1;
    assert indices[..next] == indices[..count] + [from, to];
  }
}
