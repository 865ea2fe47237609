/**
  The layout of the index buffer. For the 16-bit width the builder allocates a
  flat array of 2 * vert_count unsigned shorts; for the 32-bit width it
  allocates `(c_uint * 2 * vert_count)`, which ctypes reads as vert_count rows
  of two unsigned ints. An element of such a buffer is a row, not a scalar, so
  the builder's `i_array[i_index] = <int>` cannot store into it. The two
  allocations are modelled side by side: the one as written, with the input on
  which it fails, and the flat one evidently intended, which the builder model
  uses.
 */
module IndexLayout {
  import opened RenderTypes
  import opened IndexSpec

  /** A ctypes index buffer: `slots` scalars, or `rows` arrays of `columns` scalars. */
  datatype IndexBuffer = Flat(slots: nat) | Rows(rows: nat, columns: nat)

  /** The index buffer allocated as written, for either width. */
  function AllocatedAsWritten(vertCount: nat): IndexBuffer
  {
    if vertCount > 0x1_0000 then Rows(vertCount, 2) else Flat(2 * vertCount)
  }

  /** The index buffer evidently intended, for either width: 2 * vert_count scalars. */
  function Allocated(vertCount: nat): IndexBuffer
  {
    Flat(2 * vertCount)
  }

  /**
    Whether assigning an integer index to element `slot` of `b` stores it: the
    element must exist and be a scalar; an element of a row buffer is itself
    an array, and ctypes refuses to store an integer there.
   */
  predicate StoresIndexAt(b: IndexBuffer, slot: nat)
  {
    b.Flat? && slot < b.slots
  }

  /**
    As written, the builder stores all its indices exactly when the 16-bit
    width is chosen or there is nothing to store.
   */
  lemma AsWrittenStoresIndices<P, Q>(es: seq<Entity<P, Q>>)
    ensures (forall slot :: 0 <= slot < |Indices(es)| ==> StoresIndexAt(AllocatedAsWritten(VertCount(es)), slot))
            <==> (VertCount(es) <= 0x1_0000 || |Indices(es)| == 0)
  {
    IndicesFitBuffer(es);
    if VertCount(es) > 0x1_0000 && |Indices(es)| > 0 {
      assert !StoresIndexAt(AllocatedAsWritten(VertCount(es)), 0);
    }
  }

  /**
    One open shape of 65536 vertices: vert_count is 65537, so the 32-bit
    width is chosen, and its first segment cannot be stored in the buffer
    allocated as written.
   */
  lemma AsWrittenRejectsFirstSegment<P, Q>(p: P, q: Q, c: Color)
    ensures var es := [Entity(seq(0x1_0000, _ => p), false, q, c)];
            VertCount(es) == 0x1_0001 &&
            IndexWidthFor(VertCount(es)) == UnsignedInt &&
            |Indices(es)| == 2 * 0xFFFF &&
            !StoresIndexAt(AllocatedAsWritten(VertCount(es)), 0)
  {
    var e := Entity(seq(0x1_0000, _ => p), false, q, c);
    var es := [e];
    assert es[..0] == [];
    ShapeIndicesShape(e, 0);
  }

  /** With the intended flat buffer every index the builder writes is stored. */
  lemma IndicesFitAllocation<P, Q>(es: seq<Entity<P, Q>>)
    ensures forall slot :: 0 <= slot < |Indices(es)| ==> StoresIndexAt(Allocated(VertCount(es)), slot)
  {
    IndicesFitBuffer(es);
  }
}
