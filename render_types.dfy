/**
  The values the vector renderer works with: the per-entity input joined from
  the shape, position and renderable components, the interleaved
  vertex/colour record it writes into the vertex buffer, and the two index
  widths it can hand to the graphics library.
 */
module RenderTypes {

  /** An unsigned 8-bit colour channel (a ctypes c_ubyte). */
  newtype byte = x: int | 0 <= x < 256

  /** The RGBA colour of an entity, already converted to bytes. */
  datatype Color = Color(r: byte, g: byte, b: byte, a: byte)

  /**
    One joined (shape, position, renderable) entity. The shape's vertex
    coordinates (`verts`, of the opaque type P) and the entity's position and
    angle (`placement`, of the opaque type Q) are never inspected by the index
    bookkeeping; only the number of vertices, `closed` and `color` matter.
   */
  datatype Entity<P, Q> = Entity(verts: seq<P>, closed: bool, placement: Q, color: Color)

  /** One slot of the vertex buffer: a placed vertex and its colour. */
  datatype VertColor<P> = VertColor(vert: P, color: Color)

  /** The element type of the index buffer: GL_UNSIGNED_SHORT or GL_UNSIGNED_INT. */
  datatype IndexWidth = UnsignedShort | UnsignedInt

  /** The number of distinct index values an index of width `w` can hold. */
  function IndexRange(w: IndexWidth): nat
  {
    match w
    case UnsignedShort => 0x1_0000
    case UnsignedInt => 0x1_0000_0000
  }
}
