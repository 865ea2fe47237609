# Vector renderer buffer builder (grease)

This project models the vertex and index buffer builder of grease's
`VectorRenderer` (`_generate_verts`). The renderer draws each entity that has
a shape, a position and a renderable component. Each shape is an outline:
a list of vertices, plus a flag saying whether the outline is closed.

For the sequence of joined entities, the builder:

- sizes an interleaved vertex/colour buffer at the sum, over the shapes, of
  each shape's vertex count plus one;
- picks 32-bit indices when that size exceeds 65536, and 16-bit indices otherwise;
- allocates an index buffer of twice that size;
- walks the shapes with two cursors, one into each buffer. For each vertex it
  writes the vertex with the entity's RGBA bytes. For every vertex after a
  shape's first it writes the line segment (previous vertex, this vertex).
  After a closed shape of more than two vertices it writes the closing segment
  (last vertex, first vertex);
- returns both buffers, the index width and the number of indices written.

Each entity is modelled as `Entity(verts, closed, placement, color)`:

- the vertex coordinates (`P`) and the position/angle (`Q`) are opaque type parameters;
- the floating-point rotate-scale-translate is a function parameter `place: (P, Q) -> P`;
- the colour is four bytes.

Modules:

- `RenderTypes` (render_types.dfy) holds the value types.
- `IndexSpec` (index_spec.dfy) holds what the buffers must contain, as functions
  of the entity sequence, and the lemmas about it.
- `VectorRenderer` (vector_renderer.dfy) holds the builder itself. It is an
  imperative method over arrays with the source's two nested loops. The body of
  the outer loop is split into `WriteShape`, and the two repeated stores into
  `PutVertex` and `PutSegment`.
- `IndexLayout` (index_layout.dfy) holds the two index-buffer allocations of the
  source: the one as written and the one evidently intended.

## Model

| member | source | states |
|---|---|---|
| `VectorRenderer.GenerateVerts` | grease/renderer/vectorrenderer.py:54-99 | both buffers are freshly allocated. The vertex buffer size is VertCount(es). Width is 32-bit exactly when that size exceeds 65536. Index buffer has twice the slots. The written vertex prefix is Vertices(es). The first `count` index slots are Indices(es). Every slot from `count` on is still zero. |
| `VectorRenderer.WriteShape` | grease/renderer/vectorrenderer.py:72-98 | one shape advances the vertex cursor by its vertex count. It appends exactly its placed vertices and its segments, and leaves every later vertex slot and every later index slot untouched. |
| `VectorRenderer.PutVertex` | grease/renderer/vectorrenderer.py:82-87 | the vertex slot at the cursor receives the placed vertex and its colour. The slots before and after the cursor are kept. |
| `VectorRenderer.PutSegment` | grease/renderer/vectorrenderer.py:89-92 | two consecutive index slots receive (from, to). The cursor advances by two and later slots are untouched. |
| `IndexSpec.VertCountSplit` | grease/renderer/vectorrenderer.py:56-58 | vert_count equals total vertices plus one per shape. So the final vertex cursor never exceeds the capacity. |
| `IndexSpec.VerticesLength` | grease/renderer/vectorrenderer.py:80-93 | the vertex cursor ends at the total vertex count: one slot per vertex. |
| `IndexSpec.PrefixProducesPrefix` | grease/renderer/vectorrenderer.py:70-98 | what the first n entities produce is a prefix of what all produce, for the vertex total, the index sequence and the vertex sequence. |
| `IndexSpec.ChainLength` | grease/renderer/vectorrenderer.py:88-93 | the consecutive segments of a k-vertex shape fill 2·max(k-1, 0) slots. |
| `IndexSpec.ChainSlots` | grease/renderer/vectorrenderer.py:88-92 | slot i of a shape's consecutive segments holds vertex start + (i+1)/2. So the pairs are (start, start+1), (start+1, start+2), … |
| `IndexSpec.ShapeIndicesShape` | grease/renderer/vectorrenderer.py:88-98 | a k-vertex shape contributes exactly max(k-1, 0) consecutive segments. It contributes one more, (start+k-1, start), if and only if it is closed and k > 2. Every index names one of its own vertices. |
| `IndexSpec.IndicesBounds` | grease/renderer/vectorrenderer.py:88-98 | the index count is twice the segment count. There are no more segments than vertices, and every index is below the final vertex cursor. |
| `IndexSpec.IndicesFitBuffer` | grease/renderer/vectorrenderer.py:60-98 | the index count is even and fits 2·vert_count slots with two to spare per shape. Every index is below vert_count, so it fits the chosen width (the 32-bit case needs vert_count ≤ 2^32). |
| `IndexSpec.ShapeBlock` | grease/renderer/vectorrenderer.py:72-98 | shape n owns one contiguous block of index slots, starting where the earlier shapes end. The block is exactly its segments, and each index in it lies in [shape_start, shape_start + k). No segment crosses a shape boundary. |
| `IndexSpec.VertexSlot` | grease/renderer/vectorrenderer.py:76-87 | vertex j of shape n lands in slot shape_start + j. It holds that vertex placed by its entity, with the entity's RGBA bytes, so all vertices of one entity share its colour. |
| `IndexLayout.AsWrittenStoresIndices` | grease/renderer/vectorrenderer.py:60-65 | with the allocation as written, every index can be stored if and only if the 16-bit width is chosen or no index is written. |
| `IndexLayout.AsWrittenRejectsFirstSegment` | grease/renderer/vectorrenderer.py:60-61 | one open shape of 65536 vertices gives vert_count 65537 and the 32-bit width. It writes 131070 indices, and the first cannot be stored in the buffer as written. |
| `IndexLayout.IndicesFitAllocation` | grease/renderer/vectorrenderer.py:64 | with the flat buffer of 2·vert_count slots, which the builder model allocates at both widths, every index written is stored. |

## Left out

- `draw()` is not modelled. It only makes OpenGL calls, and its line-width and corner-fill sizing uses floats and a value queried from the graphics library.
- The vertex transform and the per-entity `rot_vec` updates are not modelled: rotation by the entity angle (`radians`, `cos`, `sin`), scaling and translation are floating-point. They are the opaque parameter `place`.
- The colour conversion `int(c * 255)` is floating-point. The entity's bytes are taken as given.
- The ctypes structures `CVert`, `CColor` and `CVertColor` are a foreign memory layout. They are the datatype `VertColor`.
- The entity store's `join` is an external collaborator. It is the input sequence. The source runs the join twice, once to size and once to fill, and the model assumes both runs yield the same sequence.
- GenerateVerts: allocates a flat index buffer of 2·vert_count slots at the 32-bit width too, where the source's nested allocation at line 61 would refuse the first segment (see Findings).
- GenerateVerts: says nothing about the vertex slots past the written ones, one per shape. ctypes zero-fills them, but the opaque coordinate type has no zero.
- IndicesFitBuffer: proves the 32-bit width only for vert_count ≤ 2^32. It does not model the silent truncation ctypes would apply to larger indices.
- The collision system (`SAPCollision`) is not part of this model. Its implementation is not among the modelled files. test/collision_test.py only holds a dictionary-based test double and tests against it.

## Findings

| source | as written | input that shows it | evidently intended | confidence | as-written member | corrected member |
|---|---|---|---|---|---|---|
| grease/renderer/vectorrenderer.py:61 | `(ctypes.c_uint * 2 * vert_count)()` allocates vert_count rows of two unsigned ints. Each `i_array[i_index] = <int>` then targets a row, which ctypes refuses. | one open shape of 65536 vertices (vert_count 65537) | a flat array of `2 * vert_count` unsigned ints, like the 16-bit buffer at line 64 | not executed; high | `IndexLayout.AsWrittenRejectsFirstSegment` | `IndexLayout.IndicesFitAllocation` |
