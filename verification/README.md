# Pinball debug-draw renderer, modelled in Dafny

This project models the batched 2D debug-draw renderer of the Pinball game
(`xmxGame/Headers/Display.h`). The renderer has three parts:

- **Camera.** A view centre (default (0, 20)) and a fixed half-extent of 25
  world units. `BuildProjectionMatrix` turns it into a column-major 4x4
  orthographic matrix.
- **Vertex batches.** `GLRenderPoints`, `GLRenderLines` and
  `GLRenderTriangles` are fixed arrays of 512, 1024 and 1536 vertices with a
  count `vCount`.
  - `Vertex` first checks for a full batch. Only then does it flush, before
    storing the new vertex. So the automatic flush happens at the start of the
    call that finds the buffer full, not at the end of the call that fills it.
    After exactly `vNumMax` calls the buffer holds `vNumMax` vertices and
    nothing has been drawn. The next call draws them and keeps its own vertex.
  - `Flush` does nothing on an empty batch. Otherwise it issues one draw of
    exactly the pending vertices and empties the batch.
  - Points carry a position, a colour and a size. Lines and triangles carry
    only a position and a colour.
- **DebugDraw.** Implements Box2D's debug-draw callbacks by appending vertices
  to the three batches:
  - closed polygon outlines;
  - fan-triangulated fills in the derived fill colour (RGB halved, alpha 0.5);
  - 16-segment circles built by repeated rotation;
  - a heading line on filled circles;
  - segments, red/green coordinate-frame axes and sized points;
  - a `Flush` that empties triangles, then lines, then points.

Layout:

- `geometry.dfy` (module `Geometry`): stand-ins for `b2Vec2`, `b2Color`,
  `b2Rot` and `b2Transform` over reals, the vertex record and the fill-colour
  rule.
- `projection.dfy` (module `Projection`): the `Camera` class,
  `BuildProjectionMatrix` as a function of the centre, and what the matrix does
  to world points.
- `batching.dfy` (module `Batching`): one `Batch` class for all three batches,
  whose `mode` (Points, Lines, Triangles) fixes its topology and capacity.
  - A `Gpu` object stands for the GL context. It keeps a ghost log of every
    draw call as (topology, uploaded vertices, camera centre).
  - Each batch also keeps two ghost sequences: `appended`, every vertex handed
    to `Vertex`, and `drawn`, every vertex it has drawn.
  - `Batch.Valid()` says three things:
    - `vCount` stays within capacity;
    - nothing is dropped: `appended` equals `drawn` followed by the pending
      prefix `vbo[0..count)`;
    - every vertex has the batch's shape (sized for points, unsized otherwise).
  - `drawn` is tied to the GL log by `Records`. The draws of the batch's
    topology logged since a given point, concatenated in log order, are
    exactly the vertices added to `drawn` since then. `Vertex`, `Flush`, every
    `DebugDraw` method and `VertexAll` promise `Records`. So "nothing dropped,
    order kept" holds against the log itself. `Extends` adds that draws made
    during drawing are automatic flushes of a full buffer under the current
    centre.
  - `Push` and `Feed` are the pure model of one `Vertex` call and of a run of
    them. `Vertex`'s two postcondition cases are `Push`'s two cases.
    `Batch.VertexAll` loops `Vertex` over a sequence and is proved to end in
    exactly `Feed`'s pending part. It also logs one draw per draw of `Feed`, in
    order, so the overflow lemmas about `Feed` hold of a real batch.
    `PointOverflowRun` states the 513-point case on a fresh point batch.
- `tessellation.dfy` (module `Tessellation`): the tessellation rules as pure
  functions, with lemmas giving their lengths and every vertex.
  - `Chain` gives consecutive pairs and `Fan` gives fan triangles.
  - `PolygonOutline`, `PolygonFill`, `CircleOutline`, `CircleFill`,
    `HeadingLine` and `FrameAxes` are built from them.
  - Each loop also has an `...UpTo` function: what the loop has emitted after
    i iterations, defined the way the loop builds it. A `...Loop` lemma proves
    that the finished loop's output equals the declarative definition.
- `drawing.dfy` (module `Drawing`): the `DebugDraw` class. Its methods keep the
  source's loops and loop-carried variables. Each method is proved to append
  exactly the tessellation function's output to the right batch. Each also
  proves four more things:
  - it touches no other batch;
  - it logs only draws of the expected topologies under the current camera
    centre;
  - each batch it touches has recorded exactly the vertices of its new draws;
  - each batch it appended to ends holding at least one vertex, so a call
    that exactly fills a buffer leaves it full and undrawn (`NoEagerDraw`).

  The solid shapes also log every triangle draw before any line draw.

Behaviour of the code that the model keeps as written:

- `DrawPolygon` and `DrawSolidPolygon` accept any vertex count of at least 1
  (the code reads `vertices[vertexCount-1]`). For n <= 2 the fill is empty.
- The filled circle's fan starts from the rotation vector `(cos, sin)`, one
  step past the outline's `(1, 0)` (`Display.h:511` versus `:528`). The fan's
  rim point k is the outline's point k+1 (`FillRimIsOutlineShifted`).
- The model does not prove that either circle loop closes, because the
  rotation step is a free parameter.
- A flush records the camera centre at flush time, not at the time the vertices
  were appended. The draw log makes this visible: one frame's vertices can be
  split across draws with different centres if the camera moves between an
  automatic flush and the final `Flush`.

## Model

| member | source | states |
|---|---|---|
| `Projection.Camera.constructor` | xmxGame/Headers/Display.h:17-22 | a new camera is centred at (0, 20) with a 1280x800 window |
| `Projection.BuildProjectionMatrix` | xmxGame/Headers/Display.h:24-49 | the matrix built from lower/upper = centre -/+ 25 has 16 entries: m[0] = m[5] = 1/25, m[10] = m[15] = 1, m[12] = -cx/25, m[13] = -cy/25, and every other entry 0 |
| `Projection.ProjectionMapsPoint` | xmxGame/Headers/Display.h:24-49 | applied to (x, y, z, 1), the matrix gives ((x-cx)/25, (y-cy)/25, z, 1): an offset from the centre scaled to the unit square, with z unchanged and w = 1 |
| `Projection.ProjectionCorners` | xmxGame/Headers/Display.h:25-28 | the four corners of [cx-25, cx+25] x [cy-25, cy+25] map to (-1,-1), (1,-1), (1,1), (-1,1) |
| `Projection.VisibleIffInClipSquare` | xmxGame/Headers/Display.h:25-30 | a world point lies in the visible rectangle if and only if its projection lies in [-1,1]^2 |
| `Projection.UnprojectRoundTrip` | xmxGame/Headers/Display.h:30-46 | the projection is invertible on the plane: unprojecting a projected point gives the point back, and projecting an unprojected point gives the normalised coordinates back |
| `Batching.Batch.Create` | xmxGame/Headers/Display.h:60-98 | a new batch has storage for exactly its capacity (512 points, 1024 lines or 1536 triangles), count 0, and nothing appended or drawn |
| `Batching.Batch.Vertex` | xmxGame/Headers/Display.h:116-125 | the invariant is kept and count >= 1. Below capacity the vertex is added to the pending prefix and nothing is drawn. At capacity, exactly one draw of the full pending prefix is logged under the current camera centre, then the vertex is stored at index 0 and count is 1. The vertex must have the batch's shape. `drawn` grows by exactly the vertices of the logged draw (`Records`) |
| `Batching.Batch.Flush` | xmxGame/Headers/Display.h:127-161 | an empty batch logs no draw and stays empty. Otherwise one draw of exactly vbo[0..count) is logged with the batch's topology and the current centre, and count becomes 0. So a second Flush is a no-op. `drawn` grows by exactly the logged vertices (`Records`) |
| `Batching.Push` | xmxGame/Headers/Display.h:118-124 | one Vertex call drops nothing and keeps order (draws ++ pending = old pending ++ [v]). Afterwards 1 <= pending <= capacity. A full buffer is drawn whole before the vertex becomes the only pending one |
| `Batching.Feed` | xmxGame/Headers/Display.h:116-125 | across any run of Vertex calls with no explicit flush, the concatenated automatic draws followed by the pending prefix equal the old pending prefix followed by every appended vertex, in order. Every automatic draw is exactly capacity vertices, and the pending count stays in 1..capacity |
| `Batching.FeedWithinCapacity` | xmxGame/Headers/Display.h:118-124 | while the buffer has room, Vertex calls issue no draw and only accumulate |
| `Batching.FeedOverflowFrom` | xmxGame/Headers/Display.h:118-124 | a run that overfills the buffer by at most one capacity makes exactly one automatic draw: the first capacity vertices of old pending ++ run. The rest stays pending |
| `Batching.FeedOverflow` | xmxGame/Headers/Display.h:118-124 | from empty, capacity + k calls (1 <= k <= capacity) draw the first capacity vertices once and leave the last k pending |
| `Batching.PointOverflowScenario` | xmxGame/Headers/Display.h:163 | 513 points into the 512-point batch: one draw of the first 512, and the 513th is left pending alone |
| `Batching.FeedSnoc` | xmxGame/Headers/Display.h:116-125 | feeding a run and then one more vertex gives the run's draws, then that Push's draws, and that Push's pending part: a run is Vertex calls made one at a time |
| `Batching.Batch.VertexAll` | xmxGame/Headers/Display.h:116-125 | calling Vertex on each vertex of a run, in order, keeps the invariant and appends the whole run. The pending part afterwards is Feed's pending part. The log grows by one draw of this topology under the current centre per Feed draw, in the same order, and `drawn` grows by their concatenation, which is `Records` |
| `Batching.PointOverflowRun` | xmxGame/Headers/Display.h:116-125 | on a fresh point batch, 513 Vertex calls log exactly one draw (the first 512 points under the camera centre), record those 512 as drawn, and leave only the 513th pending |
| `Batching.RecordsCalls` | xmxGame/Headers/Display.h:116-125 | logging a run of draws of one topology records exactly their vertices in order |
| `Batching.DrawsAreFull` | xmxGame/Headers/Display.h:118-119 | if a batch logged any automatic draw, its record grew by at least a whole buffer |
| `Batching.NoEagerDraw` | xmxGame/Headers/Display.h:118-124 | suppose the old pending vertices plus the new ones fit in the buffer, and the batch still holds a vertex. Then nothing was logged, nothing was drawn, and all of them are pending. Vertex flushes only when a later call finds the buffer full |
| `Batching.RecordsOne` | xmxGame/Headers/Display.h:127-161 | one logged draw of a topology adds exactly its vertices to that topology's record |
| `Batching.RecordsTrans` | xmxGame/Headers/Display.h:116-161 | records compose: if one log extension added d1 and the next added d2, the whole extension added d1 followed by d2, so the record keeps log order across any sequence of Vertex and Flush calls |
| `Batching.RecordsOther` | xmxGame/Headers/Display.h:127-161 | draws of other topologies add nothing to a batch's record |
| `Batching.RecordsGrow` | xmxGame/Headers/Display.h:116-161 | the drawn record only grows (the old record is a prefix of the new), and with no new draw it is unchanged |
| `Tessellation.ChainLength` | xmxGame/Headers/Display.h:452-458 | a loop that carries its previous point emits 2(n-1) vertices for n points |
| `Tessellation.ChainAt` | xmxGame/Headers/Display.h:452-458 | segment k of such a loop is (pts[k], pts[k+1]) |
| `Tessellation.ChainLinked` | xmxGame/Headers/Display.h:497-500 | each emitted segment starts where the previous one ended |
| `Tessellation.FanLength` | xmxGame/Headers/Display.h:465-470 | a fan over a rim of m points emits 3(m-1) vertices |
| `Tessellation.FanAt` | xmxGame/Headers/Display.h:465-470 | fan triangle k is (apex, rim[k], rim[k+1]) |
| `Tessellation.PolygonOutlineShape` | xmxGame/Headers/Display.h:449-459 | a polygon outline has 2n vertices in the given colour. Segment k joins the previous vertex (v[n-1] for k = 0, else v[k-1]) to v[k] |
| `Tessellation.PolygonOutlineLoop` | xmxGame/Headers/Display.h:449-459 | the loop that carries p1 = v[i-1] (starting from v[n-1]) and emits (p1, v[i]) for i = 0..n-1 produces exactly PolygonOutline |
| `Tessellation.PolygonOutlineClosed` | xmxGame/Headers/Display.h:451-458 | the outline is a closed loop: it ends at the vertex it starts from, and every segment starts where the previous one ended |
| `Tessellation.PolygonFillLength` | xmxGame/Headers/Display.h:465-470 | a filled n-gon makes 3(n-2) triangle vertices for n >= 3, and none for n <= 2 |
| `Tessellation.PolygonFillLoop` | xmxGame/Headers/Display.h:461-470 | the fan loop over i = 1..n-2 emitting (v[0], v[i], v[i+1]) produces exactly PolygonFill, and nothing when n <= 2 |
| `Tessellation.PolygonFillShape` | xmxGame/Headers/Display.h:463-470 | fill triangle k is (v[0], v[k+1], v[k+2]) in the fill colour (0.5r, 0.5g, 0.5b, 0.5) |
| `Tessellation.FilledSquareScenario` | xmxGame/Headers/Display.h:461-480 | the red square (10,10),(12,10),(12,12),(10,12) gives triangles (v0,v1,v2) and (v0,v2,v3) in (0.5, 0, 0, 0.5), and 8 outline vertices (v3,v0),(v0,v1),(v1,v2),(v2,v3) in (1, 0, 0, 1) |
| `Tessellation.CircleOutlineShape` | xmxGame/Headers/Display.h:482-502 | a circle outline has 32 vertices. Segment k runs from centre + radius * (rotation^k of (1,0)) to the point after it. Consecutive segments share an endpoint |
| `Tessellation.CircleOutlineLoop` | xmxGame/Headers/Display.h:482-502 | the 16-iteration loop that carries v1 and r1 and rotates r1 by the step each time produces exactly CircleOutline |
| `Tessellation.CircleFillLoop` | xmxGame/Headers/Display.h:504-526 | the 16-iteration loop starting from r1 = (cos, sin) and emitting (centre, v1, v2) produces exactly CircleFill |
| `Tessellation.CircleFillShape` | xmxGame/Headers/Display.h:504-526 | a filled circle's fan has 48 vertices. Every triangle starts with the centre, all in the fill colour. Triangle k spans rim points k and k+1 of the rotation starting at (cos, sin) |
| `Tessellation.FillRimIsOutlineShifted` | xmxGame/Headers/Display.h:511-528 | the fan's k-th rim vector equals the outline's (k+1)-th, since it starts one rotation step further |
| `Tessellation.FrameAxesOrthogonal` | xmxGame/Headers/Display.h:554-568 | the two frame axes are perpendicular and equally long, each 0.4 times the rotation's norm |
| `Drawing.DebugDraw.Create` | xmxGame/Headers/Display.h:424-432 | the three batches are fresh, empty, of their own topologies, with separate storage, one camera and one GL context |
| `Drawing.DebugDraw.DrawPolygon` | xmxGame/Headers/Display.h:449-459 | the line batch receives exactly PolygonOutline(vertices, color), the 2n-vertex closed loop. The point and triangle batches are unchanged, and only full line draws under the current centre are logged. The line record grows by exactly their vertices. The line batch ends holding at least one vertex, so the outline never flushes eagerly: a buffer it fills exactly is drawn only by the next call |
| `Drawing.DebugDraw.DrawSolidPolygon` | xmxGame/Headers/Display.h:461-480 | the triangle batch receives exactly the fill fan PolygonFill. The line batch receives exactly the outline loop in the original colour. Points are unchanged, and only full triangle or line draws are logged, every triangle draw before any line draw. Each touched batch's record grows by exactly its own draws' vertices. The line batch ends holding at least one vertex, and so does the triangle batch when n >= 3. For n <= 2 the triangle batch is untouched |
| `Drawing.DebugDraw.DrawCircle` | xmxGame/Headers/Display.h:482-502 | the line batch receives exactly CircleOutline: 16 chained segments, with r1 and v1 carried across iterations. Nothing else changes, and only full line draws are logged, matching the line record. The line batch ends holding at least one vertex |
| `Drawing.DebugDraw.DrawSolidCircle` | xmxGame/Headers/Display.h:504-546 | the triangle batch receives exactly CircleFill (48 vertices, each triple starting at the centre). The line batch receives CircleOutline followed by (centre, centre + radius * axis), 34 vertices. Points are unchanged. Each record grows by exactly its topology's logged vertices, and every triangle draw is logged before any line draw. Both batches end holding at least one vertex |
| `Drawing.DebugDraw.FillCircle` | xmxGame/Headers/Display.h:504-526 | the fill loop of DrawSolidCircle appends exactly CircleFill to the triangle batch, leaves lines and points unchanged, and logs only full triangle draws whose vertices match the triangle record. The triangle batch ends holding at least one vertex |
| `Drawing.DebugDraw.FillTriangle` | xmxGame/Headers/Display.h:467-469 | one fan triangle appends exactly its three vertices in one colour to the triangle batch and nothing elsewhere. The batch ends holding at least one vertex, and any draw is full and matches the record |
| `Drawing.DebugDraw.DrawSegment` | xmxGame/Headers/Display.h:548-552 | the line batch receives exactly (p1, p2) in the given colour. Nothing else changes. The batch ends holding at least one vertex, and any draw is full and matches the record |
| `Drawing.DebugDraw.DrawTransform` | xmxGame/Headers/Display.h:554-568 | the line batch receives a red pair (p, p + 0.4 x-axis), then a green pair (p, p + 0.4 y-axis). The line batch ends holding at least one vertex, and any draw is full and matches the record |
| `Drawing.DebugDraw.DrawPoint` | xmxGame/Headers/Display.h:570-573 | the point batch receives exactly one vertex with the given position, colour and size. Lines and triangles are unchanged. The point batch ends holding at least one vertex, so 512 points into an empty batch draw nothing |
| `Drawing.SegmentFillsLineBuffer` | xmxGame/Headers/Display.h:548-552 | a segment drawn onto 1022 pending line vertices leaves all 1024 pending and logs nothing |
| `Drawing.OtherTopologies` | xmxGame/Headers/Display.h:461-480 | a triangle phase followed by a line phase keeps both records in step with the whole log and puts every triangle draw first |
| `Drawing.FlushRecords` | xmxGame/Headers/Display.h:575-580 | when a log extension is a triangle part, then a line part, then a point part, each batch's record follows its own part across the whole extension |
| `Drawing.DebugDraw.Flush` | xmxGame/Headers/Display.h:575-580 | the log grows by the triangle batch's draw, then the line batch's, then the point batch's, each only if that batch was non-empty. All three counts end at 0 and nothing appended is lost. Each batch's record grows by exactly the vertices of its own draw |

## Left out

- OpenGL is not modelled: program creation, uniform lookup, vertex-array and buffer objects, `glBufferData`/`glBufferSubData` uploads, `glUniformMatrix4fv`, and the blend and point-size toggles around each draw. A draw is a `DrawCall` appended to the ghost log of the `Gpu` object. The logged centre determines the projection uniform through `BuildProjectionMatrix`.
- `Destroy` of the batches and of `DebugDraw`, and `~DebugDraw`'s null checks, are not modelled: they only release GL handles. The point batch's `Destroy` deletes 2 of the 3 buffers it generated, a leak that touches no modelled state.
- Shader loading and compilation (`xmxGame/Headers/Shader.h`) are file I/O and a foreign library, so they are not modelled. A failed program handle is allowed to propagate and is not modelled either.
- `xmxGame/xmxGame/main.cpp` (window, input, Box2D world and stepping, the camera-x clamp driven by the keyboard) is not part of this model.
- Floating point is not modelled: positions, colours, sizes and the matrix are exact reals, so float32 rounding is left out.
- `sinf` and `cosf` of 2*pi/16 are not computed. They are the `step` rotation that `DebugDraw.Create` receives, so circle facts are structural (counts, chaining, centre, colour) and do not claim the points lie on the circle.
- The global `cam` and `draw` become explicit objects. Each batch holds its camera and GL context.
- `DebugDraw()` and `DebugDraw::Create()` are merged into one constructor.
- The point batch keeps positions, colours and sizes in three parallel arrays (`vboV`, `vboC`, `vboS`); here they are one array of `VertexData` records. This is the same data at the same indices.
- `DrawSolidPolygon` and `DrawSolidCircle` repeat the outline loop of `DrawPolygon` and `DrawCircle` inline; the model calls those methods instead. The loop bodies' `Vertex` pairs and triples are grouped into `DrawSegment` and `FillTriangle`, with the same vertices in the same order.
- `Batching.Batch.Vertex`: its contract spells out `Push`'s two cases without naming `Push`, to keep its callers' proofs small. `Batch.VertexAll` connects runs of calls to `Feed`.
- `int32` counters cannot overflow here, since counts never exceed 1536, so they are plain naturals.
