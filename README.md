# Scale tool for bounding boxes: a Dafny model

This project models TrenchBroom's scale tool (`common/src/View/ScaleObjectsTool.cpp`).
The tool lets the user grab a side, edge or corner handle of the selection's bounding box and drag it.

The model has four modules:

- `Geometry` (`geometry.dfy`): 3-vectors, axis-aligned boxes and rays over reals. It also has the predicates the contracts use: axis directions, sign vectors, box vertices and containment.
- `BBoxFeatures` (`bbox_features.dfy`): the catalogue of the unit cube's 6 sides, 12 edges and 8 corners. It also maps a feature onto a concrete box (a corner to a vertex, an edge to a pair of vertices, a side to its normal), and holds `moveBBoxFace`.
- `MapDocument` (`map_document.dfy`): a stand-in for the map document the tool drives. It holds the selection count, the selection bounds, the grid's snap and the `scaleObjectsBBox` command. Every begin, commit, cancel and scale call is recorded in a log. Cancelling a transaction restores the selection bounds saved when that transaction began.
- `ScaleObjects` (`scale_objects_tool.dfy`): the hit datatype, and the tool itself as a class with the fields `dragStartHit`, `bboxAtDragStart`, `dragOrigin`, `totalDelta` and `resizing`. Its methods are `Applies`, `Pick2D`, the guard of `Pick3D`, `BeginResize`, `Resize`, `CommitResize` and `CancelResize`.

Two invariants tie the tool to the document:

- `Valid()`: while a drag is in progress, it owns exactly one open transaction, nested innermost inside whatever transactions were already open when the drag began. Its log so far is one "Resize Brushes" begin followed only by scale edits.
- `Tracks()`: the accumulated delta accounts for the selection bounds. After a face drag, the bounds are the drag-start box with that face moved by `totalDelta`. After any other drag, nothing has moved.

External computations are parameters of the model:

- the ray/handle picking, as `pickHandles`;
- `Ray3::distanceToLine`, as `distanceToLine`;
- `Grid::snap`, as `Document.snap`;
- the acceptance decision of `scaleObjectsBBox`, as `Document.canScale`.

## Model

| member | source | states |
|---|---|---|
| `BBoxFeatures.AllSides` | common/src/View/ScaleObjectsTool.cpp:47-59 | The side catalogue has exactly 6 entries, and every entry's normal is one of the six axis directions. |
| `BBoxFeatures.AllSidesExactly` | common/src/View/ScaleObjectsTool.cpp:47-59 | A normal is in the side catalogue if and only if it is an axis direction, and no side is listed twice. |
| `BBoxFeatures.AllEdges` | common/src/View/ScaleObjectsTool.cpp:65-77 | The edge catalogue has exactly 12 entries, and each one joins two unit-cube vertices that differ on exactly one axis. |
| `BBoxFeatures.AllEdgesExactly` | common/src/View/ScaleObjectsTool.cpp:65-77 | Two vertices are adjacent if and only if the catalogue lists their edge in one direction or the other, and no segment is listed twice. |
| `BBoxFeatures.AllCorners` | common/src/View/ScaleObjectsTool.cpp:79-91 | The corner catalogue has exactly 8 entries, and each is a sign vector in {-1,+1}^3. |
| `BBoxFeatures.AllCornersExactly` | common/src/View/ScaleObjectsTool.cpp:79-91 | A vector is in the corner catalogue if and only if it is a sign vector, and no corner is listed twice. |
| `BBoxFeatures.NormalForBBoxSide` | common/src/View/ScaleObjectsTool.cpp:61-63 | For a catalogue side, the drag axis is an axis direction of unit length. |
| `BBoxFeatures.CornerPoint` | common/src/View/ScaleObjectsTool.cpp:93-101 | The corner's point is a vertex of the box: each coordinate is the box's min or max. It lies inside the box whenever min <= max. |
| `BBoxFeatures.PointForBBoxCorner` | common/src/View/ScaleObjectsTool.cpp:93-101 | The three-step loop takes max[i] where the sign is +1 and min[i] otherwise, and so returns exactly `CornerPoint`. |
| `BBoxFeatures.CornerPointRecoversCorner` | common/src/View/ScaleObjectsTool.cpp:93-101 | On a box with positive extent, the corner can be read back from its point, so distinct corners give distinct vertices. |
| `BBoxFeatures.EveryVertexIsACornerPoint` | common/src/View/ScaleObjectsTool.cpp:79-101 | Every vertex of any box is the point of some corner in the catalogue. |
| `BBoxFeatures.PointsForBBoxEdge` | common/src/View/ScaleObjectsTool.cpp:108-111 | Gives the points of `point0` and then `point1`. They agree on every axis where the two sign vectors agree, and lie in the box when min <= max. |
| `BBoxFeatures.MoveBBoxFace` | common/src/View/ScaleObjectsTool.cpp:135-148 | For a + side, `min` is unchanged and only `max` on that axis moves, by delta on that axis. For a - side, `max` is unchanged and only `min` on that axis moves. |
| `BBoxFeatures.MoveBBoxFaceUnchanged` | common/src/View/ScaleObjectsTool.cpp:135-148 | The box is unchanged if and only if delta is zero on the face's axis; in particular a zero delta changes nothing. |
| `BBoxFeatures.MoveBBoxFaceCompose` | common/src/View/ScaleObjectsTool.cpp:135-148 | Two moves of the same face add up, and moving back by the negated delta restores the box. |
| `BBoxFeatures.DragFaceAlongNormal` | common/src/View/ScaleObjectsTool.cpp:382-390 | Moving a face by t times its normal grows the box by t on that axis and leaves the other extents alone. The box stays valid if and only if t >= -extent. |
| `MapDocument.Document.BeginTransaction` | common/src/View/ScaleObjectsTool.cpp:344-345 | Appends one begin with the given name to the log, and saves the current selection bounds. |
| `MapDocument.Document.CommitTransaction` | common/src/View/ScaleObjectsTool.cpp:414-419 | Appends one commit and drops the innermost saved bounds. |
| `MapDocument.Document.CancelTransaction` | common/src/View/ScaleObjectsTool.cpp:414-426 | Appends one cancel and restores the selection bounds saved at the matching begin. |
| `MapDocument.Document.ScaleObjectsBBox` | common/src/View/ScaleObjectsTool.cpp:397-400 | On success, sets the bounds to the new box and logs the edit. On failure, changes nothing. |
| `MapDocument.ScalesKeepOpenCount` | common/src/View/ScaleObjectsTool.cpp:397-400 | Scale edits neither open nor close a transaction. |
| `MapDocument.SessionIsBalanced` | common/src/View/ScaleObjectsTool.cpp:320-429 | A begin, then scale edits, then one commit or cancel, leaves the open-transaction count as it was before. |
| `ScaleObjects.DragNormal` | common/src/View/ScaleObjectsTool.cpp:356-367 | The drag axis of a catalogue side, edge or corner is never the zero vector; for a side it is an axis direction. |
| `ScaleObjects.ScaleObjectsTool.constructor` | common/src/View/ScaleObjectsTool.cpp:150-158 | The tool starts idle with no start hit, on a document with any number of transactions open. |
| `ScaleObjects.ScaleObjectsTool.Applies` | common/src/View/ScaleObjectsTool.cpp:164-167 | Returns true if and only if at least one node is selected. |
| `ScaleObjects.ScaleObjectsTool.Pick2D` | common/src/View/ScaleObjectsTool.cpp:169-171 | Always returns no hit. |
| `ScaleObjects.ScaleObjectsTool.Pick3D` | common/src/View/ScaleObjectsTool.cpp:173-178 | A ray whose origin lies inside the selection bounds (inclusive) gets no hit. Otherwise the handle picking decides. |
| `ScaleObjects.ScaleObjectsTool.DragDelta` | common/src/View/ScaleObjectsTool.cpp:374-385 | A step proposes no delta exactly when the pick ray is parallel to the drag axis. A face drag's delta lies along that face's axis, so it moves only that face. |
| `ScaleObjects.ScaleObjectsTool.SessionClosesBalanced` | common/src/View/ScaleObjectsTool.cpp:414-429 | Once the drag's log segment is a whole session, the document has as many transactions open as before the drag began. |
| `ScaleObjects.ScaleObjectsTool.BeginResize` | common/src/View/ScaleObjectsTool.cpp:320-348 | With no hit: returns false and changes nothing in the tool or the document. With a hit: returns true; records the hit, the current bounds and the hit point; zeroes the delta; logs exactly one "Resize Brushes" begin, nested one level inside whatever was open; and sets `resizing`. |
| `ScaleObjects.ScaleObjectsTool.Resize` | common/src/View/ScaleObjectsTool.cpp:350-412 | Always returns true. A parallel ray, an edge hit or a corner hit changes nothing. A face hit asks the document to scale from the current bounds to the drag-start box with the face moved by snap(distance) times the normal. On success the delta becomes that net offset; on failure everything is unchanged. Preserves `Tracks()`. Uses the corrected accumulation (see Findings). |
| `ScaleObjects.ScaleObjectsTool.ResizeAsWritten` | common/src/View/ScaleObjectsTool.cpp:350-412 | The same as `Resize`, except that an accepted delta is added to `totalDelta`, as the source does at line 398. |
| `ScaleObjects.ScaleObjectsTool.CommitResize` | common/src/View/ScaleObjectsTool.cpp:414-422 | Logs exactly one cancel when `totalDelta` is zero and one commit otherwise, then clears `resizing`. Afterwards the drag's log segment is a complete session. The transactions open, and their saved bounds, are again those that were open before the drag began. Under `Tracks()`, it cancels exactly when the bounds equal the drag-start box, so it never discards a change. |
| `ScaleObjects.ScaleObjectsTool.CancelResize` | common/src/View/ScaleObjectsTool.cpp:424-429 | Always logs exactly one cancel and clears `resizing`. The transactions open, and their saved bounds, are again those that were open before the drag began, and the bounds return to the drag-start box. |
| `ScaleObjects.DragPlusXFaceByOne` | common/src/View/ScaleObjectsTool.cpp:320-422 | Dragging the +X face of [(0,0,0),(2,2,2)] out by one snapped unit and committing gives [(0,0,0),(3,2,2)] and a commit. |
| `ScaleObjects.AsWrittenOutAndBack` | common/src/View/ScaleObjectsTool.cpp:388-400 | As written, steps of +1 then -1 on the +X face leave the box at [(0,0,0),(1,2,2)] while `totalDelta` is zero. |
| `ScaleObjects.AsWrittenCancelsNetResize` | common/src/View/ScaleObjectsTool.cpp:388-419 | As written, that drag's commit logs a cancel, and the bounds return to [(0,0,0),(2,2,2)]: the resize is lost. |
| `ScaleObjects.NetResizeCommits` | common/src/View/ScaleObjectsTool.cpp:388-419 | With the corrected accumulation, the same drag commits and keeps [(0,0,0),(1,2,2)]. |

## Left out

- Ray picking of corners, edges and face polygons (`pickPointHandle`, `pickLineSegmentHandle`, `intersectPolygonWithRay`, lines 180-225) uses floating-point tolerances and the pick result's hit ordering, which is not shown.
- `ScaleObjects.ScaleObjectsTool.Pick3D`: states only the origin-inside guard. Picking outside the box is the `pickHandles` parameter.
- `ScaleObjects.ScaleObjectsTool.BeginResize`: takes the hit already selected from the pick result (`query().type(...).occluded().first()`); that query is not modelled. The unused `split` argument is omitted.
- `ScaleObjects.DragNormal`: the edge and corner axes are not normalised. `normalForBBoxEdge` and `normalForBBoxCorner` normalise with a square root. This only scales the line distance of edge and corner drags, which change nothing.
- `Ray3::distanceToLine` and `Grid::snap` are library maths and are taken as given functions. So is the decision of `scaleObjectsBBox`.
- `polygonForBBoxSide`, `dragPolygon`, `hasDragPolygon`, `updateDragFaces` and `collectDragFaces` are left out. They depend on the unshown `eachBBoxFace` order and on floating-point vector equality, or they return empty stubs.
- The order in which the unshown `eachBBoxFace`, `eachBBoxEdge` and `eachBBoxVertex` visit features is not modelled. The catalogues use an order of their own, and only their size, distinctness and completeness are stated.
- Observer binding and unbinding, and the `nodesDidChange` and `selectionDidChange` handlers, are left out because their bodies are empty. `doCreatePage`, `m_toolPage`, the `printf`/`std::cout` logging, and the `#if 0` and commented-out code are left out too.
- The document is a stand-in. It is always live (the weak-pointer `lock` is not modelled). Its cancel is assumed to roll the selection bounds back to their value at the matching begin. An accepted `scaleObjectsBBox(from, to)` is assumed to set the selection bounds to exactly `to`. `CommitResize`'s promise never to discard a change rests on both assumptions.
- Coordinates are reals, not doubles. `Vec3::null()` and the `n == Vec3::PosX` comparisons are modelled as exact equality, with no epsilon.
- `BBoxFeatures.MoveBBoxFace`: requires the side normal to be an axis direction, where the source asserts (`assert(0)`, returning a default box in release builds).
- `BBoxFeatures.CornerPoint`, `BBoxFeatures.PointForBBoxCorner` and `BBoxFeatures.PointsForBBoxEdge`: require sign vectors, where the source asserts each component is +1 or -1.
- `ScaleObjects.ScaleObjectsTool.BeginResize`: requires the hit's target to be a feature from the catalogues, as the picking produces.
- `ScaleObjects.ScaleObjectsTool.BeginResize`: requires that no drag is in progress, and `Resize`, `CommitResize` and `CancelResize` require one. The source has no guard. The model treats calls out of this order as caller errors.
- `Source/Renderer/GridRenderer.cpp`, `Core/Source/Model/Assets/Texture.h`, `Source/View/Inspector.cpp` and `common/src/Model/MergeNodesIntoWorldVisitor.h` are not part of this model. They cover rendering, texture upload, UI layout and declarations only.

## Findings

| source | as written | input that shows it | evidently intended | confidence | as-written member | corrected member |
|---|---|---|---|---|---|---|
| common/src/View/ScaleObjectsTool.cpp:390-398 | Each step's face delta is measured from the drag-start box (line 390), yet an accepted step adds it to `m_totalDelta` (line 398). `m_totalDelta` is therefore a sum of absolute offsets, not the net change. | Box [(0,0,0),(2,2,2)], drag +X, snapped distances +1 then -1, both accepted: the box ends at [(0,0,0),(1,2,2)] but `m_totalDelta` is zero. `commitResize` then cancels the transaction and rolls the resize back. | `m_totalDelta` holds the net offset of the latest accepted step, so that `commitResize` commits exactly when the box changed. | medium, not executed | `ScaleObjects.AsWrittenCancelsNetResize` | `ScaleObjects.ScaleObjectsTool.Resize` |
