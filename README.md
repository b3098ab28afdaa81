# TriangleMeshShaper, modelled in Dafny

This project models the mesh-normalisation engine of OpenHRP's VRML parser,
`TriangleMeshShaper`. The engine turns the geometry of a VRML Shape node into
an IndexedFaceSet in which every face is a triangle. It has four parts, and
the model covers all four:

- **Face-stream triangulation** (`convertIndexedFaceSet`,
  `addTrianglesDividedFromPolygon`). The flat `coordIndex` stream is scanned.
  A negative entry ends a face. Each face is buffered in the member vector
  `polygon` and re-emitted as triangles of three indices followed by -1.
  Alongside, two tables are built: `indexPositionMap` (new stream position to
  old position, -1 at terminators) and `faceIndexMap` (new triangle to old
  face).
- **Attribute remapping** (`checkAndRemapIndices`,
  `remapDirectMapObjectsPerFaces`). The color and normal index arrays, or the
  per-face value arrays, are rebuilt from those two tables, with bound checks.
- **Primitive meshers** (`convertBox`, `convertCone`, `convertCylinder`,
  `convertSphere`, `convertElevationGrid`, `convertExtrusion`). Each fills a
  fresh IndexedFaceSet with vertices and triangles.
- **Shape dispatch and the original-geometry registry** (`convertShapeNode`,
  `getOriginalGeometry`).

Modules:

- `Streams` (streams.dfy): a triangle `Tri`, and `Flatten`, which gives the
  sentinel-terminated stream of a triangle list. `TriangleStream(s, n)` is
  the post-conversion invariant: -1 at every fourth slot and a vertex index
  in [0, n) everywhere else.
- `Scene` (scene.dfy): the geometry variants, the IndexedFaceSet node
  (`FaceSet`, a class whose fields are rewritten in place) and the Shape
  node (`Shape`, whose geometry field is replaced). `Scene.Shape`'s
  constructor only sets the geometry field; it is scaffolding that stands
  for the parser building the node, and it models no line of the engine.
- `Triangulation` (triangulation.dfy): the polygon division table and the
  coordIndex loop, stated as a pure scan (`Scan`), with its properties.
- `Remap` (remap.dfy): the attribute remapping, stated as functions of the
  split's two tables.
- `Primitives` (primitives.dfy): the vertex lists and triangle lists the
  meshers build, with their counts and index bounds.
- `Shaper` (shaper.dfy): the class `TriangleMeshShaper`. It holds the member
  vectors and the registry. Its methods run the source's loops, and each is
  proved equal to the specification functions above.

Behaviour of the code that the model keeps as written:

- A face of fewer than three or more than four vertices is dropped without
  failing the conversion. Conversion goes on with the next face.
- The "five or more vertices" diagnostic never fires. Its branch tests the
  triangle count, which is still -1 at that point.
- Indices after the last terminator are never flushed. They stay in
  `polygon`.
- `polygon` is not cleared when an out-of-range index ends the scan early.
  Its leftover indices are glued to the first face of the next conversion.
  That is why `ConvertIndexedFaceSet` is specified from `old(polygon)`.
- Trailing indices glue onto the next conversion in the same way, even after
  a successful one. So converting a conversion's output again on the same
  shaper can change it: `Shaper.ReconversionAfterTrailingIndices` shows a
  second conversion that fails with an empty coordIndex.
- Failure is not atomic. `coordIndex` is cleared before the indices are
  checked, so a failed conversion leaves the triangles emitted so far in it.
- The sphere's side-band loop runs one band too many. For a division number
  N >= 3 it emits vertex index N*N - 1, which is beyond the (N-1)*N + 2
  vertices. The model proves this overrun.

Behaviour a reader might expect from the code's own notes, and what the
code does instead (the model follows the code):

- The note on `addTrianglesDividedFromPolygon` (line 289) says only
  triangles and quads are supported. One might expect any other face to
  fail the conversion. The code drops such a face (line 222) and carries on.
- One might expect a failed conversion to leave the node as it was and the
  scratch vectors cleared for the next shape. On the in-place IndexedFaceSet
  path neither holds: `coordIndex` is cleared at line 194, and the early
  return at line 212 skips the clearing of `polygon` at line 240.
- One might expect an elevation grid to have xDimension * zDimension
  vertices. Its loops run max(0, dimension) times, so the model counts
  `Pos(xDimension) * Pos(zDimension)`, where `Pos` is max(0, ·). Two
  negative dimensions whose product matches the height count give a grid
  with no vertices.
- A grid that passes the dimension check, but has one dimension 0 and the
  other at least 2, reserves a negative index capacity at line 648. That
  throws std::length_error.
- The sphere has N - 1 rings of vertices, so there are N - 2 gaps between
  them. Yet the band loop at line 605 runs N - 1 times, and its last band
  reaches past the last ring.

## Model

| member | source | states |
|---|---|---|
| Triangulation.DividePolygon | OpenHRP/Parser/TriangleMeshShaper.cpp:293-333 | no triangles (the -1 result) exactly when the polygon has fewer than 3 or more than 4 vertices, else size - 2 triangles over polygon positions; a triangle passes through as {0,1,2}; a quad is cut along the shorter diagonal ({0,1,2},{0,2,3} or {0,1,3},{1,2,3}): both triangles contain that diagonal's ends, every corner is used, and winding order is kept |
| Triangulation.DivisionDiagnostic | OpenHRP/Parser/TriangleMeshShaper.cpp:296-330 | a diagnostic is reported exactly for polygons of fewer than 3 vertices; the five-or-more message is never reported, because its test reads the triangle count |
| Triangulation.BadArityFaceDropped | OpenHRP/Parser/TriangleMeshShaper.cpp:218-241 | the terminator of a face of bad arity adds nothing to the new stream, indexPositionMap or faceIndexMap; it empties `polygon` and advances the face ordinal and the face start position |
| Triangulation.ScanFailsIff | OpenHRP/Parser/TriangleMeshShaper.cpp:205-213 | the scan fails if and only if some scanned coordIndex entry is at least the vertex count |
| Triangulation.ScanFrozen | OpenHRP/Parser/TriangleMeshShaper.cpp:209-213 | once an out-of-range index has been met, later entries change nothing: the loop has returned |
| Triangulation.ScanBasic | OpenHRP/Parser/TriangleMeshShaper.cpp:215-241 | for any leftover buffer: the three outputs stay parallel, every emitted index is non-negative, and faceIndexMap is non-decreasing and below the number of faces seen |
| Triangulation.SentinelExactly | OpenHRP/Parser/TriangleMeshShaper.cpp:224-232 | a stream of emitted triangles holds -1 at a slot exactly when the slot is every fourth one |
| Triangulation.ScanFaithful | OpenHRP/Parser/TriangleMeshShaper.cpp:205-242 | from an empty buffer: every emitted index is below the vertex count; indexPositionMap names the authored position each index was read from; all three positions of new triangle t lie in authored face faceIndexMap[t] |
| Triangulation.ScanTriangleAt | OpenHRP/Parser/TriangleMeshShaper.cpp:224-236 | the facts of ScanFaithful for one new triangle of a whole scan |
| Triangulation.TrailingIndicesBuffered | OpenHRP/Parser/TriangleMeshShaper.cpp:215-216 | indices after the last terminator only extend `polygon`; the stream and both tables are those at the terminator |
| Triangulation.RescanTriangleStream | OpenHRP/Parser/TriangleMeshShaper.cpp:205-242 | scanning a stream that is already all triangles gives the same stream back, the identity position table and one face per triangle |
| Triangulation.LeftoverBufferLeaks | OpenHRP/Parser/TriangleMeshShaper.cpp:209-216 | a stale index left in `polygon` by an earlier call joins the next call's first face; here the scan succeeds yet emits an index outside the new mesh |
| Triangulation.FailureLeavesPartialStream | OpenHRP/Parser/TriangleMeshShaper.cpp:192-213 | an out-of-range index after a complete face fails the scan with that face's triangle already in the new stream |
| Remap.FirstUncovered | OpenHRP/Parser/TriangleMeshShaper.cpp:343-348 | the first new triangle whose old face has no value: every earlier face has one, and this one does not |
| Remap.PerVertexCornersKeepAttributes | OpenHRP/Parser/TriangleMeshShaper.cpp:388-404 | after a split, corner m of new triangle t has the vertex index and, when the rebuild succeeds, the attribute index that the authored stream had at one and the same position; each terminator slot gets -1 |
| Remap.PerFaceTrianglesKeepAttributes | OpenHRP/Parser/TriangleMeshShaper.cpp:405-418 | new triangle t gets the per-face index of the authored face that all three of its corners come from |
| Remap.DirectValuesFollowFaces | OpenHRP/Parser/TriangleMeshShaper.cpp:336-352 | direct per-face values: the copy covers every new triangle if and only if every old face has a value, and each copied triangle holds its old face's value |
| Remap.DirectVerdictIgnored | OpenHRP/Parser/TriangleMeshShaper.cpp:378-384 | a direct per-face remap with a missing value still reports success, because the copy's false result is dropped; the uncovered slot keeps what `resize` left |
| Shaper.ConversionStopsAtBadIndex | OpenHRP/Parser/TriangleMeshShaper.cpp:192-213 | an index at least the vertex count makes the conversion fail; only coordIndex has changed, and colors, normals and their indices are untouched |
| Shaper.ConversionSucceededOnVertices | OpenHRP/Parser/TriangleMeshShaper.cpp:205-254 | a successful conversion saw only vertex indices and produced at least one triangle: the result is false on an empty new stream |
| Shaper.ConversionTriangulates | OpenHRP/Parser/TriangleMeshShaper.cpp:224-236 | with an empty buffer and valid indices, the new coordIndex is all triangles over the node's own vertices; its length is that of indexPositionMap and 4 x the length of faceIndexMap; faceIndexMap is non-decreasing; the vertices stay put |
| Shaper.ConversionPositions | OpenHRP/Parser/TriangleMeshShaper.cpp:224-232 | indexPositionMap[p] is -1 exactly at terminator slots; elsewhere the authored coordIndex at indexPositionMap[p] equals the new coordIndex at p |
| Shaper.ConversionOfTriangles | OpenHRP/Parser/TriangleMeshShaper.cpp:187-242 | converting a node whose coordIndex is already all triangles keeps coordIndex, maps every slot to itself and makes every triangle its own face |
| Shaper.ConversionIdempotent | OpenHRP/Parser/TriangleMeshShaper.cpp:187-255 | from an empty `polygon` buffer, converting the output of a conversion again (also from an empty buffer) leaves coordIndex unchanged |
| Shaper.ReconversionAfterTrailingIndices | OpenHRP/Parser/TriangleMeshShaper.cpp:187-255 | without the empty buffer idempotence fails: coordIndex [0, 1, 2, -1, 0, 1] over three points converts to [0, 1, 2, -1] and leaves [0, 1] in `polygon`, and converting that output again on the same shaper drops the five-vertex face [0, 1, 0, 1, 2] and fails with an empty coordIndex |
| Shaper.AddVertex | OpenHRP/Parser/TriangleMeshShaper.cpp:260-268 | appends the vertex and returns its index, the old vertex count |
| Shaper.AddTriangle | OpenHRP/Parser/TriangleMeshShaper.cpp:270-276 | appending three indices and -1 to the stream of a triangle list gives the stream of that list plus the triangle |
| Streams.UnflattenFlatten | OpenHRP/Parser/TriangleMeshShaper.cpp:270-276 | the stream of three indices and -1 per triangle that addTriangle writes reads back as the same triangle list |
| Streams.FlattenUnflatten | OpenHRP/Parser/TriangleMeshShaper.cpp:270-276 | conversely, every all-triangle stream is the one written for the triangles read from it |
| Shaper.EmitTriangles | OpenHRP/Parser/TriangleMeshShaper.cpp:224-232 | the loop over a face's triangles appends their vertex indices, read through the polygon, to the stream and their authored positions to indexPositionMap |
| Shaper.EmitTriangle | OpenHRP/Parser/TriangleMeshShaper.cpp:225-231 | one triangle: three vertex indices and three authored positions, each list then -1 |
| Shaper.EmitFace | OpenHRP/Parser/TriangleMeshShaper.cpp:222-236 | one face: its triangles onto the stream and indexPositionMap, and one faceIndexMap entry per triangle holding the face ordinal |
| Scene.FaceSet.constructor | OpenHRP/Parser/TriangleMeshShaper.cpp:148-149 | a new IndexedFaceSet with an empty Coordinate node and VRML default fields |
| Shaper.TriangleMeshShaper.constructor | OpenHRP/Parser/TriangleMeshShaper.cpp:31-35 | division number 20, normal generation on, empty member vectors and registry |
| Shaper.TriangleMeshShaper.SetDivisionNumber | OpenHRP/Parser/TriangleMeshShaper.cpp:45-48 | sets the division number and nothing else |
| Shaper.TriangleMeshShaper.SetNormalGenerationMode | OpenHRP/Parser/TriangleMeshShaper.cpp:56-59 | sets the normal-generation flag and nothing else |
| Shaper.TriangleMeshShaper.GetOriginalGeometry | OpenHRP/Parser/TriangleMeshShaper.cpp:69-77 | the registry entry for the shape if there is one, else none (the null pointer) |
| Shaper.TriangleMeshShaper.ConvertShapeNode | OpenHRP/Parser/TriangleMeshShaper.cpp:133-181 | an IndexedFaceSet with coordinates is converted in place and the registry is untouched; one without coordinates fails with nothing changed; any other geometry is dispatched to its mesher, and on success the old geometry is recorded for the shape and replaced by the fresh mesh, on failure left alone; says whether normals are to be generated next |
| Shaper.TriangleMeshShaper.ConvertIndexedFaceSet | OpenHRP/Parser/TriangleMeshShaper.cpp:187-255 | the node's new fields, the member vectors and the result are those of the scan from the leftover `polygon`, followed by the color and normal remap |
| Shaper.TriangleMeshShaper.RemapColorsAndNormals | OpenHRP/Parser/TriangleMeshShaper.cpp:244-254 | colors, then normals, remapped through the member tables; the result is the conjunction of both verdicts |
| Shaper.TriangleMeshShaper.SplitFaces | OpenHRP/Parser/TriangleMeshShaper.cpp:192-242 | the coordIndex loop: new stream, failure flag, `polygon`, indexPositionMap and faceIndexMap equal the scan's |
| Shaper.TriangleMeshShaper.RemapDirectMapObjectsPerFaces | OpenHRP/Parser/TriangleMeshShaper.cpp:336-352 | values resized to one per new triangle, copied from the old face's value up to the first face without one; true if and only if every face has one |
| Shaper.TriangleMeshShaper.CheckAndRemapIndices | OpenHRP/Parser/TriangleMeshShaper.cpp:355-423 | the full case split: no elements with an index array fails; per-vertex with no index array fails below the vertex count; per-face with no index array synthesises per-triangle values and ignores their verdict; with an index array, rebuilds per vertex or per face with bound checks |
| Shaper.TriangleMeshShaper.RemapPerVertex | OpenHRP/Parser/TriangleMeshShaper.cpp:388-404 | the new index array has one slot per new stream position: -1 at terminators, the old index read through indexPositionMap where it is below numElements, and otherwise what `resize` left; the result is true if and only if no such bound fails |
| Shaper.TriangleMeshShaper.RemapPerFace | OpenHRP/Parser/TriangleMeshShaper.cpp:405-418 | one slot per new triangle, the old face's index where it is below numElements, otherwise what `resize` left; true if and only if every bound holds |
| Shaper.TriangleMeshShaper.ConvertBox | OpenHRP/Parser/TriangleMeshShaper.cpp:433-484 | fails with the mesh untouched on a negative size, else builds the box mesh |
| Shaper.TriangleMeshShaper.ConvertCone | OpenHRP/Parser/TriangleMeshShaper.cpp:487-521 | fails with the mesh untouched on a negative height or radius, else builds the cone mesh with crease angle 3.14 / 2 |
| Shaper.TriangleMeshShaper.ConvertCylinder | OpenHRP/Parser/TriangleMeshShaper.cpp:524-567 | fails with the mesh untouched on a negative height or radius, else builds the cylinder mesh with crease angle 3.14 / 2 |
| Shaper.TriangleMeshShaper.ConvertSphere | OpenHRP/Parser/TriangleMeshShaper.cpp:570-625 | fails with the mesh untouched on a negative radius, else builds the sphere mesh with crease angle PI |
| Shaper.TriangleMeshShaper.ConvertElevationGrid | OpenHRP/Parser/TriangleMeshShaper.cpp:631-662 | fails with the mesh untouched when xDimension * zDimension differs from the height count, or when the index capacity reserved at line 648 is negative; otherwise builds the grid mesh with the grid's crease angle |
| Shaper.TriangleMeshShaper.ConvertExtrusion | OpenHRP/Parser/TriangleMeshShaper.cpp:668-671 | always fails |
| Shaper.BoxVertices | OpenHRP/Parser/TriangleMeshShaper.cpp:444-453 | the eight corners from the sign tables, in table order |
| Shaper.BoxIndices | OpenHRP/Parser/TriangleMeshShaper.cpp:471-481 | the index array resized to 4 slots per triangle and overwritten with the triangle table's stream |
| Shaper.ConeVertices | OpenHRP/Parser/TriangleMeshShaper.cpp:496-505 | N rim vertices, then the apex at index N and the bottom centre at N + 1 |
| Shaper.ConeIndices | OpenHRP/Parser/TriangleMeshShaper.cpp:507-516 | a side and a bottom triangle per segment |
| Shaper.CylinderVertices | OpenHRP/Parser/TriangleMeshShaper.cpp:531-548 | top rim at 0..N-1 and bottom rim at N..2N-1, then the two centres at 2N and 2N + 1 |
| Shaper.CylinderIndices | OpenHRP/Parser/TriangleMeshShaper.cpp:550-562 | top, two side and bottom triangles per segment |
| Shaper.SphereVertices | OpenHRP/Parser/TriangleMeshShaper.cpp:582-594 | N - 1 rings of N vertices, then the poles at (N-1)*N and (N-1)*N + 1 |
| Shaper.SphereIndices | OpenHRP/Parser/TriangleMeshShaper.cpp:596-620 | the top fan, the side bands, the bottom fan, in that order |
| Shaper.TopFanIndices | OpenHRP/Parser/TriangleMeshShaper.cpp:599-602 | the N triangles round the north pole |
| Shaper.BandIndices | OpenHRP/Parser/TriangleMeshShaper.cpp:604-614 | N - 1 bands of 2N triangles, band i joining the rings at i*N and (i+1)*N |
| Shaper.BottomFanIndices | OpenHRP/Parser/TriangleMeshShaper.cpp:616-620 | the N triangles round the south pole over the ring at (N-2)*N |
| Shaper.GridVertices | OpenHRP/Parser/TriangleMeshShaper.cpp:638-645 | the grid points row by row, heights read at z * xDimension + x |
| Shaper.GridIndices | OpenHRP/Parser/TriangleMeshShaper.cpp:647-657 | two triangles per grid cell, strip by strip |
| Primitives.BoxCorners | OpenHRP/Parser/TriangleMeshShaper.cpp:447-453 | corner i of the box is at the signed half extents given by the bits of i (x, y, z most significant first), so all corners are in {-h, h}^3 |
| Primitives.BoxFaces | OpenHRP/Parser/TriangleMeshShaper.cpp:455-469 | triangles 2f and 2f+1 of the table lie on one box face, face outwards, and together use all four of its corners |
| Primitives.BoxSidesDistinct | OpenHRP/Parser/TriangleMeshShaper.cpp:455-469 | the six triangle pairs cover six distinct faces of the box |
| Primitives.BoxShape | OpenHRP/Parser/TriangleMeshShaper.cpp:433-484 | a valid box has 8 vertices and 12 triangles, and its stream is all triangles over them |
| Primitives.ConeShape | OpenHRP/Parser/TriangleMeshShaper.cpp:487-521 | a valid cone has N + 2 vertices and 2N triangles over them, with the apex (0, h, 0) at N and the origin at N + 1 |
| Primitives.ConeRimOnCircle | OpenHRP/Parser/TriangleMeshShaper.cpp:499-502 | given unit cos/sin values, every rim vertex lies on the bottom circle of the cone's radius |
| Primitives.CylinderShape | OpenHRP/Parser/TriangleMeshShaper.cpp:524-567 | a valid cylinder has 2N + 2 vertices and 4N triangles over them |
| Primitives.CylinderRimsAligned | OpenHRP/Parser/TriangleMeshShaper.cpp:535-545 | top rim vertex i is straight above bottom rim vertex i + N, at half the height above and below the centre |
| Primitives.SphereShape | OpenHRP/Parser/TriangleMeshShaper.cpp:579-620 | a valid sphere has (N-1)*N + 2 vertices and 2N^2 triangles (a stream of 8N^2 entries) |
| Primitives.SphereInRangeBeforeLastBand | OpenHRP/Parser/TriangleMeshShaper.cpp:599-620 | for N >= 2 the two fans and all bands but the last stay below the vertex count |
| Primitives.SphereOverrun | OpenHRP/Parser/TriangleMeshShaper.cpp:604-614 | for N >= 3 the last band emits vertex index N*N - 1, which is at least the vertex count, so the sphere's stream is not a valid triangle stream |
| Primitives.SphereOneDivision | OpenHRP/Parser/TriangleMeshShaper.cpp:616-620 | with one division the bottom fan sits on a ring at index -1, so -1 appears in vertex slots |
| Primitives.GridShape | OpenHRP/Parser/TriangleMeshShaper.cpp:631-662 | a valid grid has Pos(xDimension) * Pos(zDimension) vertices and 2 * Pos(xDimension-1) * Pos(zDimension-1) triangles over them |
| Primitives.GridMesh | OpenHRP/Parser/TriangleMeshShaper.cpp:633-648 | a grid mesh is built exactly when the dimension check passes and the reserved index capacity (zDimension-1)*(xDimension-1)*8 is not negative |
| Primitives.GridReserveThrows | OpenHRP/Parser/TriangleMeshShaper.cpp:633-648 | for a grid that passes the dimension check, the index reservation is negative exactly when one dimension is 0 and the other is at least 2; such a grid has no vertices, so nothing has been added to the mesh by then |
| Primitives.PrimitiveMesh | OpenHRP/Parser/TriangleMeshShaper.cpp:146-168 | the mesher chosen by geometry kind; an Extrusion or any other node gives no mesh; a built mesh has coordinates and no colors or normals |
| Primitives.PrimitiveTriangulated | OpenHRP/Parser/TriangleMeshShaper.cpp:146-168 | every mesher but the sphere's yields an all-triangle stream over its own vertices |

## Left out

- Normal generation (`generateNormals`, `calculateFaceNormals`,
  `calculateVertexNormals`, `setFaceNormals`, TriangleMeshShaper.cpp lines
  674-871) is built on floating-point cross products, normalisation and
  tolerances. `ConvertShapeNode` returns whether it would be called next,
  and does not call it.
- Scene traversal (`apply`, `traverseShapeNodes`, lines 92-130) depends on
  node category tests and on the child-removal contract of the group
  container. That container is not part of this model.
- Diagnostics (`putMessage`, `putError1`, `sigMessage`) are a signal
  broadcast. Only the division diagnostic is modelled
  (`Triangulation.DivisionDiagnostic`), to show the quirk of its last branch.
- Floating point. Coordinates are `real`, so products and halvings are
  exact. The cos/sin values of the curved primitives are an input table
  (`Scene.Trig`). The quad's diagonal comparison is an input predicate on
  its four vertex indices (`Triangulation.DiagonalTest`); the vertex
  positions behind it are not read.
- Integer width. `int` is unbounded, so 32-bit overflow of products such as
  xDimension * zDimension, and of the cast of the height count, is not
  modelled.
- Shaper.TriangleMeshShaper.SetDivisionNumber: the division number is a
  `nat`. With a negative one, the cone (its vertex `reserve` at line 497, or
  its index `reserve` at line 508 when the number is -1) and the cylinder
  (its `reserve` at line 532, or its `resize` at line 533 when the number is
  -1) throw std::length_error. The sphere
  does not throw: both of its reservations are positive, every loop is
  empty, and it returns true with only the two pole vertices and an empty
  coordIndex. None of this is modelled.
- Shaper.TriangleMeshShaper.ConvertIndexedFaceSet: an index left in
  `polygon` by an earlier call can lie beyond the new node's vertex count
  (`Triangulation.LeftoverBufferLeaks`). When such an index completes a
  quad, the source reads the vertex at that index past the end of the point
  array to compare the diagonals (lines 310-315). That is undefined
  behaviour. The model answers the comparison through the `DiagonalTest`
  predicate instead, and the scan goes on.
- Shaper.TriangleMeshShaper.RemapPerVertex: reading the old index array at a
  position past its end is undefined behaviour in the source. The model
  counts it as a failed bound check: the result is false and the slot keeps
  what `resize` left.
- Shaper.TriangleMeshShaper.RemapPerFace: the same treatment for a face
  ordinal past the end of the old per-face index array.
- Shaper.TriangleMeshShaper.CheckAndRemapIndices: the index and value arrays
  that the source takes by reference are returned as new arrays, and the
  caller writes them back into the node.
- Shaper.TriangleMeshShaper.CheckAndRemapIndices: a Color or Normal node is
  held as a value of its face set (`FaceSet.colors`, `FaceSet.normals`), not
  as a node reached through a pointer (lines 246, 250 and 380-382). So a
  Color or Normal node shared between several face sets, as VRML allows, is
  not modelled. Neither is the effect of the in-place per-face rewrite
  (lines 337-350) on the other users of such a node: the second face set to
  be converted would find the values already remapped to the first one's
  triangles.
- Shaper.TriangleMeshShaper.ConvertElevationGrid: when a grid passes the
  dimension check with one dimension 0 and the other at least 2, the source
  throws std::length_error out of `convertShapeNode` (line 648). The model
  reports a false result instead. As with the throw, the shape, the registry
  and the fresh mesh are left untouched. `Primitives.PrimitiveMesh` gives no
  mesh for such a grid.
- Shaper.TriangleMeshShaper.ConvertBox: the meshers are specified for the
  fresh IndexedFaceSet that `convertShapeNode` creates, which is the only
  way they are called. The same holds for ConvertCone, ConvertCylinder,
  ConvertSphere and ConvertElevationGrid.
- The registry maps a `Shape` object to the geometry it replaced. Its keys
  and values are reference-counted pointers in the source (lines 69-72 and
  171), so the registry keeps the shapes and geometries it holds alive. That
  ownership is not modelled.
- Geometry nodes other than the seven known kinds, and an absent geometry,
  are one `Unsupported` variant. Conversion of such a node fails.
- The Java UI behaviour class, the collision data-set header and the log
  exception class of the repository are not part of this model.
