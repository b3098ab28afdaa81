/** The triangle-mesh shaper: turns the geometry of a Shape node into an
    IndexedFaceSet made only of triangles, remembering the geometry it
    replaced. The class keeps the member vectors the conversion works in
    (`polygon`, `indexPositionMap`, `faceIndexMap`) and the registry of
    original geometries. */
module Shaper {
  import opened Streams
  import opened Scene
  import opened Triangulation
  import opened Remap
  import opened Primitives

  /** The outcome of converting one IndexedFaceSet in place: its new fields,
      the member vectors left behind, and the result. */
  datatype Conversion = Conversion(mesh: MeshData, polygon: seq<int>, positions: seq<int>,
                                   faces: seq<int>, ok: bool)

  /** The color and normal fields of a node with fields m, remapped through
      the split's two tables, and whether both remaps succeeded. */
  function RemappedAttributes(m: MeshData, positions: seq<int>, faces: seq<int>): (MeshData, bool)
    requires NonNegative(faces)
  {
    var nv := |m.points|;
    var col := RemapAttribute(|m.colors|, m.colorIndex, m.colorPerVertex, m.colors,
                              nv, positions, faces, Origin);
    var nor := RemapAttribute(if m.hasNormal then |m.normals| else 0, m.normalIndex, m.normalPerVertex,
                              m.normals, nv, positions, faces, Origin);
    (m.(colorIndex := col.indices, colors := col.values, normalIndex := nor.indices, normals := nor.values),
     col.ok && nor.ok)
  }

  /** convertIndexedFaceSet on a node with fields m, with `leftover` still
      in the polygon buffer: split the faces, stop at the first index that is
      not a vertex, else remap colors and normals and report whether both
      remaps succeeded and some triangle came out. */
  function ConvertedFaceSet(m: MeshData, leftover: seq<int>, test: DiagonalTest): (c: Conversion)
    requires NonNegative(leftover)
    ensures NonNegative(c.polygon) && NonNegative(c.faces)
  {
    var nv := |m.points|;
    var s := Scan(m.coordIndex, |m.coordIndex|, nv, test, leftover);
    ScanBasic(m.coordIndex, |m.coordIndex|, nv, test, leftover);
    var stream, positions := Flatten(s.triangles), Flatten(s.corners);
    if s.failed then
      Conversion(m.(coordIndex := stream), s.polygon, positions, s.faces, false)
    else
      var (remapped, ok) := RemappedAttributes(m.(coordIndex := stream), positions, s.faces);
      Conversion(remapped, s.polygon, positions, s.faces, ok && stream != [])
  }

  /** An index that is not a vertex makes the conversion fail, and then
      only coordIndex has changed: it holds the triangles emitted before the
      bad index, and colors, normals and their indices are left alone. */
  lemma ConversionStopsAtBadIndex(m: MeshData, leftover: seq<int>, test: DiagonalTest, i: int)
    requires NonNegative(leftover)
    requires 0 <= i < |m.coordIndex| && m.coordIndex[i] >= |m.points|
    ensures var c := ConvertedFaceSet(m, leftover, test);
      !c.ok && c.mesh == m.(coordIndex := c.mesh.coordIndex)
  {
    ScanFailsIff(m.coordIndex, |m.coordIndex|, |m.points|, test, leftover);
  }

  /** Conversely, a successful conversion saw only vertex indices and
      produced at least one triangle. */
  lemma ConversionSucceededOnVertices(m: MeshData, leftover: seq<int>, test: DiagonalTest)
    requires NonNegative(leftover) && ConvertedFaceSet(m, leftover, test).ok
    ensures forall i :: 0 <= i < |m.coordIndex| ==> m.coordIndex[i] < |m.points|
    ensures |ConvertedFaceSet(m, leftover, test).mesh.coordIndex| >= 4
  {
    ScanFailsIff(m.coordIndex, |m.coordIndex|, |m.points|, test, leftover);
  }

  /** With an empty polygon buffer and only vertex indices, the new coordIndex
      is all triangles over the node's own vertices, parallel to the two
      tables, with the faces in authored order; the vertices stay put. */
  lemma ConversionTriangulates(m: MeshData, test: DiagonalTest)
    requires forall i :: 0 <= i < |m.coordIndex| ==> m.coordIndex[i] < |m.points|
    ensures var c := ConvertedFaceSet(m, [], test);
      && TriangleStream(c.mesh.coordIndex, |m.points|)
      && |c.positions| == |c.mesh.coordIndex| == 4 * |c.faces|
      && NonDecreasing(c.faces)
      && c.mesh.points == m.points
  {
    var org, nv := m.coordIndex, |m.points|;
    ScanFailsIff(org, |org|, nv, test, []);
    ScanFaithful(org, |org|, nv, test);
    ScanBasic(org, |org|, nv, test, []);
    var s := Scan(org, |org|, nv, test, []);
    FlattenIsTriangleStream(s.triangles, nv);
  }

  /** Slot p of the new stream: the terminators of the new stream, and only
      they, have -1 in indexPositionMap; every other slot holds the vertex
      index found at the authored position indexPositionMap names. */
  lemma ConversionPositions(m: MeshData, test: DiagonalTest, p: int)
    requires forall i :: 0 <= i < |m.coordIndex| ==> m.coordIndex[i] < |m.points|
    requires 0 <= p < |ConvertedFaceSet(m, [], test).positions|
    ensures var c := ConvertedFaceSet(m, [], test);
      var q := c.positions[p];
      && (q == Sentinel <==> p % 4 == 3)
      && (c.mesh.coordIndex[p] == Sentinel <==> p % 4 == 3)
      && (p % 4 != 3 ==> 0 <= q < |m.coordIndex| && m.coordIndex[q] == c.mesh.coordIndex[p])
  {
    var org, nv := m.coordIndex, |m.points|;
    ScanFailsIff(org, |org|, nv, test, []);
    ScanBasic(org, |org|, nv, test, []);
    var s := Scan(org, |org|, nv, test, []);
    var t, k := p / 4, p % 4;
    assert p == 4 * t + k;
    SentinelExactly(s.corners, p);
    SentinelExactly(s.triangles, p);
    FlattenAt(s.corners, t, k);
    FlattenAt(s.triangles, t, k);
    ScanTriangleAt(org, nv, test, t);
  }

  /** Converting a node whose coordIndex is already all triangles keeps
      coordIndex as it is, maps every slot to itself and makes every
      triangle its own face. */
  lemma ConversionOfTriangles(m: MeshData, test: DiagonalTest)
    requires TriangleStream(m.coordIndex, |m.points|)
    ensures var c := ConvertedFaceSet(m, [], test);
      && c.mesh.coordIndex == m.coordIndex && c.polygon == []
      && c.faces == Ordinals(|m.coordIndex| / 4)
      && forall p :: 0 <= p < |c.positions| ==> c.positions[p] == if p % 4 == 3 then Sentinel else p
  {
    var org := m.coordIndex;
    RescanTriangleStream(org, |m.points|, test);
    var ic := IdentityCorners(|org| / 4);
    var c := ConvertedFaceSet(m, [], test);
    assert c.positions == Flatten(ic);
    forall p | 0 <= p < |c.positions| ensures c.positions[p] == if p % 4 == 3 then Sentinel else p {
      FlattenAt(ic, p / 4, p % 4);
      assert p == 4 * (p / 4) + p % 4;
    }
  }

  /** The conversion is idempotent on coordIndex: converting its own output
      again (with an empty buffer) changes nothing. */
  lemma ConversionIdempotent(m: MeshData, test: DiagonalTest)
    requires forall i :: 0 <= i < |m.coordIndex| ==> m.coordIndex[i] < |m.points|
    ensures var c := ConvertedFaceSet(m, [], test);
      ConvertedFaceSet(c.mesh, [], test).mesh.coordIndex == c.mesh.coordIndex
  {
    ConversionTriangulates(m, test);
    var c := ConvertedFaceSet(m, [], test);
    assert |c.mesh.points| == |m.points|;
    ConversionOfTriangles(c.mesh, test);
  }

  /** Idempotence needs the empty buffer: indices after the last terminator
      stay in `polygon`, and a second conversion of the output on the same
      shaper glues them to its first face. Here [0, 1] is left behind, the
      second scan sees the five-vertex face [0, 1, 0, 1, 2], drops it and
      fails with an empty coordIndex. */
  lemma ReconversionAfterTrailingIndices(v: Vec3, test: DiagonalTest)
    ensures var m := NewMesh.(points := [v, v, v], coordIndex := [0, 1, 2, -1, 0, 1]);
      var c := ConvertedFaceSet(m, [], test);
      && c.ok && c.mesh.coordIndex == [0, 1, 2, -1] && c.polygon == [0, 1]
      && var c2 := ConvertedFaceSet(c.mesh, c.polygon, test);
         !c2.ok && c2.mesh.coordIndex == [] && c2.polygon == []
  {
    var org := [0, 1, 2, -1, 0, 1];
    var s4 := Scan(org, 4, 3, test, []);
    assert s4.triangles == [Tri(0, 1, 2)] && s4.polygon == [];
    var s := Scan(org, 6, 3, test, []);
    assert s.triangles == [Tri(0, 1, 2)] && s.polygon == [0, 1] && !s.failed;
    FlattenPush([], Tri(0, 1, 2));
    var again := [0, 1, 2, -1];
    var r3 := Scan(again, 3, 3, test, [0, 1]);
    assert r3.polygon == [0, 1, 0, 1, 2] && r3.triangles == [];
    var r := Scan(again, 4, 3, test, [0, 1]);
    assert r.triangles == [] && r.polygon == [] && !r.failed;
  }

  /** The meshes a Shape's geometry can reach through convertShapeNode. */
  function MeshOf(g: Geometry): set<object>
  {
    if g.IndexedFaceSet? then {g.mesh} else {}
  }

  // ---------------------------------------------------------------------
  // The mesh-building helpers

  /** addVertex: appends a vertex and returns its index. */
  method AddVertex(vertices: seq<Vec3>, v: Vec3) returns (r: seq<Vec3>, index: int)
    ensures r == vertices + [v] && index == |vertices| && r[index] == v
  {
    r := vertices + [v];
    index := |r| - 1;
  }

  /** addTriangle: appends three indices and a terminator; on the stream of
      ts this is the stream of ts + [Tri(x, y, z)]. */
  method AddTriangle(indices: seq<int>, x: int, y: int, z: int, ghost ts: seq<Tri>) returns (r: seq<int>)
    requires indices == Flatten(ts)
    ensures r == Flatten(ts + [Tri(x, y, z)])
  {
    r := indices + [x, y, z, Sentinel];
    FlattenPush(ts, Tri(x, y, z));
  }

  /** The inner loops of the coordIndex scan for one face: for every
      triangle of the face push its three vertex indices onto `indices` and
      their old stream positions onto `positions`, then a terminator onto
      both. */
  method EmitTriangles(polygon: seq<int>, ts: seq<Tri>, top: int, indices: seq<int>, positions: seq<int>)
    returns (newIndices: seq<int>, newPositions: seq<int>)
    requires AllInRange(ts, |polygon|)
    ensures newIndices == indices + Flatten(PickAll(polygon, ts))
    ensures newPositions == positions + Flatten(ShiftAll(top, ts))
  {
    newIndices, newPositions := indices, positions;
    var numTriangles := |ts|;
    var j := 0;
    while j < numTriangles
      invariant 0 <= j <= numTriangles
      invariant newIndices == indices + Flatten(PickAll(polygon, ts)[..j])
      invariant newPositions == positions + Flatten(ShiftAll(top, ts)[..j])
    {
      var t := ts[j];
      newIndices, newPositions := EmitTriangle(polygon, t, top, newIndices, newPositions);
      assert PickAll(polygon, ts)[j] == Pick(polygon, t);
      assert ShiftAll(top, ts)[j] == Shift(top, t);
      PrefixStep(PickAll(polygon, ts), j);
      PrefixStep(ShiftAll(top, ts), j);
      j := j + 1;
    }
    assert PickAll(polygon, ts)[..j] == PickAll(polygon, ts);
    assert ShiftAll(top, ts)[..j] == ShiftAll(top, ts);
  }

  /** One triangle of a divided polygon: its three corners, read through the
      polygon, go onto the new stream and their authored positions onto
      indexPositionMap, each followed by -1. */
  method EmitTriangle(polygon: seq<int>, t: Tri, top: int, indices: seq<int>, positions: seq<int>)
    returns (newIndices: seq<int>, newPositions: seq<int>)
    requires InRange(t, |polygon|)
    ensures newIndices == indices + [polygon[t.a], polygon[t.b], polygon[t.c], Sentinel]
    ensures newPositions == positions + [top + t.a, top + t.b, top + t.c, Sentinel]
  {
    newIndices, newPositions := indices, positions;
    var k := 0;
    while k < 3
      invariant 0 <= k <= 3
      invariant newIndices == indices + seq(k, m requires 0 <= m < k => polygon[Corner(t, m)])
      invariant newPositions == positions + seq(k, m requires 0 <= m < k => top + Corner(t, m))
    {
      var indexInPolygon := Corner(t, k);
      newIndices := newIndices + [polygon[indexInPolygon]];
      newPositions := newPositions + [top + indexInPolygon];
      k := k + 1;
    }
    newIndices := newIndices + [Sentinel];
    newPositions := newPositions + [Sentinel];
  }

  /** The branch of the coordIndex loop that ends a face: the face's
      triangles go onto the new stream and indexPositionMap, and one entry
      per triangle, the face's ordinal, onto faceIndexMap. */
  method EmitFace(polygon: seq<int>, ts: seq<Tri>, top: int, face: int,
                  indices: seq<int>, positions: seq<int>, faces: seq<int>)
    returns (newIndices: seq<int>, newPositions: seq<int>, newFaces: seq<int>)
    requires AllInRange(ts, |polygon|)
    ensures newIndices == indices + Flatten(PickAll(polygon, ts))
    ensures newPositions == positions + Flatten(ShiftAll(top, ts))
    ensures newFaces == faces + Repeat(face, |ts|)
  {
    var numTriangles := |ts|;
    newIndices, newPositions := EmitTriangles(polygon, ts, top, indices, positions);
    newFaces := faces;
    var j := 0;
    while j < numTriangles
      invariant 0 <= j <= numTriangles
      invariant newFaces == faces + Repeat(face, j)
    {
      newFaces := newFaces + [face];
      j := j + 1;
      assert Repeat(face, j) == Repeat(face, j - 1) + [face];
    }
  }

  /** The stream of the first j + 1 triangles is that of the first j,
      followed by triangle j. */
  lemma PrefixStep(ts: seq<Tri>, j: int)
    requires 0 <= j < |ts|
    ensures Flatten(ts[..j + 1]) == Flatten(ts[..j]) + [ts[j].a, ts[j].b, ts[j].c, Sentinel]
  {
    assert ts[..j + 1] == ts[..j] + [ts[j]];
    FlattenPush(ts[..j], ts[j]);
  }

  class TriangleMeshShaper {
    var divisionNumber: nat
    var isNormalGenerationMode: bool
    var polygon: seq<int>
    var indexPositionMap: seq<int>
    var faceIndexMap: seq<int>
    var shapeToOriginalGeometryMap: map<Shape, Geometry>

    /** What the conversion keeps true of the member vectors: the buffered
        polygon holds vertex indices and faceIndexMap face ordinals. */
    ghost predicate Valid()
      reads this
    {
      NonNegative(polygon) && NonNegative(faceIndexMap)
    }

    constructor ()
      ensures Valid()
      ensures divisionNumber == 20 && isNormalGenerationMode
      ensures polygon == [] && indexPositionMap == [] && faceIndexMap == []
      ensures shapeToOriginalGeometryMap == map[]
    {
      divisionNumber := 20;
      isNormalGenerationMode := true;
      polygon, indexPositionMap, faceIndexMap := [], [], [];
      shapeToOriginalGeometryMap := map[];
    }

    method SetDivisionNumber(n: nat)
      modifies this
      ensures divisionNumber == n
      ensures isNormalGenerationMode == old(isNormalGenerationMode) && polygon == old(polygon)
      ensures indexPositionMap == old(indexPositionMap) && faceIndexMap == old(faceIndexMap)
      ensures shapeToOriginalGeometryMap == old(shapeToOriginalGeometryMap)
    {
      divisionNumber := n;
    }

    method SetNormalGenerationMode(on: bool)
      modifies this
      ensures isNormalGenerationMode == on
      ensures divisionNumber == old(divisionNumber) && polygon == old(polygon)
      ensures indexPositionMap == old(indexPositionMap) && faceIndexMap == old(faceIndexMap)
      ensures shapeToOriginalGeometryMap == old(shapeToOriginalGeometryMap)
    {
      isNormalGenerationMode := on;
    }

    /** The geometry a converted Shape had before, or None for a Shape this
        shaper never replaced. */
    function GetOriginalGeometry(shape: Shape): (r: Option<Geometry>)
      reads this
      ensures r.Some? <==> shape in shapeToOriginalGeometryMap
      ensures r.Some? ==> r.value == shapeToOriginalGeometryMap[shape]
    {
      if shape in shapeToOriginalGeometryMap then Some(shapeToOriginalGeometryMap[shape]) else None
    }

    // -------------------------------------------------------------------
    // Shape conversion

    /** convertShapeNode: an IndexedFaceSet with coordinates is converted in
        place; any other geometry is replaced, on success, by a new
        IndexedFaceSet, and the old geometry is recorded for the Shape. The
        second result says whether normals are to be generated next. */
    method ConvertShapeNode(shape: Shape, trig: Trig, test: DiagonalTest) returns (result: bool, normalsToGenerate: bool)
      requires Valid()
      modifies this, shape, MeshOf(shape.geometry)
      ensures Valid()
      ensures divisionNumber == old(divisionNumber) && isNormalGenerationMode == old(isNormalGenerationMode)
      ensures old(shape.geometry).IndexedFaceSet? ==>
        var faceSet := old(shape.geometry).mesh;
        && shape.geometry == old(shape.geometry)
        && shapeToOriginalGeometryMap == old(shapeToOriginalGeometryMap)
        && (if old(faceSet.hasCoord) then
              var c := ConvertedFaceSet(old(faceSet.Data()), old(polygon), test);
              && faceSet.Data() == c.mesh && result == c.ok && polygon == c.polygon
              && indexPositionMap == c.positions && faceIndexMap == c.faces
            else
              && !result && faceSet.Data() == old(faceSet.Data()) && polygon == old(polygon)
              && indexPositionMap == old(indexPositionMap) && faceIndexMap == old(faceIndexMap))
        && normalsToGenerate == (result && !faceSet.hasNormal && isNormalGenerationMode)
      ensures !old(shape.geometry).IndexedFaceSet? ==>
        var r := PrimitiveMesh(old(shape.geometry), divisionNumber, trig);
        && result == r.Some?
        && polygon == old(polygon) && indexPositionMap == old(indexPositionMap) && faceIndexMap == old(faceIndexMap)
        && (result ==>
              && shape.geometry.IndexedFaceSet? && fresh(shape.geometry.mesh)
              && shape.geometry.mesh.Data() == r.value
              && shapeToOriginalGeometryMap == old(shapeToOriginalGeometryMap)[shape := old(shape.geometry)])
        && (!result ==>
              shape.geometry == old(shape.geometry) && shapeToOriginalGeometryMap == old(shapeToOriginalGeometryMap))
        && normalsToGenerate == (result && isNormalGenerationMode)
    {
      result := false;
      var geometry := shape.geometry;
      var triangleMesh: FaceSet? := null;
      if geometry.IndexedFaceSet? {
        var faceSet := geometry.mesh;
        if faceSet.hasCoord {
          result := ConvertIndexedFaceSet(faceSet, test);
          triangleMesh := faceSet;
        }
      } else {
        var mesh := new FaceSet();
        match geometry {
          case Box(size) => result := ConvertBox(size, mesh);
          case Cone(bottomRadius, height) => result := ConvertCone(bottomRadius, height, trig, mesh);
          case Cylinder(radius, height) => result := ConvertCylinder(radius, height, trig, mesh);
          case Sphere(radius) => result := ConvertSphere(radius, trig, mesh);
          case ElevationGrid(grid) => result := ConvertElevationGrid(grid, mesh);
          case Extrusion => result := ConvertExtrusion(mesh);
          case _ =>
        }
        triangleMesh := mesh;
        if result {
          shapeToOriginalGeometryMap := shapeToOriginalGeometryMap[shape := geometry];
          shape.geometry := IndexedFaceSet(mesh);
        }
      }
      normalsToGenerate := result && !triangleMesh.hasNormal && isNormalGenerationMode;
    }

    // -------------------------------------------------------------------
    // Face-set conversion

    /** convertIndexedFaceSet: rewrites the node's coordIndex into triangles
        and remaps its color and normal fields. */
    method ConvertIndexedFaceSet(faceSet: FaceSet, test: DiagonalTest) returns (result: bool)
      requires Valid()
      modifies this, faceSet
      ensures Valid()
      ensures var c := ConvertedFaceSet(old(faceSet.Data()), old(polygon), test);
        && faceSet.Data() == c.mesh && result == c.ok && polygon == c.polygon
        && indexPositionMap == c.positions && faceIndexMap == c.faces
      ensures divisionNumber == old(divisionNumber) && isNormalGenerationMode == old(isNormalGenerationMode)
      ensures shapeToOriginalGeometryMap == old(shapeToOriginalGeometryMap)
    {
      ghost var m := faceSet.Data();
      ghost var leftover := polygon;
      var numVertices := |faceSet.points|;
      var orgIndices := faceSet.coordIndex;
      var indices, bad := SplitFaces(orgIndices, numVertices, test);
      ghost var s := Scan(orgIndices, |orgIndices|, numVertices, test, leftover);
      ScanBasic(orgIndices, |orgIndices|, numVertices, test, leftover);
      faceSet.coordIndex := indices;
      if bad {
        return false;
      }

      var ok := RemapColorsAndNormals(faceSet);
      result := ok && indices != [];
    }

    /** The remapping half of convertIndexedFaceSet, once the member vectors
        hold the split's tables. */
    method RemapColorsAndNormals(faceSet: FaceSet) returns (ok: bool)
      requires Valid()
      modifies faceSet
      ensures (faceSet.Data(), ok) == RemappedAttributes(old(faceSet.Data()), indexPositionMap, faceIndexMap)
    {
      var numVertices := |faceSet.points|;
      var numColors := |faceSet.colors|;
      var okColors, colorIndex, colors :=
        CheckAndRemapIndices(numColors, faceSet.colorIndex, faceSet.colorPerVertex, faceSet.colors, numVertices);
      var numNormals := if faceSet.hasNormal then |faceSet.normals| else 0;
      var okNormals, normalIndex, normals :=
        CheckAndRemapIndices(numNormals, faceSet.normalIndex, faceSet.normalPerVertex, faceSet.normals, numVertices);
      faceSet.colorIndex, faceSet.colors := colorIndex, colors;
      faceSet.normalIndex, faceSet.normals := normalIndex, normals;
      ok := okColors && okNormals;
    }

    /** The coordIndex loop of convertIndexedFaceSet: the new stream, and
        whether an index that is not a vertex stopped it; the member vectors
        are left as the scan leaves them. */
    method SplitFaces(orgIndices: seq<int>, numVertices: int, test: DiagonalTest) returns (indices: seq<int>, bad: bool)
      modifies this
      ensures var s := Scan(orgIndices, |orgIndices|, numVertices, test, old(polygon));
        && bad == s.failed && indices == Flatten(s.triangles)
        && polygon == s.polygon && indexPositionMap == Flatten(s.corners) && faceIndexMap == s.faces
      ensures divisionNumber == old(divisionNumber) && isNormalGenerationMode == old(isNormalGenerationMode)
      ensures shapeToOriginalGeometryMap == old(shapeToOriginalGeometryMap)
    {
      indices := [];
      var numOrgIndices := |orgIndices|;
      var orgFaceIndex := 0;
      var polygonTopIndexPosition := 0;
      indexPositionMap := [];
      faceIndexMap := [];
      ghost var leftover := polygon;

      var i := 0;
      bad := false;
      while i < numOrgIndices && !bad
        invariant 0 <= i <= numOrgIndices
        invariant var s := Scan(orgIndices, i, numVertices, test, leftover);
          && s.failed == bad && polygon == s.polygon
          && indices == Flatten(s.triangles) && indexPositionMap == Flatten(s.corners)
          && faceIndexMap == s.faces && polygonTopIndexPosition == s.top && orgFaceIndex == s.face
        invariant divisionNumber == old(divisionNumber) && isNormalGenerationMode == old(isNormalGenerationMode)
        invariant shapeToOriginalGeometryMap == old(shapeToOriginalGeometryMap)
      {
        ghost var s := Scan(orgIndices, i, numVertices, test, leftover);
        var index := orgIndices[i];
        if index >= numVertices {
          bad := true;
        } else if index >= 0 {
          polygon := polygon + [index];
        } else {
          var trianglesInPolygon := FaceTriangles(polygon, test);
          indices, indexPositionMap, faceIndexMap :=
            EmitFace(polygon, trianglesInPolygon, polygonTopIndexPosition, orgFaceIndex,
                     indices, indexPositionMap, faceIndexMap);
          FlattenConcat(s.triangles, PickAll(polygon, trianglesInPolygon));
          FlattenConcat(s.corners, ShiftAll(polygonTopIndexPosition, trianglesInPolygon));
          polygonTopIndexPosition := i + 1;
          orgFaceIndex := orgFaceIndex + 1;
          polygon := [];
        }
        i := i + 1;
      }
      if bad {
        ScanFrozen(orgIndices, i, numOrgIndices, numVertices, test, leftover);
      }
    }

    // -------------------------------------------------------------------
    // Attribute remapping

    /** remapDirectMapObjectsPerFaces: one value per new triangle, taken
        from the value of its old face; false at the first face without one. */
    method RemapDirectMapObjectsPerFaces(values: seq<Vec3>) returns (result: bool, newValues: seq<Vec3>)
      requires Valid()
      ensures newValues == DirectValues(values, faceIndexMap, Origin)
      ensures result <==> FirstUncovered(faceIndexMap, |values|) == |faceIndexMap|
    {
      var orgValues := values;
      var numOrgValues := |orgValues|;
      var numFaces := |faceIndexMap|;
      newValues := Resize(orgValues, numFaces, Origin);
      ghost var k := FirstUncovered(faceIndexMap, numOrgValues);
      var i := 0;
      while i < numFaces
        invariant 0 <= i <= numFaces && i <= k
        invariant |newValues| == numFaces
        invariant forall j :: 0 <= j < numFaces ==>
          newValues[j] == (if j < i then orgValues[faceIndexMap[j]] else Resize(orgValues, numFaces, Origin)[j])
      {
        var faceIndex := faceIndexMap[i];
        if faceIndex >= numOrgValues {
          assert i == k;
          return false, newValues;
        }
        newValues := newValues[i := orgValues[faceIndex]];
        i := i + 1;
      }
      return true, newValues;
    }

    /** checkAndRemapIndices for one attribute with numElements values. */
    method CheckAndRemapIndices(numElements: int, indices: seq<int>, perVertex: bool, values: seq<Vec3>,
                                numVertices: int)
      returns (result: bool, newIndices: seq<int>, newValues: seq<Vec3>)
      requires Valid()
      ensures Remapped(newIndices, newValues, result)
        == RemapAttribute(numElements, indices, perVertex, values, numVertices,
                          indexPositionMap, faceIndexMap, Origin)
    {
      result := true;
      newIndices, newValues := indices, values;
      if numElements == 0 {
        if indices != [] {
          result := false;
        }
      } else if indices == [] {
        if perVertex {
          if numElements < numVertices {
            result := false;
          }
        } else {
          var _, remapped := RemapDirectMapObjectsPerFaces(values);
          newValues := remapped;
        }
      } else {
        var orgIndices := indices;
        if perVertex {
          result, newIndices := RemapPerVertex(orgIndices, numElements);
        } else {
          result, newIndices := RemapPerFace(orgIndices, numElements);
        }
      }
    }

    /** The per-vertex branch of checkAndRemapIndices. */
    method RemapPerVertex(orgIndices: seq<int>, numElements: int) returns (result: bool, indices: seq<int>)
      ensures indices == PerVertexIndices(orgIndices, indexPositionMap, numElements)
      ensures result == PerVertexOk(orgIndices, indexPositionMap, numElements)
    {
      result := true;
      var numNewIndices := |indexPositionMap|;
      ghost var base := Resize(orgIndices, numNewIndices, 0);
      ghost var target := PerVertexIndices(orgIndices, indexPositionMap, numElements);
      indices := Resize(orgIndices, numNewIndices, 0);
      var i := 0;
      while i < numNewIndices
        invariant 0 <= i <= numNewIndices && |indices| == numNewIndices
        invariant forall j :: 0 <= j < numNewIndices ==> indices[j] == if j < i then target[j] else base[j]
        invariant result == forall j :: 0 <= j < i && indexPositionMap[j] >= 0 ==>
                               Readable(orgIndices, indexPositionMap[j], numElements)
      {
        var orgPosition := indexPositionMap[i];
        if orgPosition < 0 {
          indices := indices[i := Sentinel];
        } else if orgPosition < |orgIndices| && orgIndices[orgPosition] < numElements {
          indices := indices[i := orgIndices[orgPosition]];
        } else {
          result := false;
        }
        i := i + 1;
      }
    }

    /** The per-face branch of checkAndRemapIndices. */
    method RemapPerFace(orgIndices: seq<int>, numElements: int) returns (result: bool, indices: seq<int>)
      ensures indices == PerFaceIndices(orgIndices, faceIndexMap, numElements)
      ensures result == PerFaceOk(orgIndices, faceIndexMap, numElements)
    {
      result := true;
      var numNewIndices := |faceIndexMap|;
      ghost var base := Resize(orgIndices, numNewIndices, 0);
      ghost var target := PerFaceIndices(orgIndices, faceIndexMap, numElements);
      indices := Resize(orgIndices, numNewIndices, 0);
      var i := 0;
      while i < numNewIndices
        invariant 0 <= i <= numNewIndices && |indices| == numNewIndices
        invariant forall j :: 0 <= j < numNewIndices ==> indices[j] == if j < i then target[j] else base[j]
        invariant result == forall j :: 0 <= j < i ==> Readable(orgIndices, faceIndexMap[j], numElements)
      {
        var orgFaceIndex := faceIndexMap[i];
        if 0 <= orgFaceIndex < |orgIndices| && orgIndices[orgFaceIndex] < numElements {
          indices := indices[i := orgIndices[orgFaceIndex]];
        } else {
          result := false;
        }
        i := i + 1;
      }
    }

    // -------------------------------------------------------------------
    // Primitive meshers; each is given a fresh IndexedFaceSet

    method ConvertBox(size: Vec3, mesh: FaceSet) returns (result: bool)
      requires mesh.Data() == NewMesh
      modifies mesh
      ensures var r := BoxMesh(size); result == r.Some? && mesh.Data() == if result then r.value else NewMesh
    {
      var x, y, z := size.x / 2.0, size.y / 2.0, size.z / 2.0;
      if x < 0.0 || y < 0.0 || z < 0.0 {
        return false;
      }
      var h := Vec3(x, y, z);
      var vertices := BoxVertices(h);
      var indices := BoxIndices(BoxTriangles, mesh.coordIndex);
      assert h == Half(size);
      mesh.points, mesh.coordIndex := vertices, indices;
      return true;
    }

    method ConvertCone(bottomRadius: real, height: real, trig: Trig, mesh: FaceSet) returns (result: bool)
      requires mesh.Data() == NewMesh
      modifies mesh
      ensures var r := ConeMesh(bottomRadius, height, divisionNumber, trig);
        result == r.Some? && mesh.Data() == if result then r.value else NewMesh
    {
      var radius := bottomRadius;
      if height < 0.0 || radius < 0.0 {
        return false;
      }
      var vertices, topIndex, bottomCenterIndex := ConeVertices(radius, height, divisionNumber, trig);
      var indices := ConeIndices(divisionNumber, topIndex, bottomCenterIndex);
      mesh.points, mesh.coordIndex := vertices, indices;
      mesh.creaseAngle := 3.14 / 2.0;
      return true;
    }

    method ConvertCylinder(radius: real, height: real, trig: Trig, mesh: FaceSet) returns (result: bool)
      requires mesh.Data() == NewMesh
      modifies mesh
      ensures var r := CylinderMesh(radius, height, divisionNumber, trig);
        result == r.Some? && mesh.Data() == if result then r.value else NewMesh
    {
      if height < 0.0 || radius < 0.0 {
        return false;
      }
      var y := height / 2.0;
      var vertices, topCenterIndex, bottomCenterIndex := CylinderVertices(radius, y, divisionNumber, trig);
      var indices := CylinderIndices(divisionNumber, topCenterIndex, bottomCenterIndex);
      mesh.points, mesh.coordIndex := vertices, indices;
      mesh.creaseAngle := 3.14 / 2.0;
      return true;
    }

    method ConvertSphere(radius: real, trig: Trig, mesh: FaceSet) returns (result: bool)
      requires mesh.Data() == NewMesh
      modifies mesh
      ensures var r := SphereMesh(radius, divisionNumber, trig);
        result == r.Some? && mesh.Data() == if result then r.value else NewMesh
    {
      var r := radius;
      if r < 0.0 {
        return false;
      }
      var vertices, topIndex, bottomIndex := SphereVertices(r, divisionNumber, trig);
      var indices := SphereIndices(divisionNumber, topIndex, bottomIndex);
      mesh.points, mesh.coordIndex := vertices, indices;
      mesh.creaseAngle := Pi;
      return true;
    }

    method ConvertElevationGrid(grid: Grid, mesh: FaceSet) returns (result: bool)
      requires mesh.Data() == NewMesh
      modifies mesh
      ensures var r := GridMesh(grid); result == r.Some? && mesh.Data() == if result then r.value else NewMesh
    {
      if grid.xDimension * grid.zDimension != |grid.height| {
        return false;
      }
      var vertices := GridVertices(grid);
      if (grid.zDimension - 1) * (grid.xDimension - 1) * 2 * 4 < 0 {
        // reserving a negative capacity throws, before the mesh is touched
        return false;
      }
      var indices := GridIndices(grid);
      mesh.points, mesh.coordIndex := vertices, indices;
      mesh.creaseAngle := grid.creaseAngle;
      return true;
    }

    /** convertExtrusion is not implemented and always fails. */
    method ConvertExtrusion(mesh: FaceSet) returns (result: bool)
      ensures !result
    {
      return false;
    }
  }

  // ---------------------------------------------------------------------
  // The vertex and index loops of the curved primitives and the grid

  /** The box's vertex loop over the sign tables. */
  method BoxVertices(h: Vec3) returns (vertices: seq<Vec3>)
    ensures vertices == BoxPoints(h)
  {
    vertices := [];
    var i := 0;
    while i < 8
      invariant 0 <= i <= 8 && vertices == BoxPoints(h)[..i]
    {
      var index;
      vertices, index := AddVertex(vertices, BoxPoint(h, i));
      assert BoxPoints(h)[..i + 1] == BoxPoints(h)[..i] + [BoxPoint(h, i)];
      i := i + 1;
    }
    assert BoxPoints(h)[..8] == BoxPoints(h);
  }

  /** The box's index loop, over its triangle table ts: the index array is
      resized to four slots per triangle and every slot is overwritten from
      the table, whatever it held before. */
  method BoxIndices(ts: seq<Tri>, orgIndices: seq<int>) returns (indices: seq<int>)
    ensures indices == Flatten(ts)
  {
    var numTriangles := |ts|;
    indices := Resize(orgIndices, numTriangles * 4, 0);
    var di := 0;
    var i := 0;
    while i < numTriangles
      invariant 0 <= i <= numTriangles && di == 4 * i && |indices| == 4 * numTriangles
      invariant forall p :: 0 <= p < di ==> indices[p] == Flatten(ts)[p]
    {
      var t := ts[i];
      FlattenAt(ts, i, 0);
      FlattenAt(ts, i, 1);
      FlattenAt(ts, i, 2);
      FlattenAt(ts, i, 3);
      indices := indices[di := t.a][di + 1 := t.b][di + 2 := t.c][di + 3 := Sentinel];
      di := di + 4;
      i := i + 1;
    }
  }

  /** The cone's vertex loop: the rim, then the apex and the bottom centre. */
  method ConeVertices(radius: real, height: real, n: nat, trig: Trig)
    returns (vertices: seq<Vec3>, topIndex: int, bottomCenterIndex: int)
    ensures vertices == ConeRim(radius, trig, n) + [Vec3(0.0, height, 0.0), Origin]
    ensures topIndex == n && bottomCenterIndex == n + 1
    ensures vertices[topIndex] == Vec3(0.0, height, 0.0) && vertices[bottomCenterIndex] == Origin
  {
    vertices := [];
    var index;
    var i := 0;
    while i < n
      invariant 0 <= i <= n && vertices == ConeRim(radius, trig, i)
    {
      vertices, index := AddVertex(vertices, RimPoint(radius, 0.0, trig.around(i)));
      i := i + 1;
    }
    vertices, topIndex := AddVertex(vertices, Vec3(0.0, height, 0.0));
    vertices, bottomCenterIndex := AddVertex(vertices, Vec3(0.0, 0.0, 0.0));
  }

  /** The cone's index loop: a side and a bottom triangle per segment. */
  method ConeIndices(n: nat, topIndex: int, bottomCenterIndex: int) returns (indices: seq<int>)
    requires topIndex == n && bottomCenterIndex == n + 1
    ensures indices == Flatten(ConeTriangles(n, n))
  {
    indices := [];
    var i := 0;
    while i < n
      invariant 0 <= i <= n && indices == Flatten(ConeTriangles(n, i))
    {
      ghost var ts := ConeTriangles(n, i);
      var i1 := (i + 1) % n;
      // the slanted triangle from the apex to rim edge (i, i + 1)
      indices := AddTriangle(indices, topIndex, i1, i, ts);
      // the base triangle from the bottom centre to the same rim edge
      indices := AddTriangle(indices, bottomCenterIndex, i, i1, ts + [Tri(topIndex, i1, i)]);
      assert ConeTriangles(n, i + 1) == ts + [Tri(topIndex, i1, i)] + [Tri(bottomCenterIndex, i, i1)];
      i := i + 1;
    }
  }

  /** The cylinder's vertex loop over the two rims, written by index into a
      buffer resized to 2n, then the two centres. */
  method CylinderVertices(radius: real, y: real, n: nat, trig: Trig)
    returns (vertices: seq<Vec3>, topCenterIndex: int, bottomCenterIndex: int)
    ensures vertices == CylinderRim(n, radius, y, trig) + [Vec3(0.0, y, 0.0), Vec3(0.0, -y, 0.0)]
    ensures topCenterIndex == 2 * n && bottomCenterIndex == 2 * n + 1
  {
    vertices := Resize([], n * 2, Origin);
    var i := 0;
    while i < n
      invariant 0 <= i <= n && |vertices| == 2 * n
      invariant forall k :: 0 <= k < 2 * n ==>
        vertices[k] == if k < i || n <= k < n + i then CylinderRimAt(n, radius, y, trig, k) else Origin
    {
      vertices := vertices[i := RimPoint(radius, y, trig.around(i))][i + n := RimPoint(radius, -y, trig.around(i))];
      i := i + 1;
    }
    assert vertices == CylinderRim(n, radius, y, trig);
    vertices, topCenterIndex := AddVertex(vertices, Vec3(0.0, y, 0.0));
    vertices, bottomCenterIndex := AddVertex(vertices, Vec3(0.0, -y, 0.0));
  }

  /** The cylinder's index loop: top, two side and bottom triangles per segment. */
  method CylinderIndices(n: nat, topCenterIndex: int, bottomCenterIndex: int) returns (indices: seq<int>)
    requires topCenterIndex == 2 * n && bottomCenterIndex == 2 * n + 1
    ensures indices == Flatten(CylinderTriangles(n, n))
  {
    indices := [];
    var i := 0;
    while i < n
      invariant 0 <= i <= n && indices == Flatten(CylinderTriangles(n, i))
    {
      ghost var ts := CylinderTriangles(n, i);
      var i1 := (i + 1) % n;
      var t1, t2 := Tri(topCenterIndex, i1, i), Tri(i, i1 + n, i + n);
      var t3, t4 := Tri(i, i1, i1 + n), Tri(bottomCenterIndex, i + n, i1 + n);
      // t1: the cap triangle on the top centre
      indices := AddTriangle(indices, t1.a, t1.b, t1.c, ts);
      // t2: the lateral triangle with one top-rim and two bottom-rim corners
      indices := AddTriangle(indices, t2.a, t2.b, t2.c, ts + [t1]);
      // t3: the lateral triangle with two top-rim and one bottom-rim corners
      indices := AddTriangle(indices, t3.a, t3.b, t3.c, ts + [t1] + [t2]);
      // t4: the cap triangle on the bottom centre
      indices := AddTriangle(indices, t4.a, t4.b, t4.c, ts + [t1] + [t2] + [t3]);
      assert CylinderTriangles(n, i + 1) == ts + [t1] + [t2] + [t3] + [t4];
      i := i + 1;
    }
  }

  /** The sphere's vertex loops: rings 1..n-1 of n vertices, then the poles. */
  method SphereVertices(r: real, n: nat, trig: Trig) returns (vertices: seq<Vec3>, topIndex: int, bottomIndex: int)
    ensures vertices == SpherePoints(n, r, trig)
    ensures topIndex == (n - 1) * n && bottomIndex == topIndex + 1
  {
    var vdn: int, hdn: int := n, n;
    vertices := [];
    var index;
    var i := 1;
    while i < vdn
      invariant 1 <= i <= Bands(n) + 1 && vertices == SphereRings(n, r, trig, i - 1)
    {
      var j := 0;
      while j < hdn
        invariant 0 <= j <= hdn && vertices == SphereRings(n, r, trig, i - 1) + SphereRing(r, trig, i, j)
      {
        vertices, index := AddVertex(vertices, SpherePoint(r, trig, i, j));
        j := j + 1;
      }
      i := i + 1;
    }
    assert |vertices| == (n - 1) * n by {
      if n == 0 { assert Bands(n) == 0; }
    }
    vertices, topIndex := AddVertex(vertices, Vec3(0.0, r, 0.0));
    vertices, bottomIndex := AddVertex(vertices, Vec3(0.0, -r, 0.0));
  }

  /** The sphere's index loops: the fan round the north pole, the bands
      between consecutive rings, the fan round the south pole. */
  method SphereIndices(n: nat, topIndex: int, bottomIndex: int) returns (indices: seq<int>)
    requires topIndex == (n - 1) * n && bottomIndex == topIndex + 1
    ensures indices == Flatten(SphereTriangles(n))
  {
    var vdn: int, hdn: int := n, n;
    indices := TopFanIndices(n, topIndex);
    var sides := BandIndices(n);
    var offset := (vdn - 2) * hdn;
    var bottom := BottomFanIndices(n, bottomIndex, offset);
    ghost var top, bands, low := TopFan(n, topIndex, n), SphereBands(n, Bands(n)), BottomFan(n, bottomIndex, offset, n);
    assert SphereTriangles(n) == top + bands + low;
    FlattenConcat(top, bands);
    FlattenConcat(top + bands, low);
    indices := indices + sides + bottom;
  }

  /** The sphere's top faces. */
  method TopFanIndices(n: nat, topIndex: int) returns (indices: seq<int>)
    ensures indices == Flatten(TopFan(n, topIndex, n))
  {
    var hdn: int := n;
    indices := [];
    var i := 0;
    while i < hdn
      invariant 0 <= i <= n && indices == Flatten(TopFan(n, topIndex, i))
    {
      indices := AddTriangle(indices, topIndex, (i + 1) % hdn, i, TopFan(n, topIndex, i));
      i := i + 1;
    }
  }

  /** The sphere's side faces: two triangles per quad between rings i and i + 1. */
  method BandIndices(n: nat) returns (indices: seq<int>)
    ensures indices == Flatten(SphereBands(n, Bands(n)))
  {
    var vdn: int, hdn: int := n, n;
    indices := [];
    var i := 0;
    while i < vdn - 1
      invariant 0 <= i <= Bands(n) && indices == Flatten(SphereBands(n, i))
    {
      var upper, lower := i * hdn, (i + 1) * hdn;
      ghost var before := SphereBands(n, i);
      ghost var tris := before;
      var j := 0;
      while j < hdn
        invariant 0 <= j <= n && tris == before + Band(n, upper, lower, j) && indices == Flatten(tris)
      {
        var j1 := (j + 1) % hdn;
        var t1, t2 := Tri(j + upper, j1 + lower, j + lower), Tri(j + upper, j1 + upper, j1 + lower);
        // t1: one corner on the upper ring, two on the lower
        indices := AddTriangle(indices, t1.a, t1.b, t1.c, tris);
        // t2: two corners on the upper ring, one on the lower
        indices := AddTriangle(indices, t2.a, t2.b, t2.c, tris + [t1]);
        tris := tris + [t1] + [t2];
        j := j + 1;
      }
      assert SphereBands(n, i + 1) == tris;
      i := i + 1;
    }
  }

  /** The sphere's bottom faces, over the last ring, which starts at offset. */
  method BottomFanIndices(n: nat, bottomIndex: int, offset: int) returns (indices: seq<int>)
    ensures indices == Flatten(BottomFan(n, bottomIndex, offset, n))
  {
    var hdn: int := n;
    indices := [];
    var i := 0;
    while i < hdn
      invariant 0 <= i <= n && indices == Flatten(BottomFan(n, bottomIndex, offset, i))
    {
      indices := AddTriangle(indices, bottomIndex, (i % hdn) + offset, ((i + 1) % hdn) + offset,
                             BottomFan(n, bottomIndex, offset, i));
      i := i + 1;
    }
  }

  /** The grid's vertex loops, row by row. */
  method GridVertices(g: Grid) returns (vertices: seq<Vec3>)
    requires GridValid(g)
    ensures vertices == GridPoints(g)
  {
    vertices := [];
    var index;
    var z := 0;
    GridRowsBound(g, 0);
    while z < g.zDimension
      invariant 0 <= z <= Pos(g.zDimension) && z * Pos(g.xDimension) <= |g.height|
      invariant vertices == GridRows(g, z)
    {
      GridRowFits(g, z);
      var x := 0;
      while x < g.xDimension
        invariant 0 <= x <= g.xDimension && vertices == GridRows(g, z) + GridRow(g, z, x)
      {
        vertices, index := AddVertex(vertices, GridPoint(g, z, x));
        x := x + 1;
      }
      z := z + 1;
      GridRowsBound(g, z);
    }
  }

  /** The grid's index loops: two triangles per cell, strip by strip. */
  method GridIndices(g: Grid) returns (indices: seq<int>)
    ensures indices == Flatten(GridStrips(g, Pos(g.zDimension - 1)))
  {
    indices := [];
    ghost var tris: seq<Tri> := [];
    var z := 0;
    while z < g.zDimension - 1
      invariant 0 <= z <= Pos(g.zDimension - 1) && tris == GridStrips(g, z) && indices == Flatten(tris)
    {
      var current, next := z * g.xDimension, (z + 1) * g.xDimension;
      ghost var before := tris;
      var x := 0;
      while x < g.xDimension - 1
        invariant 0 <= x <= Pos(g.xDimension - 1) && tris == before + GridCells(g, z, x) && indices == Flatten(tris)
      {
        var t1, t2 := Tri(x + current, x + next, (x + 1) + next), Tri(x + current, (x + 1) + next, (x + 1) + current);
        indices := AddTriangle(indices, t1.a, t1.b, t1.c, tris);
        indices := AddTriangle(indices, t2.a, t2.b, t2.c, tris + [t1]);
        tris := tris + [t1] + [t2];
        x := x + 1;
      }
      z := z + 1;
    }
  }

  /** Row z of a valid grid lies inside its height array. */
  lemma GridRowFits(g: Grid, z: int)
    requires GridValid(g) && 0 <= z < g.zDimension
    ensures 0 <= g.xDimension && 0 <= z * g.xDimension && z * g.xDimension + g.xDimension <= |g.height|
  {
    assert z * g.xDimension + g.xDimension == (z + 1) * g.xDimension;
    assert (z + 1) * g.xDimension <= g.zDimension * g.xDimension;
  }

  lemma GridRowsBound(g: Grid, z: int)
    requires 0 <= z <= Pos(g.zDimension) && g.xDimension * g.zDimension == |g.height|
    ensures z * Pos(g.xDimension) <= |g.height|
  {
    GridProductBound(g);
    assert z * Pos(g.xDimension) <= Pos(g.zDimension) * Pos(g.xDimension);
  }
}
