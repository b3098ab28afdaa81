/** Re-deriving an IndexedFaceSet's color or normal indices (or its
    per-face values) after its faces were split into triangles, from the two
    tables the split produces: indexPositionMap (new stream position to old
    position, -1 at terminators) and faceIndexMap (new triangle to old face). */
module Remap {
  import opened Streams
  import opened Triangulation

  /** `resize(n)` of a std::vector: the first n entries kept, `d` added after them. */
  function Resize<T>(s: seq<T>, n: nat, d: T): (r: seq<T>)
    ensures |r| == n
  {
    seq(n, i requires 0 <= i < n => if i < |s| then s[i] else d)
  }

  /** Entry q of an old index array exists and names one of the numElements
      attribute values. (The source reads entry q without checking that it
      exists; see README.) */
  predicate Readable(org: seq<int>, q: int, numElements: int)
  {
    0 <= q < |org| && org[q] < numElements
  }

  /** Per-vertex index array rebuilt for the new stream: -1 at new
      terminators, the old index read through indexPositionMap elsewhere; a
      slot whose old index is out of range keeps what `resize` left there. */
  function PerVertexIndices(org: seq<int>, positions: seq<int>, numElements: int): (r: seq<int>)
    ensures |r| == |positions|
  {
    var base := Resize(org, |positions|, 0);
    seq(|positions|, i requires 0 <= i < |positions| =>
      if positions[i] < 0 then Sentinel
      else if Readable(org, positions[i], numElements) then org[positions[i]]
      else base[i])
  }

  predicate PerVertexOk(org: seq<int>, positions: seq<int>, numElements: int)
  {
    forall i :: 0 <= i < |positions| && positions[i] >= 0 ==> Readable(org, positions[i], numElements)
  }

  /** Per-face index array rebuilt for the new triangles through faceIndexMap. */
  function PerFaceIndices(org: seq<int>, faces: seq<int>, numElements: int): (r: seq<int>)
    ensures |r| == |faces|
  {
    var base := Resize(org, |faces|, 0);
    seq(|faces|, i requires 0 <= i < |faces| =>
      if Readable(org, faces[i], numElements) then org[faces[i]] else base[i])
  }

  predicate PerFaceOk(org: seq<int>, faces: seq<int>, numElements: int)
  {
    forall i :: 0 <= i < |faces| ==> Readable(org, faces[i], numElements)
  }

  /** Index of the first new triangle whose old face has no value among the n
      old values (|faces| if every one has). */
  function FirstUncovered(faces: seq<int>, n: int): (k: nat)
    ensures k <= |faces|
    ensures forall j :: 0 <= j < k ==> faces[j] < n
    ensures k < |faces| ==> faces[k] >= n
  {
    if faces == [] then 0
    else if faces[0] >= n then 0
    else 1 + FirstUncovered(faces[1..], n)
  }

  /** Per-face values without an index array, one per new triangle; copying
      stops at the first triangle whose face has no value, and the remaining
      slots keep what `resize` left there. */
  function DirectValues<T>(values: seq<T>, faces: seq<int>, d: T): (r: seq<T>)
    requires NonNegative(faces)
    ensures |r| == |faces|
  {
    var k := FirstUncovered(faces, |values|);
    var base := Resize(values, |faces|, d);
    seq(|faces|, i requires 0 <= i < |faces| => if i < k then values[faces[i]] else base[i])
  }

  /** The new index array, the new value array and the verdict of one
      attribute's remapping. */
  datatype Remapped<T> = Remapped(indices: seq<int>, values: seq<T>, ok: bool)

  /** checkAndRemapIndices for one attribute (color or normal) with
      numElements values, given the split's two tables. */
  function RemapAttribute<T>(numElements: int, indices: seq<int>, perVertex: bool, values: seq<T>,
                             numVertices: int, positions: seq<int>, faces: seq<int>, d: T): Remapped<T>
    requires NonNegative(faces)
  {
    if numElements == 0 then
      Remapped(indices, values, indices == [])
    else if indices == [] then
      if perVertex then Remapped(indices, values, numElements >= numVertices)
      else Remapped(indices, DirectValues(values, faces, d), true)
    else if perVertex then
      Remapped(PerVertexIndices(indices, positions, numElements), values,
               PerVertexOk(indices, positions, numElements))
    else
      Remapped(PerFaceIndices(indices, faces, numElements), values,
               PerFaceOk(indices, faces, numElements))
  }

  // ---------------------------------------------------------------------
  // What the remapping means for the triangles of a split

  /** Per-vertex attributes follow their corners: after a split that started
      from an empty buffer, corner m of new triangle t has the vertex index
      and (when the rebuild reports success) the attribute index that the
      authored stream had at one and the same position; the terminator slot
      of every new triangle gets -1. */
  lemma PerVertexCornersKeepAttributes(org: seq<int>, attr: seq<int>, numElements: int, nv: int,
                                       test: DiagonalTest, t: int, m: int)
    requires !Scan(org, |org|, nv, test, []).failed
    requires 0 <= t < |Scan(org, |org|, nv, test, []).triangles| && 0 <= m < 3
    ensures var s := Scan(org, |org|, nv, test, []);
      var positions := Flatten(s.corners);
      var r := PerVertexIndices(attr, positions, numElements);
      var q := positions[4 * t + m];
      && 0 <= q < |org|
      && org[q] == Flatten(s.triangles)[4 * t + m]
      && r[4 * t + 3] == Sentinel
      && (PerVertexOk(attr, positions, numElements) ==> r[4 * t + m] == attr[q])
  {
    var s := Scan(org, |org|, nv, test, []);
    ScanTriangleAt(org, nv, test, t);
    FlattenAt(s.corners, t, m);
    FlattenAt(s.corners, t, 3);
    FlattenAt(s.triangles, t, m);
  }

  /** Per-face attributes follow their faces: new triangle t gets the index
      of the authored face that all three of its corners come from. */
  lemma PerFaceTrianglesKeepAttributes(org: seq<int>, attr: seq<int>, numElements: int, nv: int,
                                       test: DiagonalTest, t: int)
    requires !Scan(org, |org|, nv, test, []).failed
    requires 0 <= t < |Scan(org, |org|, nv, test, []).triangles|
    ensures var s := Scan(org, |org|, nv, test, []);
      var c := s.corners[t];
      && 0 <= c.a < |org| && 0 <= c.b < |org| && 0 <= c.c < |org|
      && FaceAt(org, c.a) == s.faces[t] && FaceAt(org, c.b) == s.faces[t] && FaceAt(org, c.c) == s.faces[t]
      && (PerFaceOk(attr, s.faces, numElements) ==>
            PerFaceIndices(attr, s.faces, numElements)[t] == attr[FaceAt(org, c.a)])
  {
    ScanTriangleAt(org, nv, test, t);
  }

  /** Direct per-face values: every new triangle gets the value of its old
      face exactly when every old face has one; otherwise the copy stops at
      the first face without a value. */
  lemma DirectValuesFollowFaces<T>(values: seq<T>, faces: seq<int>, d: T)
    requires NonNegative(faces)
    ensures var k := FirstUncovered(faces, |values|);
      && (k == |faces| <==> forall t :: 0 <= t < |faces| ==> faces[t] < |values|)
      && forall t :: 0 <= t < k ==> DirectValues(values, faces, d)[t] == values[faces[t]]
  {
  }

  /** A direct per-face remap with a value missing reports success all the
      same, because the verdict of the copy is dropped: here two triangles of
      face 0 and one of face 1, but a single value. */
  lemma DirectVerdictIgnored(v: int)
    ensures var r := RemapAttribute(1, [], false, [v], 3, [], [0, 0, 1], 0);
      r.ok && r.values == [v, v, 0]
  {
    assert FirstUncovered([0, 0, 1], 1) == 2 by {
      assert [0, 0, 1][1..] == [0, 1];
      assert [0, 1][1..] == [1];
    }
  }
}
