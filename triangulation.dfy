/** The polygon-to-triangle splitting of an IndexedFaceSet's coordIndex
    stream, stated as a pure scan: `Scan` is the state of the shaper after
    the coordIndex loop has looked at the first k entries. */
module Triangulation {
  import opened Streams
  import opened Scene

  /** Stands for the floating-point test the source makes on a quad whose
      vertex indices are given: true when the 0-2 diagonal is shorter than
      the 1-3 diagonal. The vertex positions behind it are not modelled. */
  type DiagonalTest = (int, int, int, int) -> bool

  /** Positions inside a polygon of `size` vertices, one triangle each, that
      the polygon is divided into; the empty list is the source's -1 ("not
      divisible"), returned for fewer than 3 and for more than 4 vertices. */
  function DividePolygon(size: int, diagonal02Shorter: bool): (r: seq<Tri>)
    ensures r != [] <==> 3 <= size <= 4
    ensures r != [] ==> |r| == size - 2
    ensures AllInRange(r, size)
    // every triangle keeps the winding of the polygon
    ensures forall j :: 0 <= j < |r| ==> r[j].a < r[j].b < r[j].c
    ensures size == 3 ==> r == [Tri(0, 1, 2)]
    // a quad is cut along the shorter diagonal and every corner is used
    ensures size == 4 && diagonal02Shorter ==>
      forall j :: 0 <= j < |r| ==> Has(r[j], 0) && Has(r[j], 2)
    ensures size == 4 && !diagonal02Shorter ==>
      forall j :: 0 <= j < |r| ==> Has(r[j], 1) && Has(r[j], 3)
    ensures size == 4 ==> forall v :: 0 <= v < 4 ==> Has(r[0], v) || Has(r[1], v)
  {
    if size < 3 then []
    else if size == 3 then [Tri(0, 1, 2)]
    else if size == 4 then
      if diagonal02Shorter then [Tri(0, 1, 2), Tri(0, 2, 3)] else [Tri(0, 1, 3), Tri(1, 2, 3)]
    else []
  }

  /** The diagnostics the division of one polygon can report. */
  datatype Diagnostic = FaceTooSmall | FiveOrMoreVertices

  /** The diagnostic addTrianglesDividedFromPolygon reports for a polygon
      of `size` vertices, as its branches are written: the last branch
      tests the triangle count, which is still -1 when it is reached, in
      place of the vertex count. So a polygon of five or more vertices is
      dropped without any report; only one of fewer than three is reported. */
  function DivisionDiagnostic(size: int): (d: Option<Diagnostic>)
    ensures d.Some? <==> size < 3
    ensures d.Some? ==> d.value == FaceTooSmall
  {
    var numTriangles := if size == 3 then 1 else if size == 4 then 2 else -1;
    if size < 3 then Some(FaceTooSmall)
    else if size == 3 || size == 4 then None
    else if numTriangles >= 5 then Some(FiveOrMoreVertices)
    else None
  }

  /** The shaper's scan state: the `polygon` buffer, the new stream (as the
      triangles it is the flattening of), the new-to-old position table
      `indexPositionMap` (as triangles of old positions), `faceIndexMap`, the
      position where the current face starts, the ordinal of the current
      face, and whether an out-of-range index has ended the scan. */
  datatype ScanState = ScanState(
    polygon: seq<int>, triangles: seq<Tri>, corners: seq<Tri>, faces: seq<int>,
    top: int, face: int, failed: bool)

  /** The vertex indices a triangle of polygon positions refers to. */
  function Pick(polygon: seq<int>, t: Tri): Tri
    requires InRange(t, |polygon|)
  {
    Tri(polygon[t.a], polygon[t.b], polygon[t.c])
  }

  function PickAll(polygon: seq<int>, ts: seq<Tri>): (r: seq<Tri>)
    requires AllInRange(ts, |polygon|)
    ensures |r| == |ts|
  {
    seq(|ts|, j requires 0 <= j < |ts| => Pick(polygon, ts[j]))
  }

  function Shift(d: int, t: Tri): Tri
  {
    Tri(d + t.a, d + t.b, d + t.c)
  }

  function ShiftAll(d: int, ts: seq<Tri>): (r: seq<Tri>)
    ensures |r| == |ts|
  {
    seq(|ts|, j requires 0 <= j < |ts| => Shift(d, ts[j]))
  }

  function Repeat(x: int, n: nat): (r: seq<int>)
    ensures |r| == n
  {
    seq(n, _ => x)
  }

  /** The division of the buffered face; only a quad consults the diagonal test. */
  function FaceTriangles(polygon: seq<int>, test: DiagonalTest): (ts: seq<Tri>)
    ensures AllInRange(ts, |polygon|)
  {
    DividePolygon(|polygon|, |polygon| == 4 && test(polygon[0], polygon[1], polygon[2], polygon[3]))
  }

  /** One iteration of the coordIndex loop on entry `index` at position i. */
  function Step(s: ScanState, index: int, i: int, numVertices: int, test: DiagonalTest): ScanState
  {
    if s.failed then s
    else if index >= numVertices then s.(failed := true)
    else if index >= 0 then s.(polygon := s.polygon + [index])
    else
      var ts := FaceTriangles(s.polygon, test);
      ScanState([], s.triangles + PickAll(s.polygon, ts), s.corners + ShiftAll(s.top, ts),
                s.faces + Repeat(s.face, |ts|), i + 1, s.face + 1, false)
  }

  /** The state after the first k entries of `org`, starting from whatever
      the `polygon` buffer still held (`leftover`). */
  function Scan(org: seq<int>, k: nat, numVertices: int, test: DiagonalTest, leftover: seq<int>): (r: ScanState)
    requires k <= |org|
    ensures |r.triangles| == |r.corners| == |r.faces|
  {
    if k == 0 then ScanState(leftover, [], [], [], 0, 0, false)
    else Step(Scan(org, k - 1, numVertices, test, leftover), org[k - 1], k - 1, numVertices, test)
  }

  /** Number of face terminators (negative entries) in s. */
  function NegCount(s: seq<int>): nat
  {
    if s == [] then 0 else NegCount(s[..|s| - 1]) + (if s[|s| - 1] < 0 then 1 else 0)
  }

  /** Ordinal of the authored face that stream position q belongs to. */
  function FaceAt(org: seq<int>, q: int): nat
    requires 0 <= q <= |org|
  {
    NegCount(org[..q])
  }

  predicate NonNegative(s: seq<int>)
  {
    forall i :: 0 <= i < |s| ==> s[i] >= 0
  }

  predicate NonDecreasing(s: seq<int>)
  {
    forall i, j :: 0 <= i <= j < |s| ==> s[i] <= s[j]
  }

  predicate NonNegativeTris(ts: seq<Tri>)
  {
    forall j :: 0 <= j < |ts| ==> 0 <= ts[j].a && 0 <= ts[j].b && 0 <= ts[j].c
  }

  /** A face of fewer than three or more than four vertices is dropped, not
      an error: its terminator only starts the next face and adds nothing to
      the new stream, indexPositionMap or faceIndexMap. */
  lemma BadArityFaceDropped(s: ScanState, index: int, i: int, nv: int, test: DiagonalTest)
    requires !s.failed && index < 0 && index < nv
    requires |s.polygon| < 3 || |s.polygon| > 4
    ensures var s' := Step(s, index, i, nv, test);
      && !s'.failed && s'.polygon == [] && s'.top == i + 1 && s'.face == s.face + 1
      && s'.triangles == s.triangles && s'.corners == s.corners && s'.faces == s.faces
  {
    var ts := FaceTriangles(s.polygon, test);
    assert ts == [];
    assert PickAll(s.polygon, ts) == [] && ShiftAll(s.top, ts) == [] && Repeat(s.face, 0) == [];
  }

  // ---------------------------------------------------------------------
  // Failing on an out-of-range index

  /** The scan fails exactly when some scanned entry is at least the vertex count. */
  lemma {:induction false} ScanFailsIff(org: seq<int>, k: nat, nv: int, test: DiagonalTest, leftover: seq<int>)
    requires k <= |org|
    ensures Scan(org, k, nv, test, leftover).failed <==> exists i :: 0 <= i < k && org[i] >= nv
  {
    if k > 0 {
      ScanFailsIff(org, k - 1, nv, test, leftover);
    }
  }

  /** After a failure nothing changes any more: the buffers are left as they
      were when the bad index was met. */
  lemma {:induction false} ScanFrozen(org: seq<int>, j: nat, k: nat, nv: int, test: DiagonalTest, leftover: seq<int>)
    requires j <= k <= |org|
    requires Scan(org, j, nv, test, leftover).failed
    ensures Scan(org, k, nv, test, leftover) == Scan(org, j, nv, test, leftover)
  {
    if k > j {
      ScanFrozen(org, j, k - 1, nv, test, leftover);
    }
  }

  // ---------------------------------------------------------------------
  // Shape of the output, whatever the buffer held before

  ghost predicate Basic(s: ScanState)
  {
    && 0 <= s.top && 0 <= s.face
    && NonNegative(s.polygon)
    && |s.triangles| == |s.corners| == |s.faces|
    && NonNegativeTris(s.triangles) && NonNegativeTris(s.corners)
    && (forall t :: 0 <= t < |s.faces| ==> 0 <= s.faces[t] < s.face)
    && NonDecreasing(s.faces)
  }

  lemma BasicStep(s: ScanState, index: int, i: int, nv: int, test: DiagonalTest)
    requires Basic(s) && 0 <= i
    ensures Basic(Step(s, index, i, nv, test))
  {
    var s' := Step(s, index, i, nv, test);
    if !s.failed && index < nv && index < 0 {
      var ts := FaceTriangles(s.polygon, test);
      var fs := s.faces + Repeat(s.face, |ts|);
      assert s'.faces == fs;
      forall t, u | 0 <= t <= u < |fs| ensures fs[t] <= fs[u] {
        if u >= |s.faces| {
          assert fs[u] == s.face;
        }
      }
      forall j | 0 <= j < |s'.triangles|
        ensures 0 <= s'.triangles[j].a && 0 <= s'.triangles[j].b && 0 <= s'.triangles[j].c
      {
        if j >= |s.triangles| {
          assert s'.triangles[j] == Pick(s.polygon, ts[j - |s.triangles|]);
        }
      }
    }
  }

  /** Whatever the leftover buffer, the three outputs stay parallel (one
      old-position triangle and one face ordinal per emitted triangle), every
      emitted index is a vertex index, and faceIndexMap is non-decreasing and
      below the number of faces seen. */
  lemma {:induction false} ScanBasic(org: seq<int>, k: nat, nv: int, test: DiagonalTest, leftover: seq<int>)
    requires k <= |org| && NonNegative(leftover)
    ensures Basic(Scan(org, k, nv, test, leftover))
  {
    if k > 0 {
      ScanBasic(org, k - 1, nv, test, leftover);
      BasicStep(Scan(org, k - 1, nv, test, leftover), org[k - 1], k - 1, nv, test);
    }
  }

  /** The emitted stream carries -1 exactly at every fourth slot. */
  lemma SentinelExactly(ts: seq<Tri>, p: int)
    requires NonNegativeTris(ts) && 0 <= p < 4 * |ts|
    ensures Flatten(ts)[p] == Sentinel <==> p % 4 == 3
  {
    FlattenAt(ts, p / 4, p % 4);
    assert p == 4 * (p / 4) + p % 4;
  }

  // ---------------------------------------------------------------------
  // Faithfulness to the authored stream, when the buffer starts empty

  ghost predicate Faithful(org: seq<int>, k: int, nv: int, s: ScanState)
    requires 0 <= k <= |org|
  {
    && 0 <= s.top <= k
    && (!s.failed ==> s.polygon == org[s.top..k])
    && (!s.failed ==> forall q :: s.top <= q < k ==> 0 <= org[q] < nv)
    && |s.triangles| == |s.corners| == |s.faces|
    && AllInRange(s.triangles, nv)
    && AllInRange(s.corners, s.top)
    && (forall t :: 0 <= t < |s.corners| ==> Pick(org, s.corners[t]) == s.triangles[t])
    && s.face == FaceAt(org, s.top)
    && (forall t :: 0 <= t < |s.corners| ==>
          && FaceAt(org, s.corners[t].a) == s.faces[t]
          && FaceAt(org, s.corners[t].b) == s.faces[t]
          && FaceAt(org, s.corners[t].c) == s.faces[t])
  }

  lemma {:induction false} NegCountStable(org: seq<int>, top: int, q: int)
    requires 0 <= top <= q <= |org|
    requires forall x :: top <= x < q ==> org[x] >= 0
    ensures FaceAt(org, q) == FaceAt(org, top)
  {
    if q > top {
      NegCountStable(org, top, q - 1);
      assert org[..q][..q - 1] == org[..q - 1];
    }
  }

  lemma NegCountAfterSentinel(org: seq<int>, i: int)
    requires 0 <= i < |org| && org[i] < 0
    ensures FaceAt(org, i + 1) == FaceAt(org, i) + 1
  {
    assert org[..i + 1][..i] == org[..i];
  }

  /** The facts about one triangle emitted for the face ending at position i. */
  lemma EmittedTriangle(org: seq<int>, i: int, nv: int, s: ScanState, t: Tri)
    requires 0 <= s.top <= i < |org| && org[i] < 0
    requires s.polygon == org[s.top..i]
    requires forall q :: s.top <= q < i ==> 0 <= org[q] < nv
    requires InRange(t, |s.polygon|)
    ensures InRange(Shift(s.top, t), i + 1)
    ensures Pick(org, Shift(s.top, t)) == Pick(s.polygon, t)
    ensures InRange(Pick(s.polygon, t), nv)
    ensures FaceAt(org, s.top + t.a) == FaceAt(org, s.top)
    ensures FaceAt(org, s.top + t.b) == FaceAt(org, s.top)
    ensures FaceAt(org, s.top + t.c) == FaceAt(org, s.top)
  {
    EmittedCorner(org, i, nv, s, t.a);
    EmittedCorner(org, i, nv, s, t.b);
    EmittedCorner(org, i, nv, s, t.c);
  }

  /** One corner x of a triangle emitted for the face ending at position i. */
  lemma EmittedCorner(org: seq<int>, i: int, nv: int, s: ScanState, x: int)
    requires 0 <= s.top <= i < |org| && org[i] < 0
    requires s.polygon == org[s.top..i]
    requires forall q :: s.top <= q < i ==> 0 <= org[q] < nv
    requires 0 <= x < |s.polygon|
    ensures 0 <= s.top + x < i + 1
    ensures org[s.top + x] == s.polygon[x] && 0 <= s.polygon[x] < nv
    ensures FaceAt(org, s.top + x) == FaceAt(org, s.top)
  {
    NegCountStable(org, s.top, s.top + x);
  }

  lemma FaithfulEmit(org: seq<int>, i: int, nv: int, test: DiagonalTest, s: ScanState)
    requires 0 <= i < |org| && org[i] < 0 && org[i] < nv
    requires Faithful(org, i, nv, s) && !s.failed
    ensures Faithful(org, i + 1, nv, Step(s, org[i], i, nv, test))
  {
    var s' := Step(s, org[i], i, nv, test);
    var ts := FaceTriangles(s.polygon, test);
    assert s' == ScanState([], s.triangles + PickAll(s.polygon, ts), s.corners + ShiftAll(s.top, ts),
                s.faces + Repeat(s.face, |ts|), i + 1, s.face + 1, false);
    NegCountStable(org, s.top, i);
    NegCountAfterSentinel(org, i);
    var n := |s.corners|;
    forall t | 0 <= t < |s'.corners|
      ensures InRange(s'.corners[t], s'.top)
      ensures Pick(org, s'.corners[t]) == s'.triangles[t]
      ensures InRange(s'.triangles[t], nv)
      ensures FaceAt(org, s'.corners[t].a) == s'.faces[t]
      ensures FaceAt(org, s'.corners[t].b) == s'.faces[t]
      ensures FaceAt(org, s'.corners[t].c) == s'.faces[t]
    {
      if t >= n {
        EmittedTriangle(org, i, nv, s, ts[t - n]);
        assert s'.corners[t] == Shift(s.top, ts[t - n]);
        assert s'.triangles[t] == Pick(s.polygon, ts[t - n]);
        assert s'.faces[t] == s.face;
      }
    }
  }

  lemma FaithfulStep(org: seq<int>, i: int, nv: int, test: DiagonalTest, s: ScanState)
    requires 0 <= i < |org|
    requires Faithful(org, i, nv, s)
    ensures Faithful(org, i + 1, nv, Step(s, org[i], i, nv, test))
  {
    if s.failed || org[i] >= nv {
    } else if org[i] >= 0 {
      assert org[s.top..i + 1] == org[s.top..i] + [org[i]];
    } else {
      FaithfulEmit(org, i, nv, test, s);
    }
  }

  /** Starting from an empty buffer, the scan keeps the new stream in step
      with the authored one: every emitted triangle holds vertex indices
      below the vertex count; `corners` (indexPositionMap) points to the
      authored positions those indices were read from; all three positions
      of triangle t lie in authored face `faces[t]` (faceIndexMap). */
  lemma {:induction false} ScanFaithful(org: seq<int>, k: nat, nv: int, test: DiagonalTest)
    requires k <= |org|
    ensures Faithful(org, k, nv, Scan(org, k, nv, test, []))
  {
    if k > 0 {
      ScanFaithful(org, k - 1, nv, test);
      FaithfulStep(org, k - 1, nv, test, Scan(org, k - 1, nv, test, []));
    }
  }

  /** What ScanFaithful says about one emitted triangle t of a whole scan. */
  lemma ScanTriangleAt(org: seq<int>, nv: int, test: DiagonalTest, t: int)
    requires 0 <= t < |Scan(org, |org|, nv, test, []).triangles|
    ensures var s := Scan(org, |org|, nv, test, []);
      && 0 <= s.top <= |org|
      && InRange(s.corners[t], s.top) && InRange(s.triangles[t], nv)
      && Pick(org, s.corners[t]) == s.triangles[t]
      && FaceAt(org, s.corners[t].a) == s.faces[t]
      && FaceAt(org, s.corners[t].b) == s.faces[t]
      && FaceAt(org, s.corners[t].c) == s.faces[t]
  {
    ScanFaithful(org, |org|, nv, test);
  }

  // ---------------------------------------------------------------------
  // Trailing indices and re-application

  /** Indices after the last terminator are only buffered: the outputs are
      those of the scan up to the terminator, and they stay in `polygon`. */
  lemma {:induction false} TrailingIndicesBuffered(org: seq<int>, j: nat, k: nat, nv: int, test: DiagonalTest, leftover: seq<int>)
    requires j <= k <= |org|
    requires !Scan(org, j, nv, test, leftover).failed
    requires forall q :: j <= q < k ==> 0 <= org[q] < nv
    ensures var s := Scan(org, j, nv, test, leftover);
      Scan(org, k, nv, test, leftover) == s.(polygon := s.polygon + org[j..k])
  {
    if k > j {
      TrailingIndicesBuffered(org, j, k - 1, nv, test, leftover);
      assert org[j..k] == org[j..k - 1] + [org[k - 1]];
    } else {
      assert org[j..k] == [];
    }
  }

  function IdentityCorners(n: nat): (r: seq<Tri>)
    ensures |r| == n
  {
    seq(n, t => Tri(4 * t, 4 * t + 1, 4 * t + 2))
  }

  function Ordinals(n: nat): (r: seq<int>)
    ensures |r| == n
  {
    seq(n, t => t)
  }

  /** The state the re-scan of a triangles-only stream is in after k entries. */
  ghost predicate Rescanned(org: seq<int>, k: int, s: ScanState)
    requires |org| % 4 == 0 && 0 <= k <= |org|
  {
    var j := k / 4;
    s == ScanState(org[4 * j..k], Unflatten(org)[..j], IdentityCorners(|org| / 4)[..j],
                   Ordinals(|org| / 4)[..j], 4 * j, j, false)
  }

  lemma RescanVertex(org: seq<int>, k: nat, nv: int, test: DiagonalTest, s: ScanState)
    requires TriangleStream(org, nv) && 0 <= k < |org| && k % 4 != 3
    requires Rescanned(org, k, s)
    ensures Rescanned(org, k + 1, Step(s, org[k], k, nv, test))
  {
    TriangleStreamAt(org, nv, k);
    var j := k / 4;
    assert k == 4 * j + k % 4 && (k + 1) / 4 == j;
    assert 0 <= org[k] < nv;
    assert Step(s, org[k], k, nv, test) == s.(polygon := s.polygon + [org[k]]);
    assert org[4 * j..k + 1] == org[4 * j..k] + [org[k]];
  }

  lemma RescanSentinel(org: seq<int>, k: nat, nv: int, test: DiagonalTest, s: ScanState)
    requires TriangleStream(org, nv) && 0 <= k < |org| && k % 4 == 3
    requires Rescanned(org, k, s)
    ensures Rescanned(org, k + 1, Step(s, org[k], k, nv, test))
  {
    TriangleStreamAt(org, nv, k);
    var j := k / 4;
    assert k == 4 * j + 3 && (k + 1) / 4 == j + 1;
    TriangleStreamAt(org, nv, 4 * j);
    assert (4 * j) % 4 == 0 && org[k] < nv;
    assert s.polygon == [org[4 * j], org[4 * j + 1], org[4 * j + 2]];
    var ts := FaceTriangles(s.polygon, test);
    assert ts == [Tri(0, 1, 2)];
    var u := Unflatten(org);
    assert PickAll(s.polygon, ts) == [u[j]];
    assert u[..j + 1] == u[..j] + [u[j]];
    var ic := IdentityCorners(|org| / 4);
    assert ShiftAll(s.top, ts) == [ic[j]];
    assert ic[..j + 1] == ic[..j] + [ic[j]];
    var os := Ordinals(|org| / 4);
    assert os[..j + 1] == os[..j] + [j];
    assert Repeat(s.face, |ts|) == [j];
    assert org[4 * (j + 1)..k + 1] == [];
    assert Step(s, org[k], k, nv, test) ==
      ScanState([], u[..j + 1], ic[..j + 1], os[..j + 1], k + 1, j + 1, false);
  }

  lemma {:induction false} RescanPrefix(org: seq<int>, k: nat, nv: int, test: DiagonalTest)
    requires TriangleStream(org, nv) && k <= |org|
    ensures Rescanned(org, k, Scan(org, k, nv, test, []))
  {
    if k > 0 {
      RescanPrefix(org, k - 1, nv, test);
      if (k - 1) % 4 == 3 {
        RescanSentinel(org, k - 1, nv, test, Scan(org, k - 1, nv, test, []));
      } else {
        RescanVertex(org, k - 1, nv, test, Scan(org, k - 1, nv, test, []));
      }
    }
  }

  /** Re-applying the split to a stream that is already all triangles gives
      the same stream back, with the identity position table and one face
      per triangle. */
  lemma RescanTriangleStream(org: seq<int>, nv: int, test: DiagonalTest)
    requires TriangleStream(org, nv)
    ensures var s := Scan(org, |org|, nv, test, []);
      && !s.failed && s.polygon == []
      && Flatten(s.triangles) == org
      && s.corners == IdentityCorners(|org| / 4)
      && s.faces == Ordinals(|org| / 4)
  {
    RescanPrefix(org, |org|, nv, test);
    assert 4 * (|org| / 4) == |org|;
    FlattenUnflatten(org, nv);
  }

  // ---------------------------------------------------------------------
  // The buffer leaking between calls

  /** A non-empty leftover buffer is glued to the first face of the next
      stream: here the stale index 9 of an earlier mesh and the two authored
      indices 0, 1 make a "triangle" whose index 9 is out of range for the
      new three-vertex mesh, and the scan still succeeds. */
  lemma LeftoverBufferLeaks(test: DiagonalTest)
    ensures var s := Scan([0, 1, -1], 3, 3, test, [9]);
      && !s.failed
      && Flatten(s.triangles) == [9, 0, 1, -1]
      && !TriangleStream(Flatten(s.triangles), 3)
  {
    var org := [0, 1, -1];
    var s2 := Scan(org, 2, 3, test, [9]);
    assert s2.polygon == [9, 0, 1];
    var s := Scan(org, 3, 3, test, [9]);
    assert s.triangles == [Tri(9, 0, 1)];
    FlattenPush([], Tri(9, 0, 1));
    assert !InRange(s.triangles[0], 3);
    FlattenIsTriangleStream(s.triangles, 3);
  }

  /** The failure is not atomic: when a bad index comes after complete faces
      the stream already holds their triangles. */
  lemma FailureLeavesPartialStream(test: DiagonalTest)
    ensures var s := Scan([0, 1, 2, -1, 5], 5, 3, test, []);
      s.failed && Flatten(s.triangles) == [0, 1, 2, -1] && s.polygon == []
  {
    var s := Scan([0, 1, 2, -1, 5], 5, 3, test, []);
    assert s.triangles == [Tri(0, 1, 2)];
    FlattenPush([], Tri(0, 1, 2));
  }
}
