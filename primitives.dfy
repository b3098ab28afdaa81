/** The meshes the shaper builds for the VRML primitives Box, Cone, Cylinder,
    Sphere and ElevationGrid. Each builder's triangle list is defined the way
    its loop emits it, one iteration per recursive step; the lemmas give the
    vertex and triangle counts and the index bounds of the result. */
module Primitives {
  import opened Streams
  import opened Scene

  /** n if it is positive, else 0: the trip count of `for (i = 0; i < n; i++)`. */
  function Pos(n: int): nat
  {
    if n > 0 then n else 0
  }

  /** The crease angle given to cones and cylinders: 3.14 / 2.0. */
  const QuarterTurn: real := 1.57

  /** The constant PI of the translation unit, given to spheres as crease angle. */
  const Pi: real := 3.14159265358979323846

  /** A new IndexedFaceSet holding the given vertices and triangles. */
  function Built(points: seq<Vec3>, triangles: seq<Tri>, creaseAngle: real): MeshData
  {
    NewMesh.(points := points, coordIndex := Flatten(triangles), creaseAngle := creaseAngle)
  }

  // ---------------------------------------------------------------------
  // Box

  const XSigns: seq<real> := [-1.0, -1.0, -1.0, -1.0, 1.0, 1.0, 1.0, 1.0]
  const YSigns: seq<real> := [-1.0, -1.0, 1.0, 1.0, -1.0, -1.0, 1.0, 1.0]
  const ZSigns: seq<real> := [-1.0, 1.0, -1.0, 1.0, -1.0, 1.0, -1.0, 1.0]

  /** The twelve triangles of the box, two per face, over the eight corners. */
  const BoxTriangles: seq<Tri> := [
    Tri(5, 7, 3), Tri(5, 3, 1), Tri(0, 2, 6), Tri(0, 6, 4),
    Tri(4, 6, 7), Tri(4, 7, 5), Tri(1, 3, 2), Tri(1, 2, 0),
    Tri(7, 6, 2), Tri(7, 2, 3), Tri(4, 5, 1), Tri(4, 1, 0)]

  /** Half the box size along each axis. */
  function Half(size: Vec3): Vec3
  {
    Vec3(size.x / 2.0, size.y / 2.0, size.z / 2.0)
  }

  function BoxPoint(h: Vec3, i: int): Vec3
    requires 0 <= i < 8
  {
    Vec3(XSigns[i] * h.x, YSigns[i] * h.y, ZSigns[i] * h.z)
  }

  function BoxPoints(h: Vec3): (ps: seq<Vec3>)
    ensures |ps| == 8
  {
    seq(8, i requires 0 <= i < 8 => BoxPoint(h, i))
  }

  /** The mesh convertBox builds, or None for a negative size. */
  function BoxMesh(size: Vec3): Option<MeshData>
  {
    var h := Half(size);
    if h.x < 0.0 || h.y < 0.0 || h.z < 0.0 then None
    else Some(Built(BoxPoints(h), BoxTriangles, NewMesh.creaseAngle))
  }

  /** Bit `axis` (0 for x, 1 for y, 2 for z) of a box corner number: the
      corner's side of the box along that axis. */
  function Side(v: int, axis: int): int
  {
    if axis == 0 then v / 4 % 2 else if axis == 1 then v / 2 % 2 else v % 2
  }

  function Signed(side: int, e: real): real
  {
    if side == 1 then e else -e
  }

  /** The corner table is in binary order: corner i has its x, y and z
      signs given by the bits of i, most significant first. */
  lemma BoxCorners(size: Vec3, i: int)
    requires 0 <= i < 8
    ensures var h := Half(size);
      BoxPoints(h)[i] == Vec3(Signed(Side(i, 0), h.x), Signed(Side(i, 1), h.y), Signed(Side(i, 2), h.z))
  {
    assert i == 0 || i == 1 || i == 2 || i == 3 || i == 4 || i == 5 || i == 6 || i == 7;
  }

  /** Coordinate `axis` (0 for x, 1 for y, 2 for z) of corner v of the cube
      [-1, 1]^3, read from the sign tables. */
  function CornerSign(v: int, axis: int): real
    requires 0 <= v < 8
  {
    if axis == 0 then XSigns[v] else if axis == 1 then YSigns[v] else ZSigns[v]
  }

  /** The axis after `axis` in the cyclic order x, y, z. */
  function NextAxis(axis: int): int
  {
    if axis == 2 then 0 else axis + 1
  }

  /** Component k of the cross product (b - a) x (c - a) over the cube
      corners of t, where i and j are the two axes after k. */
  function Cross(t: Tri, i: int, j: int): real
    requires InRange(t, 8)
  {
    (CornerSign(t.b, i) - CornerSign(t.a, i)) * (CornerSign(t.c, j) - CornerSign(t.a, j))
      - (CornerSign(t.b, j) - CornerSign(t.a, j)) * (CornerSign(t.c, i) - CornerSign(t.a, i))
  }

  /** Triangle t lies on the box face where coordinate `axis` equals `sign`,
      and its corners run counter-clockwise seen from outside the box. */
  predicate OutwardOn(t: Tri, axis: int, sign: real)
  {
    && InRange(t, 8)
    && CornerSign(t.a, axis) == sign && CornerSign(t.b, axis) == sign && CornerSign(t.c, axis) == sign
    && sign * Cross(t, NextAxis(axis), NextAxis(NextAxis(axis))) > 0.0
  }

  /** Triangles t1 and t2 together cover the box face where coordinate
      `axis` equals `sign`: both lie on it, both face outwards, and every
      corner of that face is a corner of one of them. */
  predicate CoverFace(t1: Tri, t2: Tri, axis: int, sign: real)
  {
    && OutwardOn(t1, axis, sign) && OutwardOn(t2, axis, sign)
    && forall v :: 0 <= v < 8 && CornerSign(v, axis) == sign ==> Has(t1, v) || Has(t2, v)
  }

  /** The face (axis, sign) that triangles 2f and 2f+1 of the table cover. */
  function FaceAxis(f: int): int
  {
    if f <= 1 then 2 else if f <= 3 then 0 else 1
  }

  function FaceSign(f: int): real
  {
    if f % 2 == 0 then 1.0 else -1.0
  }

  /** Triangles 2f and 2f+1 form face f of the box. */
  lemma BoxFaces()
    ensures |BoxTriangles| == 12 && AllInRange(BoxTriangles, 8)
    ensures forall f :: 0 <= f < 6 ==>
      CoverFace(BoxTriangles[2 * f], BoxTriangles[2 * f + 1], FaceAxis(f), FaceSign(f))
  {
    forall f | 0 <= f < 6
      ensures CoverFace(BoxTriangles[2 * f], BoxTriangles[2 * f + 1], FaceAxis(f), FaceSign(f))
    {
      BoxFaceOutward(f);
      BoxFaceCovered(f);
    }
  }

  /** The six faces of the table are the six distinct sides of the cube. */
  lemma BoxSidesDistinct()
    ensures forall f, g :: 0 <= f < g < 6 ==> (FaceAxis(f), FaceSign(f)) != (FaceAxis(g), FaceSign(g))
  {
    forall f, g | 0 <= f < g < 6 ensures (FaceAxis(f), FaceSign(f)) != (FaceAxis(g), FaceSign(g)) {
      if FaceAxis(f) == FaceAxis(g) {
        assert g == f + 1 && f % 2 == 0;
      }
    }
  }

  /** The two triangles of the table for face f, and the face's axis and side. */
  lemma BoxFaceEntries(f: int)
    requires 0 <= f < 6
    ensures var t1, t2, axis, sign := BoxTriangles[2 * f], BoxTriangles[2 * f + 1], FaceAxis(f), FaceSign(f);
      || (t1 == Tri(5, 7, 3) && t2 == Tri(5, 3, 1) && axis == 2 && sign == 1.0)
      || (t1 == Tri(0, 2, 6) && t2 == Tri(0, 6, 4) && axis == 2 && sign == -1.0)
      || (t1 == Tri(4, 6, 7) && t2 == Tri(4, 7, 5) && axis == 0 && sign == 1.0)
      || (t1 == Tri(1, 3, 2) && t2 == Tri(1, 2, 0) && axis == 0 && sign == -1.0)
      || (t1 == Tri(7, 6, 2) && t2 == Tri(7, 2, 3) && axis == 1 && sign == 1.0)
      || (t1 == Tri(4, 5, 1) && t2 == Tri(4, 1, 0) && axis == 1 && sign == -1.0)
  {
    assert f == 0 || f == 1 || f == 2 || f == 3 || f == 4 || f == 5;
  }

  lemma BoxFaceOutward(f: int)
    requires 0 <= f < 6
    ensures OutwardOn(BoxTriangles[2 * f], FaceAxis(f), FaceSign(f))
    ensures OutwardOn(BoxTriangles[2 * f + 1], FaceAxis(f), FaceSign(f))
  {
    BoxFaceEntries(f);
  }

  lemma BoxFaceCovered(f: int)
    requires 0 <= f < 6
    ensures var axis, sign := FaceAxis(f), FaceSign(f);
      forall v :: 0 <= v < 8 && CornerSign(v, axis) == sign ==>
        Has(BoxTriangles[2 * f], v) || Has(BoxTriangles[2 * f + 1], v)
  {
    BoxFaceEntries(f);
    var t1, t2, axis, sign := BoxTriangles[2 * f], BoxTriangles[2 * f + 1], FaceAxis(f), FaceSign(f);
    forall v | 0 <= v < 8 && CornerSign(v, axis) == sign
      ensures Has(t1, v) || Has(t2, v)
    {
      assert v == 0 || v == 1 || v == 2 || v == 3 || v == 4 || v == 5 || v == 6 || v == 7;
    }
  }

  /** A valid box mesh has 8 vertices and 12 triangles, -1 at every fourth
      index slot and a vertex index below 8 everywhere else. */
  lemma BoxShape(size: Vec3)
    requires BoxMesh(size).Some?
    ensures var m := BoxMesh(size).value;
      |m.points| == 8 && |m.coordIndex| == 4 * 12 && TriangleStream(m.coordIndex, |m.points|)
  {
    BoxFaces();
    FlattenIsTriangleStream(BoxTriangles, 8);
  }

  // ---------------------------------------------------------------------
  // Cone: rim vertices 0..n-1, apex n, bottom centre n+1

  /** A vertex at height y on the circle of the given radius, at the angle
      whose cos and sin are cs. */
  function RimPoint(radius: real, y: real, cs: CosSin): Vec3
  {
    Vec3(radius * cs.cos, y, radius * cs.sin)
  }

  /** The first k rim vertices of a cone of the given radius. */
  function ConeRim(radius: real, trig: Trig, k: nat): (ps: seq<Vec3>)
    ensures |ps| == k
  {
    if k == 0 then []
    else ConeRim(radius, trig, k - 1) + [RimPoint(radius, 0.0, trig.around(k - 1))]
  }

  /** Side and bottom triangles of the first k of n segments. */
  function ConeTriangles(n: nat, k: nat): (ts: seq<Tri>)
    requires k <= n
    ensures |ts| == 2 * k
    ensures AllInRange(ts, n + 2)
  {
    if k == 0 then []
    else ConeTriangles(n, k - 1) + [Tri(n, k % n, k - 1), Tri(n + 1, k - 1, k % n)]
  }

  /** The mesh convertCone builds with n divisions, or None for a negative
      height or radius. */
  function ConeMesh(bottomRadius: real, height: real, n: nat, trig: Trig): Option<MeshData>
  {
    if height < 0.0 || bottomRadius < 0.0 then None
    else Some(Built(ConeRim(bottomRadius, trig, n) + [Vec3(0.0, height, 0.0), Origin],
                    ConeTriangles(n, n), QuarterTurn))
  }

  /** A valid cone has n + 2 vertices and 2n triangles over them, with the
      apex at index n and the bottom centre at n + 1. */
  lemma ConeShape(bottomRadius: real, height: real, n: nat, trig: Trig)
    requires ConeMesh(bottomRadius, height, n, trig).Some?
    ensures var m := ConeMesh(bottomRadius, height, n, trig).value;
      && |m.points| == n + 2 && |m.coordIndex| == 4 * (2 * n)
      && TriangleStream(m.coordIndex, |m.points|)
      && m.points[n] == Vec3(0.0, height, 0.0) && m.points[n + 1] == Origin
  {
    FlattenIsTriangleStream(ConeTriangles(n, n), n + 2);
  }

  /** Every rim vertex lies on the bottom circle when the cos/sin table is
      a table of unit vectors. */
  lemma {:induction false} ConeRimOnCircle(radius: real, trig: Trig, k: nat, i: int)
    requires 0 <= i < k
    requires var cs := trig.around(i); cs.cos * cs.cos + cs.sin * cs.sin == 1.0
    ensures var v := ConeRim(radius, trig, k)[i]; v.y == 0.0 && v.x * v.x + v.z * v.z == radius * radius
  {
    if i < k - 1 {
      ConeRimOnCircle(radius, trig, k - 1, i);
      assert ConeRim(radius, trig, k)[i] == ConeRim(radius, trig, k - 1)[i];
    } else {
      var cs := trig.around(i);
      var v := ConeRim(radius, trig, k)[i];
      assert v == Vec3(radius * cs.cos, 0.0, radius * cs.sin);
      calc {
        v.x * v.x + v.z * v.z;
        (radius * cs.cos) * (radius * cs.cos) + (radius * cs.sin) * (radius * cs.sin);
        radius * radius * (cs.cos * cs.cos + cs.sin * cs.sin);
        radius * radius;
      }
    }
  }

  // ---------------------------------------------------------------------
  // Cylinder: top rim 0..n-1, bottom rim n..2n-1, centres 2n and 2n+1

  /** Rim vertex k of a cylinder whose rims are at heights y and -y. */
  function CylinderRimAt(n: nat, radius: real, y: real, trig: Trig, k: int): Vec3
    requires 0 <= k < 2 * n
  {
    if k < n then RimPoint(radius, y, trig.around(k)) else RimPoint(radius, -y, trig.around(k - n))
  }

  function CylinderRim(n: nat, radius: real, y: real, trig: Trig): (ps: seq<Vec3>)
    ensures |ps| == 2 * n
  {
    seq(2 * n, k requires 0 <= k < 2 * n => CylinderRimAt(n, radius, y, trig, k))
  }

  /** Top, two side and bottom triangles of the first k of n segments. */
  function CylinderTriangles(n: nat, k: nat): (ts: seq<Tri>)
    requires k <= n
    ensures |ts| == 4 * k
    ensures AllInRange(ts, 2 * n + 2)
  {
    if k == 0 then []
    else
      var i, i1 := k - 1, k % n;
      CylinderTriangles(n, k - 1)
        + [Tri(2 * n, i1, i), Tri(i, i1 + n, i + n), Tri(i, i1, i1 + n), Tri(2 * n + 1, i + n, i1 + n)]
  }

  /** The mesh convertCylinder builds with n divisions, or None for a
      negative height or radius. */
  function CylinderMesh(radius: real, height: real, n: nat, trig: Trig): Option<MeshData>
  {
    if height < 0.0 || radius < 0.0 then None
    else
      var y := height / 2.0;
      Some(Built(CylinderRim(n, radius, y, trig) + [Vec3(0.0, y, 0.0), Vec3(0.0, -y, 0.0)],
                 CylinderTriangles(n, n), QuarterTurn))
  }

  /** A valid cylinder has 2n + 2 vertices and 4n triangles over them. */
  lemma CylinderShape(radius: real, height: real, n: nat, trig: Trig)
    requires CylinderMesh(radius, height, n, trig).Some?
    ensures var m := CylinderMesh(radius, height, n, trig).value;
      && |m.points| == 2 * n + 2 && |m.coordIndex| == 4 * (4 * n)
      && TriangleStream(m.coordIndex, |m.points|)
  {
    var ts := CylinderTriangles(n, n);
    var rim := CylinderRim(n, radius, height / 2.0, trig);
    var m := CylinderMesh(radius, height, n, trig).value;
    assert m.coordIndex == Flatten(ts) && |ts| == 4 * n;
    assert |m.points| == |rim| + 2 == 2 * n + 2;
    FlattenIsTriangleStream(ts, 2 * n + 2);
  }

  /** Top rim vertex i sits straight above bottom rim vertex i + n, at half
      the height above and below the centre. */
  lemma CylinderRimsAligned(radius: real, height: real, n: nat, trig: Trig, i: int)
    requires CylinderMesh(radius, height, n, trig).Some? && 0 <= i < n
    ensures var ps := CylinderMesh(radius, height, n, trig).value.points;
      && ps[i].x == ps[i + n].x && ps[i].z == ps[i + n].z
      && ps[i].y == height / 2.0 && ps[i + n].y == -(height / 2.0)
  {
    var y := height / 2.0;
    var rim := CylinderRim(n, radius, y, trig);
    var ps := CylinderMesh(radius, height, n, trig).value.points;
    assert ps == rim + [Vec3(0.0, y, 0.0), Vec3(0.0, -y, 0.0)];
    assert ps[i] == rim[i] == CylinderRimAt(n, radius, y, trig, i);
    assert ps[i + n] == rim[i + n] == CylinderRimAt(n, radius, y, trig, i + n);
  }

  // ---------------------------------------------------------------------
  // Sphere: rings 1..n-1 of n vertices each, then the two poles

  function SpherePoint(radius: real, trig: Trig, i: int, j: int): Vec3
  {
    var tv, th := trig.down(i), trig.around(j);
    Vec3(radius * tv.sin * th.cos, radius * tv.cos, radius * tv.sin * th.sin)
  }

  /** The first k vertices of latitude ring i. */
  function SphereRing(radius: real, trig: Trig, i: int, k: nat): (ps: seq<Vec3>)
    ensures |ps| == k
  {
    if k == 0 then [] else SphereRing(radius, trig, i, k - 1) + [SpherePoint(radius, trig, i, k - 1)]
  }

  /** Rings 1..m, n vertices each. */
  function SphereRings(n: nat, radius: real, trig: Trig, m: nat): (ps: seq<Vec3>)
    ensures |ps| == m * n
  {
    if m == 0 then [] else SphereRings(n, radius, trig, m - 1) + SphereRing(radius, trig, m, n)
  }

  /** Trip count of the ring and band loops, which run while i < n - 1. */
  function Bands(n: nat): nat
  {
    Pos(n - 1)
  }

  function SphereVertexCount(n: nat): int
  {
    (n - 1) * n + 2
  }

  function SpherePoints(n: nat, radius: real, trig: Trig): (ps: seq<Vec3>)
    ensures |ps| == SphereVertexCount(n)
  {
    SphereRings(n, radius, trig, Bands(n)) + [Vec3(0.0, radius, 0.0), Vec3(0.0, -radius, 0.0)]
  }

  /** The first k triangles of the fan around the north pole `top`. */
  function TopFan(n: nat, top: int, k: nat): (ts: seq<Tri>)
    requires k <= n
    ensures |ts| == k
    ensures 0 <= top && n <= top + 1 ==> AllInRange(ts, top + 1)
  {
    if k == 0 then [] else TopFan(n, top, k - 1) + [Tri(top, k % n, k - 1)]
  }

  /** The first k quads (two triangles each) of the band between the rings
      starting at indices `upper` and `lower`. */
  function Band(n: nat, upper: int, lower: int, k: nat): (ts: seq<Tri>)
    requires k <= n
    ensures |ts| == 2 * k
    ensures 0 <= upper <= lower ==> AllInRange(ts, lower + n)
  {
    if k == 0 then []
    else
      var j, j1 := k - 1, k % n;
      Band(n, upper, lower, k - 1) + [Tri(j + upper, j1 + lower, j + lower), Tri(j + upper, j1 + upper, j1 + lower)]
  }

  /** Bands 0..m-1; band i joins ring index range i*n.. with (i+1)*n.. . */
  function SphereBands(n: nat, m: nat): (ts: seq<Tri>)
    ensures |ts| == 2 * n * m
    ensures AllInRange(ts, (m + 1) * n)
  {
    if m == 0 then []
    else
      var ts := SphereBands(n, m - 1) + Band(n, (m - 1) * n, m * n, n);
      assert AllInRange(SphereBands(n, m - 1), (m + 1) * n);
      ts
  }

  /** The first k triangles of the fan around the south pole `bottom`, over
      the ring starting at index `offset`. */
  function BottomFan(n: nat, bottom: int, offset: int, k: nat): (ts: seq<Tri>)
    requires k <= n
    ensures |ts| == k
    ensures 0 <= offset && offset + n <= bottom + 1 ==> AllInRange(ts, bottom + 1)
  {
    if k == 0 then [] else BottomFan(n, bottom, offset, k - 1) + [Tri(bottom, (k - 1) % n + offset, k % n + offset)]
  }

  function SphereTriangles(n: nat): seq<Tri>
  {
    TopFan(n, (n - 1) * n, n) + SphereBands(n, Bands(n)) + BottomFan(n, (n - 1) * n + 1, (n - 2) * n, n)
  }

  /** The mesh convertSphere builds with n divisions, or None for a negative
      radius. */
  function SphereMesh(radius: real, n: nat, trig: Trig): Option<MeshData>
  {
    if radius < 0.0 then None
    else Some(Built(SpherePoints(n, radius, trig), SphereTriangles(n), Pi))
  }

  /** A valid sphere has (n-1)*n + 2 vertices and 2n^2 triangles. */
  lemma SphereShape(radius: real, n: nat, trig: Trig)
    requires SphereMesh(radius, n, trig).Some?
    ensures var m := SphereMesh(radius, n, trig).value;
      |m.points| == (n - 1) * n + 2 && |m.coordIndex| == 4 * (2 * n * n)
  {
    var ts := SphereTriangles(n);
    assert |ts| == n + 2 * n * Bands(n) + n;
    if n >= 1 {
      assert 2 * n * Bands(n) == 2 * n * n - 2 * n;
    }
  }

  /** All triangles but those of the last band (i = n - 2) are in range for
      every n >= 2: the two fans and the first n - 2 bands. */
  lemma SphereInRangeBeforeLastBand(n: nat)
    requires n >= 2
    ensures var heads := TopFan(n, (n - 1) * n, n) + SphereBands(n, n - 2);
      var tail := BottomFan(n, (n - 1) * n + 1, (n - 2) * n, n);
      && SphereTriangles(n) == heads + Band(n, (n - 2) * n, (n - 1) * n, n) + tail
      && AllInRange(heads, SphereVertexCount(n)) && AllInRange(tail, SphereVertexCount(n))
  {
    SphereFansInRange(n);
    SphereBandsBeforeLast(n);
    assert Bands(n) == n - 1;
    assert SphereBands(n, n - 1) == SphereBands(n, n - 2) + Band(n, (n - 2) * n, (n - 1) * n, n);
  }

  /** The two pole fans stay below the vertex count. */
  lemma SphereFansInRange(n: nat)
    requires n >= 2
    ensures AllInRange(TopFan(n, (n - 1) * n, n), SphereVertexCount(n))
    ensures AllInRange(BottomFan(n, (n - 1) * n + 1, (n - 2) * n, n), SphereVertexCount(n))
  {
    var top := (n - 1) * n;
    assert top == (n - 2) * n + n && n <= top + 1;
    assert AllInRange(TopFan(n, top, n), top + 1);
    assert AllInRange(BottomFan(n, top + 1, (n - 2) * n, n), top + 2);
  }

  /** The first n - 2 bands stay below the vertex count. */
  lemma SphereBandsBeforeLast(n: nat)
    requires n >= 2
    ensures AllInRange(SphereBands(n, n - 2), SphereVertexCount(n))
  {
    assert (n - 2 + 1) * n <= (n - 1) * n;
    assert AllInRange(SphereBands(n, n - 2), (n - 2 + 1) * n);
  }

  /** The side-band loop runs one band too many: for n >= 3 the last band
      names vertex n*n - 1, beyond the (n-1)*n + 2 vertices, so a valid
      sphere's index stream is not a triangle stream over its vertices. */
  lemma SphereOverrun(radius: real, n: nat, trig: Trig)
    requires SphereMesh(radius, n, trig).Some? && n >= 3
    ensures var m := SphereMesh(radius, n, trig).value;
      && n * n - 1 in m.coordIndex && n * n - 1 >= |m.points|
      && !TriangleStream(m.coordIndex, |m.points|)
  {
    var v := SphereVertexCount(n);
    var upper, lower := (n - 2) * n, (n - 1) * n;
    var band := Band(n, upper, lower, n);
    assert band == Band(n, upper, lower, n - 1) + [Tri(n - 1 + upper, 0 + lower, n - 1 + lower), Tri(n - 1 + upper, 0 + upper, 0 + lower)];
    var bad := band[2 * n - 2];
    assert bad.c == n * n - 1;
    var heads := TopFan(n, (n - 1) * n, n) + SphereBands(n, n - 2);
    var tail := BottomFan(n, (n - 1) * n + 1, (n - 2) * n, n);
    SphereInRangeBeforeLastBand(n);
    var ts := SphereTriangles(n);
    var t := |heads| + 2 * n - 2;
    assert ts[t] == bad;
    assert !InRange(ts[t], v) by {
      assert n * n - 1 >= (n - 1) * n + 2;
    }
    FlattenIsTriangleStream(ts, v);
    FlattenAt(ts, t, 2);
    assert Flatten(ts)[4 * t + 2] == n * n - 1;
  }

  /** With a single division the bottom fan sits on the ring at index -n = -1,
      so the stream holds -1 in vertex slots. */
  lemma SphereOneDivision(radius: real, trig: Trig)
    requires radius >= 0.0
    ensures SphereMesh(radius, 1, trig).value.coordIndex == [0, 0, 0, -1, 1, -1, -1, -1]
  {
    assert SphereTriangles(1) == [Tri(0, 0, 0), Tri(1, -1, -1)] by {
      assert TopFan(1, 0, 1) == [Tri(0, 0, 0)];
      assert SphereBands(1, Bands(1)) == [];
      assert BottomFan(1, 1, -1, 1) == [Tri(1, -1, -1)];
    }
    FlattenPair(Tri(0, 0, 0), Tri(1, -1, -1));
  }

  // ---------------------------------------------------------------------
  // ElevationGrid: vertex z * xDimension + x at column x of row z

  /** The product check convertElevationGrid makes before building. */
  predicate GridValid(g: Grid)
  {
    g.xDimension * g.zDimension == |g.height|
  }

  function GridPoint(g: Grid, z: int, x: int): Vec3
    requires 0 <= x && 0 <= z * g.xDimension && z * g.xDimension + x < |g.height|
  {
    Vec3(x as real * g.xSpacing, g.height[z * g.xDimension + x], z as real * g.zSpacing)
  }

  /** The first k vertices of row z. */
  function GridRow(g: Grid, z: nat, k: nat): (ps: seq<Vec3>)
    requires 0 <= z * g.xDimension && z * g.xDimension + k <= |g.height|
    ensures |ps| == k
  {
    if k == 0 then [] else GridRow(g, z, k - 1) + [GridPoint(g, z, k - 1)]
  }

  /** Rows 0..m-1, Pos(xDimension) vertices each. */
  function GridRows(g: Grid, m: nat): (ps: seq<Vec3>)
    requires m * Pos(g.xDimension) <= |g.height|
    ensures |ps| == m * Pos(g.xDimension)
  {
    if m == 0 then []
    else
      var w := Pos(g.xDimension);
      assert (m - 1) * w + w == m * w;
      if w == 0 then GridRows(g, m - 1) + []
      else
        assert g.xDimension == w;
        GridRows(g, m - 1) + GridRow(g, m - 1, w)
  }

  /** The first k cells (two triangles each) of strip z. */
  function GridCells(g: Grid, z: nat, k: nat): (ts: seq<Tri>)
    ensures |ts| == 2 * k
    ensures k < g.xDimension ==> AllInRange(ts, (z + 2) * g.xDimension)
  {
    if k == 0 then []
    else
      var x, cur, next := k - 1, z * g.xDimension, (z + 1) * g.xDimension;
      GridCells(g, z, k - 1) + [Tri(x + cur, x + next, x + 1 + next), Tri(x + cur, x + 1 + next, x + 1 + cur)]
  }

  /** Strips 0..m-1, Pos(xDimension - 1) cells each. */
  function GridStrips(g: Grid, m: nat): (ts: seq<Tri>)
    ensures |ts| == 2 * m * Pos(g.xDimension - 1)
    ensures AllInRange(ts, (m + 1) * g.xDimension)
  {
    if m == 0 then []
    else
      var ts := GridStrips(g, m - 1) + GridCells(g, m - 1, Pos(g.xDimension - 1));
      if g.xDimension < 2 then
        assert |ts| == 0;
        ts
      else
        assert m * g.xDimension <= (m + 1) * g.xDimension;
        assert AllInRange(GridStrips(g, m - 1), (m + 1) * g.xDimension);
        ts
  }

  lemma GridProductBound(g: Grid)
    requires GridValid(g)
    ensures Pos(g.zDimension) * Pos(g.xDimension) <= |g.height|
  {
  }

  /** The capacity convertElevationGrid reserves for the index array,
      (zDimension - 1) * (xDimension - 1) * 2 * 4. A negative one becomes a
      huge size_t, and `reserve` throws std::length_error. */
  function GridIndexCapacity(g: Grid): int
  {
    (g.zDimension - 1) * (g.xDimension - 1) * 2 * 4
  }

  /** The mesh convertElevationGrid builds, or None when it gives up: when
      the dimensions do not match the number of heights (a false result), or
      when the index capacity it reserves is negative (an exception). */
  function GridMesh(g: Grid): (r: Option<MeshData>)
    ensures r.Some? <==> GridValid(g) && GridIndexCapacity(g) >= 0
  {
    if !GridValid(g) || GridIndexCapacity(g) < 0 then None
    else Some(Built(GridPoints(g), GridStrips(g, Pos(g.zDimension - 1)), g.creaseAngle))
  }

  /** A grid that passes the dimension check makes the index reservation
      throw exactly when one dimension is 0 and the other is at least 2;
      nothing has been added to the mesh by then, since such a grid has no
      vertices. */
  lemma GridReserveThrows(g: Grid)
    requires GridValid(g)
    ensures GridIndexCapacity(g) < 0 <==>
      (g.xDimension == 0 && g.zDimension >= 2) || (g.zDimension == 0 && g.xDimension >= 2)
    ensures GridIndexCapacity(g) < 0 ==> Pos(g.zDimension) * Pos(g.xDimension) == 0
  {
    var x, z := g.xDimension, g.zDimension;
    ProductSign(x, z);
    ProductSign(z - 1, x - 1);
  }

  /** A product is negative exactly when its factors have opposite signs. */
  lemma ProductSign(a: int, b: int)
    ensures a * b < 0 <==> (a < 0 && b > 0) || (a > 0 && b < 0)
  {
    if a > 0 && b > 0 {
      assert a * b > 0;
    } else if a < 0 && b < 0 {
      assert a * b == (-a) * (-b);
    } else if a < 0 && b > 0 {
      assert a * b == -((-a) * b);
    } else if a > 0 && b < 0 {
      assert a * b == -(a * (-b));
    }
  }

  /** All rows of a valid grid. */
  function GridPoints(g: Grid): (ps: seq<Vec3>)
    requires GridValid(g)
    ensures |ps| == Pos(g.zDimension) * Pos(g.xDimension)
  {
    GridProductBound(g);
    GridRows(g, Pos(g.zDimension))
  }

  /** A valid grid has Pos(xDim)*Pos(zDim) vertices and
      2*Pos(xDim-1)*Pos(zDim-1) triangles over them. */
  lemma GridShape(g: Grid)
    requires GridMesh(g).Some?
    ensures var m := GridMesh(g).value;
      && |m.points| == Pos(g.xDimension) * Pos(g.zDimension)
      && |m.coordIndex| == 4 * (2 * Pos(g.xDimension - 1) * Pos(g.zDimension - 1))
      && TriangleStream(m.coordIndex, |m.points|)
  {
    var m := GridMesh(g).value;
    var rows, strips := Pos(g.zDimension), Pos(g.zDimension - 1);
    var ts := GridStrips(g, strips);
    assert m.points == GridPoints(g) && m.coordIndex == Flatten(ts);
    var v := Pos(g.xDimension) * rows;
    assert |ts| == 2 * Pos(g.xDimension - 1) * strips;
    if g.xDimension >= 2 && g.zDimension >= 2 {
      assert (strips + 1) * g.xDimension == v;
      FlattenIsTriangleStream(ts, v);
    } else {
      assert Pos(g.xDimension - 1) == 0 || strips == 0;
      assert ts == [];
      FlattenIsTriangleStream(ts, v);
    }
  }

  // ---------------------------------------------------------------------
  // Dispatch on the geometry kind

  /** The mesh that convertShapeNode builds for a geometry other than an
      IndexedFaceSet, or None when it gives up: on invalid parameters, on an
      Extrusion (never converted) and on any other node. */
  function PrimitiveMesh(g: Geometry, n: nat, trig: Trig): (r: Option<MeshData>)
    ensures r.Some? ==> r.value.hasCoord && r.value.colors == [] && r.value.colorIndex == []
    ensures r.Some? ==> !r.value.hasNormal && r.value.normals == [] && r.value.normalIndex == []
    ensures g.Extrusion? || g.IndexedFaceSet? || g.Unsupported? ==> r.None?
  {
    match g
    case Box(size) => BoxMesh(size)
    case Cone(bottomRadius, height) => ConeMesh(bottomRadius, height, n, trig)
    case Cylinder(radius, height) => CylinderMesh(radius, height, n, trig)
    case Sphere(radius) => SphereMesh(radius, n, trig)
    case ElevationGrid(grid) => GridMesh(grid)
    case _ => None
  }

  /** Every primitive mesh except the sphere's is a well-formed triangle
      stream over its own vertices. */
  lemma PrimitiveTriangulated(g: Geometry, n: nat, trig: Trig)
    requires PrimitiveMesh(g, n, trig).Some? && !g.Sphere?
    ensures var m := PrimitiveMesh(g, n, trig).value;
      TriangleStream(m.coordIndex, |m.points|)
  {
    match g
    case Box(size) => BoxShape(size);
    case Cone(bottomRadius, height) => ConeShape(bottomRadius, height, n, trig);
    case Cylinder(radius, height) => CylinderShape(radius, height, n, trig);
    case ElevationGrid(grid) => GridShape(grid);
  }
}
