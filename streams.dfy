/** Face-index streams: the flat, sentinel-terminated `coordIndex` layout of an
    IndexedFaceSet, and its triangles-only form (three indices, then -1). */
module Streams {

  /** One triangle: three indices (vertex indices, or positions inside a polygon). */
  datatype Tri = Tri(a: int, b: int, c: int)

  /** The value that ends a face in a face-index stream. */
  const Sentinel: int := -1

  /** Slot m (0..3) of a triangle in its stream form. */
  function Corner(t: Tri, m: int): int
  {
    if m == 0 then t.a else if m == 1 then t.b else if m == 2 then t.c else Sentinel
  }

  predicate Has(t: Tri, v: int)
  {
    t.a == v || t.b == v || t.c == v
  }

  /** All three corners of t lie in [0, n). */
  predicate InRange(t: Tri, n: int)
  {
    0 <= t.a < n && 0 <= t.b < n && 0 <= t.c < n
  }

  predicate AllInRange(ts: seq<Tri>, n: int)
  {
    forall j :: 0 <= j < |ts| ==> InRange(ts[j], n)
  }

  /** The stream of ts: every triangle's three indices followed by a sentinel. */
  function Flatten(ts: seq<Tri>): (s: seq<int>)
    ensures |s| == 4 * |ts|
  {
    seq(4 * |ts|, p requires 0 <= p < 4 * |ts| => Corner(ts[p / 4], p % 4))
  }

  /** Face j of s is a triangle over n vertices: three indices in [0, n), then -1. */
  predicate TriangleAt(s: seq<int>, j: int, n: int)
    requires 0 <= j < |s| / 4
  {
    0 <= s[4 * j] < n && 0 <= s[4 * j + 1] < n && 0 <= s[4 * j + 2] < n && s[4 * j + 3] == Sentinel
  }

  /** A stream made only of triangles over n vertices: -1 at every fourth
      slot, a vertex index in [0, n) everywhere else. */
  predicate TriangleStream(s: seq<int>, n: int)
  {
    && |s| % 4 == 0
    && forall j :: 0 <= j < |s| / 4 ==> TriangleAt(s, j, n)
  }

  /** Reads a triangles-only stream back as triangles. */
  function Unflatten(s: seq<int>): (ts: seq<Tri>)
    requires |s| % 4 == 0
    ensures 4 * |ts| == |s|
  {
    seq(|s| / 4, j requires 0 <= j < |s| / 4 => Tri(s[4 * j], s[4 * j + 1], s[4 * j + 2]))
  }

  lemma FlattenAt(ts: seq<Tri>, j: int, m: int)
    requires 0 <= j < |ts| && 0 <= m < 4
    ensures Flatten(ts)[4 * j + m] == Corner(ts[j], m)
  {
    assert (4 * j + m) / 4 == j && (4 * j + m) % 4 == m;
  }

  /** Flattening distributes over concatenation, so pushing one triangle's four
      slots onto a stream is flattening one more triangle. */
  lemma FlattenConcat(xs: seq<Tri>, ys: seq<Tri>)
    ensures Flatten(xs + ys) == Flatten(xs) + Flatten(ys)
  {
    var l, r := Flatten(xs + ys), Flatten(xs) + Flatten(ys);
    forall p | 0 <= p < |l| ensures l[p] == r[p] {
      FlattenConcatAt(xs, ys, p / 4, p % 4);
    }
  }

  /** Slot m of triangle j of xs + ys, in both forms of the stream. */
  lemma FlattenConcatAt(xs: seq<Tri>, ys: seq<Tri>, j: int, m: int)
    requires 0 <= j < |xs| + |ys| && 0 <= m < 4
    ensures Flatten(xs + ys)[4 * j + m] == (Flatten(xs) + Flatten(ys))[4 * j + m]
  {
    FlattenAt(xs + ys, j, m);
    if j < |xs| {
      FlattenAt(xs, j, m);
    } else {
      FlattenAt(ys, j - |xs|, m);
      assert 4 * j + m - 4 * |xs| == 4 * (j - |xs|) + m;
    }
  }

  lemma FlattenPush(ts: seq<Tri>, t: Tri)
    ensures Flatten(ts + [t]) == Flatten(ts) + [t.a, t.b, t.c, Sentinel]
  {
    FlattenConcat(ts, [t]);
    var one := Flatten([t]);
    FlattenAt([t], 0, 0); FlattenAt([t], 0, 1); FlattenAt([t], 0, 2); FlattenAt([t], 0, 3);
    assert one == [t.a, t.b, t.c, Sentinel];
  }

  /** A flattened list of triangles is a triangles-only stream over n vertices
      exactly when every triangle's corners are below n. */
  lemma FlattenIsTriangleStream(ts: seq<Tri>, n: int)
    ensures TriangleStream(Flatten(ts), n) <==> AllInRange(ts, n)
  {
    var s := Flatten(ts);
    forall j | 0 <= j < |ts|
      ensures j < |s| / 4 && (TriangleAt(s, j, n) <==> InRange(ts[j], n))
    {
      FlattenAt(ts, j, 0); FlattenAt(ts, j, 1); FlattenAt(ts, j, 2); FlattenAt(ts, j, 3);
    }
    if TriangleStream(s, n) {
      assert forall j :: 0 <= j < |ts| ==> TriangleAt(s, j, n);
    }
  }

  /** Slot p of a triangles-only stream: the sentinel at every fourth slot, a
      vertex index below n elsewhere. */
  lemma TriangleStreamAt(s: seq<int>, n: int, p: int)
    requires TriangleStream(s, n) && 0 <= p < |s|
    ensures p % 4 == 3 ==> s[p] == Sentinel
    ensures p % 4 != 3 ==> 0 <= s[p] < n
  {
    var j := p / 4;
    assert p == 4 * j + p % 4 && j < |s| / 4;
    assert TriangleAt(s, j, n);
  }

  /** Round trip, one way: reading a flattened list gives the list back. */
  lemma UnflattenFlatten(ts: seq<Tri>)
    ensures Unflatten(Flatten(ts)) == ts
  {
    var back := Unflatten(Flatten(ts));
    forall j | 0 <= j < |ts| ensures back[j] == ts[j] {
      FlattenAt(ts, j, 0); FlattenAt(ts, j, 1); FlattenAt(ts, j, 2);
    }
  }

  /** Round trip, the other way: a triangles-only stream is the flattening of
      the triangles read from it. */
  lemma FlattenUnflatten(s: seq<int>, n: int)
    requires TriangleStream(s, n)
    ensures Flatten(Unflatten(s)) == s
  {
    var ts := Unflatten(s);
    var again := Flatten(ts);
    forall p | 0 <= p < |s| ensures again[p] == s[p] {
      var j, m := p / 4, p % 4;
      assert p == 4 * j + m && j < |s| / 4;
      assert TriangleAt(s, j, n);
      FlattenAt(ts, j, m);
    }
  }

  /** The stream of two triangles, slot by slot. */
  lemma FlattenPair(x: Tri, y: Tri)
    ensures Flatten([x, y]) == [x.a, x.b, x.c, Sentinel, y.a, y.b, y.c, Sentinel]
  {
    FlattenPush([x], y);
    FlattenPush([], x);
  }
}
