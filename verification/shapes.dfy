/** Edges, the projection onto the image plane, the records a point or an
    edge draws, and polygons with their edges, barycenter and oriented
    normal. */
module Shapes {
  import opened Results
  import opened Vectors
  import opened RealAlgebra
  import opened Protocol

  // ---------------------------------------------------------------------
  // Edges

  /** A segment between two points; its orientation is not significant. */
  datatype Edge = Edge(a: Point, b: Point)

  /** Edge equality (`Edge.__eq__`): the same endpoints in either order,
      that is, the edge itself or its reversal. */
  predicate SameEdge(e: Edge, f: Edge): (r: bool)
    ensures r <==> e == f || e == Edge(f.b, f.a)
  {
    (e.a == f.a && e.b == f.b) || (e.a == f.b && e.b == f.a)
  }

  /** Two edges are equal exactly when their endpoint multisets agree. */
  lemma SameEdgeIffSameEnds(e: Edge, f: Edge)
    ensures SameEdge(e, f) <==> multiset{e.a, e.b} == multiset{f.a, f.b}
  {
    var me, mf := multiset{e.a, e.b}, multiset{f.a, f.b};
    if me == mf {
      assert f.a in me;
      if f.a == e.a {
        assert me - multiset{e.a} == multiset{e.b};
        assert mf - multiset{f.a} == multiset{f.b};
        assert e.b in multiset{f.b};
      } else {
        assert f.a == e.b;
        assert me - multiset{e.b} == multiset{e.a};
        assert mf - multiset{f.a} == multiset{f.b};
        assert e.a in multiset{f.b};
      }
    }
  }

  /** Edge equality is an equivalence relation that ignores direction. */
  lemma SameEdgeEquivalence(e: Edge, f: Edge, g: Edge)
    ensures SameEdge(e, e)
    ensures SameEdge(e, Edge(e.b, e.a))
    ensures SameEdge(e, f) ==> SameEdge(f, e)
    ensures SameEdge(e, f) && SameEdge(f, g) ==> SameEdge(e, g)
  {
  }

  /** Python's 64-bit hash value -1, which `hash()` reserves for errors. */
  const MinusOne: bv64 := 0xFFFF_FFFF_FFFF_FFFF

  /** Python's `hash()` of an object whose `__hash__` returns v: a result
      of -1 is replaced by -2, every other value is kept. */
  function PyHash(v: bv64): (r: bv64)
    ensures r != MinusOne
    ensures r == v || (v == MinusOne && r == MinusOne - 1)
  {
    if v == MinusOne then MinusOne - 1 else v
  }

  /** `Point.__hash__` as `hash()` returns it: the XOR of the hashes `h`
      gives the three coordinates, never -1. Python's float hash is the
      parameter `h`. */
  function PointHash(h: real -> bv64, p: Point): (r: bv64)
    ensures r != MinusOne
    ensures h(p.x) ^ h(p.y) ^ h(p.z) != MinusOne ==> r == h(p.x) ^ h(p.y) ^ h(p.z)
  {
    PyHash(h(p.x) ^ h(p.y) ^ h(p.z))
  }

  /** `Edge.__hash__` as `hash()` returns it: built from the endpoint hashes
      without regard to their order. */
  function EdgeHash(h: real -> bv64, e: Edge): (r: bv64)
    ensures r != MinusOne
    ensures r == PyHash(PointHash(h, e.b) ^ PointHash(h, e.a))
  {
    PyHash(PointHash(h, e.a) ^ PointHash(h, e.b))
  }

  /** Equal edges hash alike, whichever direction they are written in,
      so a hash set finds an edge under either orientation. */
  lemma SameEdgeSameHash(h: real -> bv64, e: Edge, f: Edge)
    requires SameEdge(e, f)
    ensures EdgeHash(h, e) == EdgeHash(h, f)
    ensures EdgeHash(h, Edge(e.b, e.a)) == EdgeHash(h, e)
  {
    if e != f {
      assert f == Edge(e.b, e.a);
    }
  }

  // ---------------------------------------------------------------------
  // Projection and the records of points and edges

  /** The eye of the perspective camera, on the z axis at `focus`. */
  function Eye(focus: real): Point {
    Point(0.0, 0.0, focus)
  }

  /** `add_perspective`: the pinhole projection onto the plane z = 0 seen
      from the eye. The result is the point of that plane on the line
      through the eye and p. */
  function Project(p: Point, focus: real): (q: Point)
    requires p.z != focus
    ensures q.z == 0.0
    ensures q.x * (focus - p.z) == focus * p.x
    ensures q.y * (focus - p.z) == focus * p.y
  {
    QuotientTimesDivisor(focus * p.x, focus - p.z);
    QuotientTimesDivisor(focus * p.y, focus - p.z);
    Point(focus * p.x / (focus - p.z), focus * p.y / (focus - p.z), 0.0)
  }

  /** Every point on the line through the eye and p, other than the eye,
      projects to the same place as p. */
  lemma ProjectionAlongRay(p: Point, focus: real, k: real)
    requires p.z != focus && k != 0.0
    ensures Add(Eye(focus), Scale(Sub(p, Eye(focus)), k)).z != focus
    ensures Project(Add(Eye(focus), Scale(Sub(p, Eye(focus)), k)), focus) == Project(p, focus)
  {
    var q := Add(Eye(focus), Scale(Sub(p, Eye(focus)), k));
    assert q == Point(p.x * k, p.y * k, focus + (p.z - focus) * k);
    RayQuotients(p.x, p.y, p.z, focus, k, q.x, q.y, q.z);
    SameQuotientsSameProjection(p, q, focus);
  }

  lemma SameQuotientsSameProjection(p: Point, q: Point, focus: real)
    requires p.z != focus && q.z != focus
    requires focus * q.x / (focus - q.z) == focus * p.x / (focus - p.z)
    requires focus * q.y / (focus - q.z) == focus * p.y / (focus - p.z)
    ensures Project(q, focus) == Project(p, focus)
  {
  }

  /** Points already on the image plane stay where they are. */
  lemma ProjectionFixesImagePlane(p: Point, focus: real)
    requires p.z == 0.0 && focus != 0.0
    ensures Project(p, focus) == p
  {
    QuotientOfMultiple(p.x, focus);
    QuotientOfMultiple(p.y, focus);
  }

  /** `Point.draw`: nothing for a point in the plane of the eye (in both
      modes), otherwise one `point` record with the orthographic or the
      projected coordinates. */
  function PointRecords(p: Point, cfg: DrawConfig): (rs: seq<Record>)
    ensures rs == [] <==> p.z == cfg.focus
    ensures |rs| <= 1
    ensures forall r | r in rs :: r.PointRecord? && r.newline == !cfg.perspective
    ensures rs != [] && !cfg.perspective ==> rs[0].x == p.x && rs[0].y == p.y
    ensures rs != [] && cfg.perspective ==>
      rs[0].x * (cfg.focus - p.z) == cfg.focus * p.x && rs[0].y * (cfg.focus - p.z) == cfg.focus * p.y
  {
    if p.z == cfg.focus then []
    else if !cfg.perspective then [PointRecord(p.x, p.y, true)]
    else
      var q := Project(p, cfg.focus);
      [PointRecord(q.x, q.y, false)]
  }

  /** A point can be projected unless perspective mode must project it
      from the plane of the eye, which divides by zero. */
  predicate Projectable(p: Point, cfg: DrawConfig) {
    cfg.perspective ==> p.z != cfg.focus
  }

  /** An edge can be drawn unless perspective mode must project one of its
      endpoints from the plane of the eye, which divides by zero. */
  predicate EdgeProjectable(e: Edge, cfg: DrawConfig) {
    Projectable(e.a, cfg) && Projectable(e.b, cfg)
  }

  /** `Edge.draw`: one `line` record from the first endpoint's image to
      the second's. */
  function EdgeRecord(e: Edge, cfg: DrawConfig): (r: Record)
    requires EdgeProjectable(e, cfg)
    ensures r.LineRecord?
    ensures !cfg.perspective ==> r.x1 == e.a.x && r.y1 == e.a.y && r.x2 == e.b.x && r.y2 == e.b.y
    ensures cfg.perspective ==>
      && r.x1 * (cfg.focus - e.a.z) == cfg.focus * e.a.x && r.y1 * (cfg.focus - e.a.z) == cfg.focus * e.a.y
      && r.x2 * (cfg.focus - e.b.z) == cfg.focus * e.b.x && r.y2 * (cfg.focus - e.b.z) == cfg.focus * e.b.y
  {
    if !cfg.perspective then LineRecord(e.a.x, e.a.y, e.b.x, e.b.y)
    else
      var p, q := Project(e.a, cfg.focus), Project(e.b, cfg.focus);
      LineRecord(p.x, p.y, q.x, q.y)
  }

  /** Two line records that draw the same segment, in either direction. */
  predicate SameSegment(r: Record, s: Record)
    requires r.LineRecord? && s.LineRecord?
  {
    || (r.x1 == s.x1 && r.y1 == s.y1 && r.x2 == s.x2 && r.y2 == s.y2)
    || (r.x1 == s.x2 && r.y1 == s.y2 && r.x2 == s.x1 && r.y2 == s.y1)
  }

  /** Equal edges draw the same segment. */
  lemma SameEdgeSameSegment(e: Edge, f: Edge, cfg: DrawConfig)
    requires EdgeProjectable(e, cfg) && SameEdge(e, f)
    ensures EdgeProjectable(f, cfg)
    ensures SameSegment(EdgeRecord(e, cfg), EdgeRecord(f, cfg))
  {
  }

  /** The records of a sequence of edges, drawn one after another. */
  function EdgesRecords(es: seq<Edge>, cfg: DrawConfig): (rs: seq<Record>)
    requires forall i | 0 <= i < |es| :: EdgeProjectable(es[i], cfg)
    ensures |rs| == |es|
    ensures forall i | 0 <= i < |es| :: rs[i] == EdgeRecord(es[i], cfg)
  {
    if es == [] then [] else [EdgeRecord(es[0], cfg)] + EdgesRecords(es[1..], cfg)
  }

  // ---------------------------------------------------------------------
  // Polygons

  datatype Polygon = Polygon(vertices: seq<Point>)

  /** The index after i, cyclically: `(i + 1) % n`. */
  function Next(i: nat, n: nat): (j: nat)
    requires i < n
    ensures j < n && j == (i + 1) % n
  {
    if i + 1 == n then
      ModSelf(n);
      0
    else
      ModBelow(i + 1, n);
      i + 1
  }

  lemma ModBelow(k: int, n: int)
    requires 0 <= k < n
    ensures k % n == k
  {
  }

  lemma ModSelf(n: int)
    requires n > 0
    ensures n % n == 0
  {
  }

  /** `get_edges`: the closed chain of edges around the polygon, edge i
      starting at vertex i and each one ending where the next begins. */
  function PolygonEdges(poly: Polygon): (es: seq<Edge>)
    ensures |es| == |poly.vertices|
    ensures forall i | 0 <= i < |es| :: es[i].a == poly.vertices[i]
    ensures forall i | 0 <= i < |es| :: es[i].b == es[(i + 1) % |es|].a
  {
    var v := poly.vertices;
    seq(|v|, i requires 0 <= i < |v| => Edge(v[i], v[Next(i, |v|)]))
  }

  /** The last edge closes the chain at the first vertex, and each vertex
      ends exactly the edge before the one it starts. */
  lemma PolygonEdgesClose(poly: Polygon)
    requires |poly.vertices| > 0
    ensures PolygonEdges(poly)[|poly.vertices| - 1].b == poly.vertices[0]
    ensures forall i | 0 < i < |poly.vertices| :: PolygonEdges(poly)[i - 1].b == poly.vertices[i]
  {
  }

  predicate PolygonDrawable(poly: Polygon, cfg: DrawConfig) {
    forall i | 0 <= i < |poly.vertices| :: Projectable(poly.vertices[i], cfg)
  }

  /** `Polygon.draw`: one `line` record per edge, in order. */
  function PolygonRecords(poly: Polygon, cfg: DrawConfig): (rs: seq<Record>)
    requires PolygonDrawable(poly, cfg)
    ensures |rs| == |poly.vertices|
    ensures forall i | 0 <= i < |rs| :: rs[i] == EdgeRecord(PolygonEdges(poly)[i], cfg)
  {
    var es := PolygonEdges(poly);
    assert forall i | 0 <= i < |es| :: EdgeProjectable(es[i], cfg) by {
      forall i | 0 <= i < |es|
        ensures EdgeProjectable(es[i], cfg)
      {
        assert Projectable(poly.vertices[Next(i, |es|)], cfg);
      }
    }
    EdgesRecords(es, cfg)
  }

  /** The running sum of the barycenter loop, left to right from the origin. */
  function Sum(vs: seq<Point>): Point {
    if vs == [] then Origin else Add(Sum(vs[..|vs| - 1]), vs[|vs| - 1])
  }

  /** `get_barycenter`: the mean of the vertices. An empty polygon divides
      by zero, so it cannot be passed. */
  function Barycenter(poly: Polygon): (g: Point)
    requires |poly.vertices| > 0
    ensures Scale(g, |poly.vertices| as real) == Sum(poly.vertices)
  {
    var n := |poly.vertices| as real;
    var s := Sum(poly.vertices);
    QuotientTimesDivisor(s.x, n);
    QuotientTimesDivisor(s.y, n);
    QuotientTimesDivisor(s.z, n);
    Div(s, n)
  }

  /** Every vertex moved by d. */
  function Translated(vs: seq<Point>, d: Point): (ws: seq<Point>)
    ensures |ws| == |vs|
    ensures forall i | 0 <= i < |vs| :: ws[i] == Add(vs[i], d)
  {
    seq(|vs|, i requires 0 <= i < |vs| => Add(vs[i], d))
  }

  lemma {:induction false} SumTranslated(vs: seq<Point>, d: Point)
    ensures Sum(Translated(vs, d)) == Add(Sum(vs), Scale(d, |vs| as real))
    decreases |vs|
  {
    if vs != [] {
      var n := |vs|;
      var ws := Translated(vs, d);
      assert ws[..n - 1] == Translated(vs[..n - 1], d);
      SumTranslated(vs[..n - 1], d);
      var s, t, k := Sum(vs[..n - 1]), Sum(ws), (n - 1) as real;
      assert t == Add(Add(s, Scale(d, k)), Add(vs[n - 1], d));
      var v := vs[n - 1];
      assert Sum(vs) == Add(s, v);
      assert |vs| as real == k + 1.0;
      AppendStep(s, v, d, k);
    }
  }

  lemma AppendStep(s: Point, v: Point, d: Point, k: real)
    ensures Add(Add(s, Scale(d, k)), Add(v, d)) == Add(Add(s, v), Scale(d, k + 1.0))
  {
    AppendMultiple(s.x, v.x, d.x, k, s.x + d.x * k + (v.x + d.x));
    AppendMultiple(s.y, v.y, d.y, k, s.y + d.y * k + (v.y + d.y));
    AppendMultiple(s.z, v.z, d.z, k, s.z + d.z * k + (v.z + d.z));
  }

  lemma DivOfShiftedSum(s: Point, d: Point, n: real)
    requires n != 0.0
    ensures Div(Add(s, Scale(d, n)), n) == Add(Div(s, n), d)
  {
    QuotientOfShiftedSum(s.x, d.x, n);
    QuotientOfShiftedSum(s.y, d.y, n);
    QuotientOfShiftedSum(s.z, d.z, n);
  }

  /** Moving every vertex by d moves the barycenter by d. */
  lemma BarycenterTranslated(poly: Polygon, d: Point)
    requires |poly.vertices| > 0
    ensures Barycenter(Polygon(Translated(poly.vertices, d))) == Add(Barycenter(poly), d)
  {
    SumTranslated(poly.vertices, d);
    DivOfShiftedSum(Sum(poly.vertices), d, |poly.vertices| as real);
  }

  /** The cross product of the two sides meeting at the second vertex. */
  function RawNormal(poly: Polygon): Point
    requires |poly.vertices| >= 3
  {
    var v := poly.vertices;
    Cross(Sub(v[0], v[1]), Sub(v[2], v[1]))
  }

  /** `get_normal_vector` without the division by its length: the raw
      normal, negated when a reference point is given and the normal
      points back towards it from the second vertex. */
  function NormalVector(poly: Polygon, ref: Option<Point>): (n: Point)
    requires |poly.vertices| >= 3
    ensures n == RawNormal(poly) || n == Neg(RawNormal(poly))
    ensures ref.Some? ==> Dot(n, Sub(poly.vertices[1], ref.value)) >= 0.0
    ensures ref.None? || Dot(RawNormal(poly), Sub(poly.vertices[1], ref.value)) >= 0.0 ==>
      n == RawNormal(poly)
  {
    var n := RawNormal(poly);
    if ref.Some? && Dot(n, Sub(poly.vertices[1], ref.value)) < 0.0 then Neg(n) else n
  }

  /** The normal is perpendicular to both sides it is built from. */
  lemma NormalPerpendicular(poly: Polygon, ref: Option<Point>)
    requires |poly.vertices| >= 3
    ensures Dot(NormalVector(poly, ref), Sub(poly.vertices[0], poly.vertices[1])) == 0.0
    ensures Dot(NormalVector(poly, ref), Sub(poly.vertices[2], poly.vertices[1])) == 0.0
  {
    var v := poly.vertices;
    CrossPerpendicular(Sub(v[0], v[1]), Sub(v[2], v[1]));
  }

  /** The normal exactly as `Polygon.get_normal_vector` computes it, divided by a positive
      `len`, the square root of its squared length, before orienting. */
  function SourceNormal(poly: Polygon, ref: Option<Point>, len: real): Point
    requires |poly.vertices| >= 3 && len > 0.0
  {
    var n := Div(RawNormal(poly), len);
    if ref.Some? && Dot(n, Sub(poly.vertices[1], ref.value)) < 0.0 then Neg(n) else n
  }

  /** Dividing by the length changes neither the orientation chosen nor
      the sign of any dot product with the normal, so every visibility
      decision made with the divided normal is the same without it. */
  lemma NormalisationKeepsDirection(poly: Polygon, ref: Option<Point>, len: real, w: Point)
    requires |poly.vertices| >= 3 && len > 0.0
    ensures SourceNormal(poly, ref, len) == Div(NormalVector(poly, ref), len)
    ensures Dot(w, SourceNormal(poly, ref, len)) > 0.0 <==> Dot(w, NormalVector(poly, ref)) > 0.0
  {
    var raw := RawNormal(poly);
    DivNeg(raw, len);
    if ref.Some? {
      DotSignUnderPositiveDiv(Sub(poly.vertices[1], ref.value), raw, len);
    }
    DotSignUnderPositiveDiv(w, NormalVector(poly, ref), len);
  }

  /** Two faces whose raw normals are opposite, and whose second vertices
      lie symmetrically about the reference point in the direction of
      that normal, get opposite oriented normals. */
  lemma OppositeOrientedNormals(p: Polygon, q: Polygon, ref: Point)
    requires |p.vertices| >= 3 && |q.vertices| >= 3
    requires RawNormal(p) == Neg(RawNormal(q))
    requires Dot(RawNormal(p), Add(Sub(p.vertices[1], ref), Sub(q.vertices[1], ref))) == 0.0
    ensures NormalVector(p, Some(ref)) == Neg(NormalVector(q, Some(ref)))
  {
    var n := RawNormal(p);
    var x, y := Sub(p.vertices[1], ref), Sub(q.vertices[1], ref);
    DotSymmetric(n, Add(x, y));
    DotAddLeft(x, y, n);
    DotSymmetric(n, x);
    DotSymmetric(n, y);
    DotSymmetric(Neg(n), y);
    DotNegRight(y, n);
    assert Dot(RawNormal(q), y) == Dot(n, x);
  }
}
