/** The cube: eight labelled vertices in a fixed octant layout, twelve
    edges and six faces given as fixed label patterns, rotation of every
    vertex and the centre by one matrix, and drawing with or without
    backface culling. */
module CubeModel {
  import opened Results
  import opened Vectors
  import opened Matrices
  import opened Rotation
  import opened Protocol
  import opened Shapes

  // ---------------------------------------------------------------------
  // Labels, tables and construction

  const Labels: set<int> := {1, 2, 3, 4, 5, 6, 7, 8}

  /** The offset of vertex k from the centre for side length l. */
  function Offset(k: int, l: real): Point
    requires k in Labels
  {
    match k
    case 1 => Point(l / 2.0, l / 2.0, l / 2.0)
    case 2 => Point(l / 2.0, l / 2.0, -l / 2.0)
    case 3 => Point(l / 2.0, -l / 2.0, -l / 2.0)
    case 4 => Point(l / 2.0, -l / 2.0, l / 2.0)
    case 5 => Point(-l / 2.0, l / 2.0, l / 2.0)
    case 6 => Point(-l / 2.0, l / 2.0, -l / 2.0)
    case 7 => Point(-l / 2.0, -l / 2.0, -l / 2.0)
    case 8 => Point(-l / 2.0, -l / 2.0, l / 2.0)
  }

  /** The twelve edges as label pairs, in drawing order. */
  const EdgeTable: seq<(int, int)> :=
    [(1, 2), (2, 3), (3, 4), (4, 1), (5, 6), (6, 7), (7, 8), (8, 5), (1, 5), (2, 6), (3, 7), (4, 8)]

  /** The six faces as label quadruples, in drawing order. */
  const FaceTable: seq<seq<int>> :=
    [[1, 2, 3, 4], [8, 7, 6, 5], [5, 6, 2, 1], [2, 6, 7, 3], [3, 7, 8, 4], [4, 8, 5, 1]]

  /** Side length, centre, and the vertex of each label. */
  datatype Cube = Cube(l: real, c: Point, v: map<int, Point>)

  /** The vertex map is defined on exactly the eight labels. */
  predicate Valid(cube: Cube) {
    cube.v.Keys == Labels
  }

  lemma TablesUseLabels()
    ensures |EdgeTable| == 12 && |FaceTable| == 6
    ensures forall t | 0 <= t < 12 :: EdgeTable[t].0 in Labels && EdgeTable[t].1 in Labels
    ensures forall f | 0 <= f < 6 :: |FaceTable[f]| == 4
    ensures forall f, j | 0 <= f < 6 && 0 <= j < 4 :: FaceTable[f][j] in Labels
  {
  }

  /** `Cube(length, center)`: vertex k is the centre moved by the offset
      of its octant. */
  function NewCube(l: real, c: Point): (cube: Cube)
    ensures Valid(cube) && cube.l == l && cube.c == c
    ensures forall k | k in Labels :: Sub(cube.v[k], c) == Offset(k, l)
  {
    Cube(l, c, map k | k in Labels :: Add(c, Offset(k, l)))
  }

  /** `get_edges`: the twelve table edges between the current vertices. */
  function Edges(cube: Cube): (es: seq<Edge>)
    requires Valid(cube)
    ensures |es| == 12
    ensures forall t | 0 <= t < 12 :: es[t] == Edge(cube.v[EdgeTable[t].0], cube.v[EdgeTable[t].1])
  {
    TablesUseLabels();
    seq(12, t requires 0 <= t < 12 => Edge(cube.v[EdgeTable[t].0], cube.v[EdgeTable[t].1]))
  }

  /** `get_faces`: the six table quadrilaterals over the current vertices. */
  function Faces(cube: Cube): (fs: seq<Polygon>)
    requires Valid(cube)
    ensures |fs| == 6
    ensures forall f | 0 <= f < 6 :: |fs[f].vertices| == 4
    ensures forall f, j | 0 <= f < 6 && 0 <= j < 4 :: fs[f].vertices[j] == cube.v[FaceTable[f][j]]
  {
    TablesUseLabels();
    seq(6, f requires 0 <= f < 6 => Polygon(seq(4, j requires 0 <= j < 4 => cube.v[FaceTable[f][j]])))
  }

  // ---------------------------------------------------------------------
  // Topology of the tables

  /** The label pair of side j of face f, as the face's cyclic edges give it. */
  function FaceSide(f: nat, j: nat): (int, int)
    requires f < 6 && j < 4
  {
    TablesUseLabels();
    (FaceTable[f][j], FaceTable[f][Next(j, 4)])
  }

  /** Equal as undirected label pairs. */
  predicate SamePair(p: (int, int), q: (int, int)) {
    p == q || p == (q.1, q.0)
  }

  /** Whether face f has the label pair p among its sides. */
  predicate HasSide(f: nat, p: (int, int))
    requires f < 6
  {
    SamePair(FaceSide(f, 0), p) || SamePair(FaceSide(f, 1), p) || SamePair(FaceSide(f, 2), p)
      || SamePair(FaceSide(f, 3), p)
  }

  /** The table edge that is side j of face f. */
  function SideEdge(f: nat, j: nat): (t: nat)
    requires f < 6 && j < 4
    ensures t < 12 && SamePair(FaceSide(f, j), EdgeTable[t])
  {
    SideEdgeFrom(FaceSide(f, j), 0)
  }

  function SideEdgeFrom(p: (int, int), t: nat): (r: nat)
    requires t <= 12
    ensures t <= r <= 12
    ensures r < 12 ==> SamePair(p, EdgeTable[r])
    decreases 12 - t
  {
    if t == 12 then 12 else if SamePair(p, EdgeTable[t]) then t else SideEdgeFrom(p, t + 1)
  }

  /** The faces that have table edge t among their sides. */
  function FacesWithEdge(t: nat): set<nat>
    requires t < 12
  {
    set f: nat | f < 6 && HasSide(f, EdgeTable[t])
  }

  /** The two faces each table edge separates, in table order. */
  const EdgeFaceTable: seq<(nat, nat)> :=
    [(0, 2), (0, 3), (0, 4), (0, 5), (1, 2), (1, 3), (1, 4), (1, 5), (2, 5), (2, 3), (3, 4), (4, 5)]

  /** Every table edge is a side of exactly two faces. */
  lemma EachEdgeInTwoFaces(t: nat)
    requires t < 12
    ensures FacesWithEdge(t) == {EdgeFaceTable[t].0, EdgeFaceTable[t].1}
    ensures |FacesWithEdge(t)| == 2
  {
    var p, a, b := EdgeTable[t], EdgeFaceTable[t].0, EdgeFaceTable[t].1;
    assert HasSide(a, p) && HasSide(b, p);
    forall f: nat | f < 6 && f != a && f != b
      ensures !HasSide(f, p)
    {
      OnlyTwoFaces(t, f);
    }
  }

  lemma OnlyTwoFaces(t: nat, f: nat)
    requires t < 12 && f < 6 && f != EdgeFaceTable[t].0 && f != EdgeFaceTable[t].1
    ensures !HasSide(f, EdgeTable[t])
  {
    if t < 4 {
      assert t in {0, 1, 2, 3};
    } else if t < 8 {
      assert t in {4, 5, 6, 7};
    } else {
      assert t in {8, 9, 10, 11};
    }
  }

  /** Each side of each face is, as an undirected edge, one of the
      twelve cube edges. */
  lemma FaceSidesAreCubeEdges(cube: Cube, f: nat, j: nat)
    requires Valid(cube) && f < 6 && j < 4
    ensures SameEdge(PolygonEdges(Faces(cube)[f])[j], Edges(cube)[SideEdge(f, j)])
  {
    TablesUseLabels();
  }

  /** In a new cube each table edge has length l, and distinct labels
      sit at distinct points unless l is zero. */
  lemma NewCubeGeometry(l: real, c: Point)
    ensures forall t | 0 <= t < 12 ::
      Norm2(Sub(Edges(NewCube(l, c))[t].a, Edges(NewCube(l, c))[t].b)) == l * l
    ensures l != 0.0 ==> forall j, k | j in Labels && k in Labels && j != k ::
      NewCube(l, c).v[j] != NewCube(l, c).v[k]
  {
    var cube := NewCube(l, c);
    forall t | 0 <= t < 12
      ensures Norm2(Sub(Edges(cube)[t].a, Edges(cube)[t].b)) == l * l
    {
      TablesUseLabels();
      var i, k := EdgeTable[t].0, EdgeTable[t].1;
      AddSubCancel(c, Offset(i, l), Offset(k, l));
      OffsetEdgeLength(t, l);
    }
    if l != 0.0 {
      forall j, k | j in Labels && k in Labels && j != k
        ensures cube.v[j] != cube.v[k]
      {
        AddSubCancel(c, Offset(j, l), Offset(k, l));
        OffsetsDiffer(j, k, l);
      }
    }
  }

  lemma AddSubCancel(c: Point, p: Point, q: Point)
    ensures Sub(Add(c, p), Add(c, q)) == Sub(p, q)
  {
  }

  lemma OffsetEdgeLength(t: nat, l: real)
    requires t < 12
    ensures Norm2(Sub(Offset(EdgeTable[t].0, l), Offset(EdgeTable[t].1, l))) == l * l
  {
    assert l / 2.0 - -l / 2.0 == l && -l / 2.0 - l / 2.0 == -l;
  }

  lemma OffsetsDiffer(j: int, k: int, l: real)
    requires j in Labels && k in Labels && j != k && l != 0.0
    ensures Offset(j, l) != Offset(k, l)
  {
    assert l / 2.0 != -l / 2.0;
  }

  // ---------------------------------------------------------------------
  // Rotation

  /** Every vertex and the centre multiplied by m, under the same labels. */
  function RotateBy(cube: Cube, m: Mat3): (r: Cube)
    requires Valid(cube)
    ensures Valid(r) && r.l == cube.l && r.c == Apply(m, cube.c)
    ensures forall k | k in Labels :: r.v[k] == Apply(m, cube.v[k])
  {
    Cube(cube.l, Apply(m, cube.c), map k | k in cube.v.Keys :: Apply(m, cube.v[k]))
  }

  /** `rotate(theta, axis)` with `c = cos theta`, `s = sin theta` and the
      length `len` of the axis. */
  function Rotate(cube: Cube, c: real, s: real, axis: Point, len: real): (r: Cube)
    requires Valid(cube) && IsAxisLength(axis, len)
    ensures Valid(r) && r.l == cube.l
    ensures r.c == Apply(RotationMatrix(c, s, axis, len), cube.c)
    ensures forall k | k in Labels :: r.v[k] == Apply(RotationMatrix(c, s, axis, len), cube.v[k])
  {
    RotateBy(cube, RotationMatrix(c, s, axis, len))
  }

  /** A cube whose centre lies on the rotation axis keeps its centre. */
  lemma RotateKeepsCentreOnAxis(cube: Cube, c: real, s: real, axis: Point, len: real, t: real)
    requires Valid(cube) && IsAxisLength(axis, len) && cube.c == Scale(axis, t)
    ensures Rotate(cube, c, s, axis, len).c == cube.c
  {
    AxisIsFixed(c, s, axis, len);
    ApplyLinear(RotationMatrix(c, s, axis, len), axis, axis, t);
  }

  /** Two valid cubes with the same side, centre and vertices are equal. */
  lemma SameVerticesSameCube(a: Cube, b: Cube)
    requires Valid(a) && Valid(b) && a.l == b.l && a.c == b.c
    requires forall k | k in Labels :: a.v[k] == b.v[k]
    ensures a == b
  {
    assert a.v == b.v;
  }

  /** Rotating by a then by b is rotating once by the product `b @ a`. */
  lemma RotateByComposes(cube: Cube, a: Mat3, b: Mat3)
    requires Valid(cube)
    ensures RotateBy(RotateBy(cube, a), b) == RotateBy(cube, Mul(b, a))
  {
    var r1, r2 := RotateBy(RotateBy(cube, a), b), RotateBy(cube, Mul(b, a));
    ApplyMul(b, a, cube.c);
    forall k | k in Labels
      ensures r1.v[k] == r2.v[k]
    {
      ApplyMul(b, a, cube.v[k]);
    }
    assert r1.v == r2.v;
  }

  /** Rotating by angle zero (a full turn) leaves the cube as it was. */
  lemma ZeroAngleKeepsCube(cube: Cube, axis: Point, len: real)
    requires Valid(cube) && IsAxisLength(axis, len)
    ensures Rotate(cube, 1.0, 0.0, axis, len) == cube
  {
    var r := Rotate(cube, 1.0, 0.0, axis, len);
    ZeroAngleIsIdentity(axis, len);
    ApplyIdentity(cube.c);
    forall k | k in Labels
      ensures r.v[k] == cube.v[k]
    {
      ApplyIdentity(cube.v[k]);
    }
    assert r.v == cube.v;
  }

  const ZAxis := Point(0.0, 0.0, 1.0)

  /** The quarter turn about the z axis, `(x, y, z) ↦ (−y, x, z)`. */
  const QuarterTurn := Mat3(Point(0.0, -1.0, 0.0), Point(1.0, 0.0, 0.0), Point(0.0, 0.0, 1.0))

  /** The rotation builder at c = 0, s = 1 about the z axis is the
      quarter turn. */
  lemma QuarterTurnMatrix()
    ensures IsAxisLength(ZAxis, 1.0)
    ensures RotationMatrix(0.0, 1.0, ZAxis, 1.0) == QuarterTurn
  {
    assert Div(ZAxis, 1.0) == ZAxis;
  }

  lemma FourQuarterTurnsOfPoint(p: Point)
    ensures Apply(QuarterTurn, Apply(QuarterTurn, Apply(QuarterTurn, Apply(QuarterTurn, p)))) == p
  {
  }

  /** Four quarter turns bring the cube back. */
  lemma FourQuarterTurns(cube: Cube)
    requires Valid(cube)
    ensures RotateBy(RotateBy(RotateBy(RotateBy(cube, QuarterTurn), QuarterTurn), QuarterTurn), QuarterTurn)
         == cube
  {
    var q := QuarterTurn;
    var r := RotateBy(RotateBy(RotateBy(RotateBy(cube, q), q), q), q);
    FourQuarterTurnsOfPoint(cube.c);
    forall k | k in Labels
      ensures r.v[k] == cube.v[k]
    {
      FourQuarterTurnsOfPoint(cube.v[k]);
    }
    SameVerticesSameCube(r, cube);
  }

  /** A proper rotation keeps the distance between any two vertices and
      from every vertex to the centre. */
  lemma RotationKeepsDistances(cube: Cube, c: real, s: real, axis: Point, len: real, j: int, k: int)
    requires Valid(cube) && IsAxisLength(axis, len) && c * c + s * s == 1.0
    requires j in Labels && k in Labels
    ensures var r := Rotate(cube, c, s, axis, len);
      && Norm2(Sub(r.v[j], r.v[k])) == Norm2(Sub(cube.v[j], cube.v[k]))
      && Norm2(Sub(r.v[j], r.c)) == Norm2(Sub(cube.v[j], cube.c))
  {
    var m := RotationMatrix(c, s, axis, len);
    ApplyLinear(m, cube.v[j], cube.v[k], 1.0);
    ApplyLinear(m, cube.v[j], cube.c, 1.0);
    RotationPreservesLength(c, s, axis, len, Sub(cube.v[j], cube.v[k]));
    RotationPreservesLength(c, s, axis, len, Sub(cube.v[j], cube.c));
  }

  /** The cube's vertices are its centre plus m times the octant offsets:
      the shape every cube has that was built and then rotated. */
  ghost predicate ShapedBy(cube: Cube, m: Mat3) {
    Valid(cube) && forall k | k in Labels :: cube.v[k] == Add(cube.c, Apply(m, Offset(k, cube.l)))
  }

  lemma NewCubeIsShaped(l: real, c: Point)
    ensures ShapedBy(NewCube(l, c), Identity)
  {
    forall k | k in Labels
      ensures NewCube(l, c).v[k] == Add(c, Apply(Identity, Offset(k, l)))
    {
      ApplyIdentity(Offset(k, l));
    }
  }

  /** Rotating a cube shaped by M leaves it shaped by `m @ M`: rotation
      moves the centre and the offsets together. */
  lemma RotateKeepsShape(cube: Cube, m: Mat3, shape: Mat3)
    requires ShapedBy(cube, shape)
    ensures ShapedBy(RotateBy(cube, m), Mul(m, shape))
  {
    var r := RotateBy(cube, m);
    forall k | k in Labels
      ensures r.v[k] == Add(r.c, Apply(Mul(m, shape), Offset(k, cube.l)))
    {
      var o := Offset(k, cube.l);
      ApplyLinear(m, cube.c, Apply(shape, o), 1.0);
      ApplyMul(m, shape, o);
    }
  }

  // ---------------------------------------------------------------------
  // Visibility

  /** The line of sight from a face with barycenter g: towards the eye in
      perspective mode, along the z axis otherwise. */
  function LineOfSight(g: Point, cfg: DrawConfig): (los: Point)
    ensures cfg.perspective ==> Add(g, los) == Eye(cfg.focus)
    ensures !cfg.perspective ==> los == ZAxis
  {
    if cfg.perspective then Sub(Eye(cfg.focus), g) else ZAxis
  }

  /** A face is drawn when its normal, oriented away from the centre,
      makes a positive dot product with the line of sight. */
  predicate FaceVisible(face: Polygon, center: Point, cfg: DrawConfig): (shown: bool)
    requires |face.vertices| >= 3
    ensures var n, los := RawNormal(face), LineOfSight(Barycenter(face), cfg);
      shown <==> if Dot(n, Sub(face.vertices[1], center)) >= 0.0 then Dot(los, n) > 0.0 else Dot(los, n) < 0.0
  {
    DotNegRight(LineOfSight(Barycenter(face), cfg), RawNormal(face));
    Dot(LineOfSight(Barycenter(face), cfg), NormalVector(face, Some(center))) > 0.0
  }

  /** The test with the normal divided by its length, as `Polygon.get_normal_vector`
      computes it, decides the same way. */
  lemma VisibilityIgnoresNormalisation(face: Polygon, center: Point, cfg: DrawConfig, len: real)
    requires |face.vertices| >= 3 && len > 0.0
    ensures Dot(LineOfSight(Barycenter(face), cfg), SourceNormal(face, Some(center), len)) > 0.0
        <==> FaceVisible(face, center, cfg)
  {
    NormalisationKeepsDirection(face, Some(center), len, LineOfSight(Barycenter(face), cfg));
  }

  /** The outcome of the visibility test for each face, in order. */
  function Visibility(faces: seq<Polygon>, center: Point, cfg: DrawConfig): (shown: seq<bool>)
    requires forall i | 0 <= i < |faces| :: |faces[i].vertices| >= 3
    ensures |shown| == |faces|
    ensures forall i | 0 <= i < |faces| :: shown[i] == FaceVisible(faces[i], center, cfg)
  {
    seq(|faces|, i requires 0 <= i < |faces| => FaceVisible(faces[i], center, cfg))
  }

  /** The sides of each face, face by face. */
  function SidesOfFaces(faces: seq<Polygon>): (sides: seq<seq<Edge>>)
    ensures |sides| == |faces|
    ensures forall i | 0 <= i < |faces| :: sides[i] == PolygonEdges(faces[i])
  {
    seq(|faces|, i requires 0 <= i < |faces| => PolygonEdges(faces[i]))
  }

  /** The groups of sides marked shown, concatenated in order. */
  function ShownSides(sides: seq<seq<Edge>>, shown: seq<bool>): seq<Edge>
    requires |shown| == |sides|
    decreases |sides|
  {
    if sides == [] then []
    else
      var n := |sides| - 1;
      ShownSides(sides[..n], shown[..n]) + (if shown[n] then sides[n] else [])
  }

  /** An edge is among the shown sides exactly when it is a side of a
      shown face. */
  lemma {:induction false} ShownSidesMembership(sides: seq<seq<Edge>>, shown: seq<bool>, e: Edge)
    requires |shown| == |sides|
    ensures e in ShownSides(sides, shown) <==> exists i | 0 <= i < |sides| :: shown[i] && e in sides[i]
    decreases |sides|
  {
    if sides != [] {
      var n := |sides| - 1;
      var earlier, shownEarlier := sides[..n], shown[..n];
      ShownSidesMembership(earlier, shownEarlier, e);
      if exists i | 0 <= i < |sides| :: shown[i] && e in sides[i] {
        var i :| 0 <= i < |sides| && shown[i] && e in sides[i];
        if i < n {
          assert earlier[i] == sides[i] && shownEarlier[i] == shown[i];
        }
      }
      if e in ShownSides(earlier, shownEarlier) {
        var i :| 0 <= i < n && shownEarlier[i] && e in earlier[i];
        assert sides[i] == earlier[i] && shown[i] == shownEarlier[i];
      }
    }
  }

  /** Taking one more face appends its sides when it is shown. */
  lemma ShownSidesStep(sides: seq<seq<Edge>>, shown: seq<bool>, i: nat)
    requires |shown| == |sides| && i < |sides|
    ensures ShownSides(sides[..i + 1], shown[..i + 1])
         == ShownSides(sides[..i], shown[..i]) + (if shown[i] then sides[i] else [])
  {
    assert sides[..i + 1][..i] == sides[..i];
    assert shown[..i + 1][..i] == shown[..i];
  }

  // ---------------------------------------------------------------------
  // Drawing each shared edge once

  /** Whether an edge equal to e, in either direction, is among d. */
  predicate Contains(d: seq<Edge>, e: Edge) {
    exists f | f in d :: SameEdge(f, e)
  }

  /** Membership in a hash set of edges: an element with the same hash
      that compares equal. */
  predicate InHashSet(h: real -> bv64, d: seq<Edge>, e: Edge) {
    exists f | f in d :: EdgeHash(h, f) == EdgeHash(h, e) && SameEdge(f, e)
  }

  /** The hash lookup finds exactly the edges equal in either direction,
      whatever the float hash is. */
  lemma HashLookupIsEdgeEquality(h: real -> bv64, d: seq<Edge>, e: Edge)
    ensures InHashSet(h, d, e) <==> Contains(d, e)
  {
    if Contains(d, e) {
      var f :| f in d && SameEdge(f, e);
      SameEdgeSameHash(h, f, e);
    }
  }

  lemma ContainsExtends(d: seq<Edge>, x: Edge)
    ensures Contains(d + [x], x)
    ensures forall e | Contains(d, e) :: Contains(d + [x], e)
  {
    assert x in d + [x];
    forall e | Contains(d, e)
      ensures Contains(d + [x], e)
    {
      var f :| f in d && SameEdge(f, e);
      assert f in d + [x];
    }
  }

  /** es[i] is the first edge of `es` in its equality class: no earlier
      edge equals it in either direction. */
  predicate FirstOfClass(es: seq<Edge>, i: int)
    requires 0 <= i < |es|
  {
    forall j | 0 <= j < i :: !SameEdge(es[j], es[i])
  }

  /** The first edge of each equality class among es[..n], in the order
      and the direction in which it occurs. */
  function FirstOccurrences(es: seq<Edge>, n: nat): seq<Edge>
    requires n <= |es|
  {
    if n == 0 then []
    else FirstOccurrences(es, n - 1) + if FirstOfClass(es, n - 1) then [es[n - 1]] else []
  }

  /** The drawn edges after the loop has looked at `es` in order: each
      edge is drawn unless an equal one has been drawn already. */
  function DrawnAfter(es: seq<Edge>): (d: seq<Edge>)
    ensures forall i, j | 0 <= i < j < |d| :: !SameEdge(d[i], d[j])
    ensures forall e | e in es :: Contains(d, e)
    ensures forall e | e in d :: e in es
    ensures |d| <= |es|
    decreases |es|
  {
    if es == [] then []
    else
      var n := |es| - 1;
      var prev, e := DrawnAfter(es[..n]), es[n];
      assert es == es[..n] + [e];
      if Contains(prev, e) then prev
      else
        ContainsExtends(prev, e);
        prev + [e]
  }

  lemma DrawnAfterStep(es: seq<Edge>, e: Edge)
    ensures DrawnAfter(es + [e]) == if Contains(DrawnAfter(es), e) then DrawnAfter(es) else DrawnAfter(es) + [e]
  {
    assert (es + [e])[..|es|] == es;
  }

  /** Drawing one more edge extends the drawn sequence: what was drawn
      stays, in the same order. */
  lemma {:induction false} DrawnAfterGrows(es: seq<Edge>, more: seq<Edge>)
    ensures DrawnAfter(es) <= DrawnAfter(es + more)
    decreases |more|
  {
    if more == [] {
      assert es + more == es;
    } else {
      var n := |more| - 1;
      assert es + more == (es + more[..n]) + [more[n]];
      DrawnAfterGrows(es, more[..n]);
      DrawnAfterStep(es + more[..n], more[n]);
    }
  }

  /** The hash-set loop draws exactly the first occurrence of each
      equality class, in the order and the direction the loop meets it. */
  lemma {:induction false} DrawnAfterIsFirstOccurrences(es: seq<Edge>)
    ensures DrawnAfter(es) == FirstOccurrences(es, |es|)
    decreases |es|
  {
    if es != [] {
      var n := |es| - 1;
      var init, e := es[..n], es[n];
      var prev := DrawnAfter(init);
      DrawnAfterIsFirstOccurrences(init);
      FirstOccurrencesOfPrefix(es, n);
      assert init + [e] == es;
      DrawnAfterStep(init, e);
      if Contains(prev, e) {
        ContainedIsNotFirst(es, n, prev);
      } else {
        UncontainedIsFirst(es, n, prev);
      }
    }
  }

  /** An edge equal to one already drawn from the first n edges has an
      equal edge before it. */
  lemma ContainedIsNotFirst(es: seq<Edge>, n: nat, prev: seq<Edge>)
    requires n < |es| && Contains(prev, es[n])
    requires forall e | e in prev :: e in es[..n]
    ensures !FirstOfClass(es, n)
  {
    var f :| f in prev && SameEdge(f, es[n]);
    assert f in es[..n];
    var j :| 0 <= j < n && es[..n][j] == f;
    assert es[j] == f;
  }

  /** An edge equal to none drawn from the first n edges, when every one of
      those has an equal drawn edge, has no equal edge before it. */
  lemma UncontainedIsFirst(es: seq<Edge>, n: nat, prev: seq<Edge>)
    requires n < |es| && !Contains(prev, es[n])
    requires forall e | e in es[..n] :: Contains(prev, e)
    ensures FirstOfClass(es, n)
  {
    forall j | 0 <= j < n
      ensures !SameEdge(es[j], es[n])
    {
      assert es[j] == es[..n][j] && es[..n][j] in es[..n];
      assert Contains(prev, es[j]);
      var g :| g in prev && SameEdge(g, es[j]);
      SameEdgeEquivalence(g, es[j], es[n]);
    }
  }

  /** The first occurrences in a prefix depend only on the prefix. */
  lemma {:induction false} FirstOccurrencesOfPrefix(es: seq<Edge>, n: nat)
    requires n <= |es|
    ensures FirstOccurrences(es[..n], n) == FirstOccurrences(es, n)
    decreases n
  {
    if n > 0 {
      FirstOccurrencesOfPrefix(es, n - 1);
      FirstOccurrencesOfPrefix(es[..n], n - 1);
      assert es[..n][..n - 1] == es[..n - 1];
      assert forall j | 0 <= j < n :: es[..n][j] == es[j];
    }
  }

  /** `b` keeps the elements of `a` in order, possibly with others between. */
  predicate IsSubsequence(a: seq<Edge>, b: seq<Edge>)
    decreases |b|
  {
    if a == [] then true
    else if b == [] then false
    else
      var m, n := |a| - 1, |b| - 1;
      (a[m] == b[n] && IsSubsequence(a[..m], b[..n])) || IsSubsequence(a, b[..n])
  }

  /** The drawn edges appear in the order the loop meets them. */
  lemma {:induction false} DrawnAfterKeepsOrder(es: seq<Edge>)
    ensures IsSubsequence(DrawnAfter(es), es)
    decreases |es|
  {
    if es != [] {
      var n := |es| - 1;
      var prev := DrawnAfter(es[..n]);
      DrawnAfterKeepsOrder(es[..n]);
      if !Contains(prev, es[n]) {
        assert (prev + [es[n]])[..|prev|] == prev;
      }
    }
  }

  /** Whether e is equal, in either direction, to one of `es`. */
  predicate EqualToOneOf(e: Edge, es: seq<Edge>) {
    exists t | 0 <= t < |es| :: SameEdge(e, es[t])
  }

  /** Distinct edges each equal to one of `es` are no more than `es`. */
  lemma {:induction false} Pigeonhole(d: seq<Edge>, es: seq<Edge>)
    requires forall i, j | 0 <= i < j < |d| :: !SameEdge(d[i], d[j])
    requires forall i | 0 <= i < |d| :: EqualToOneOf(d[i], es)
    ensures |d| <= |es|
    decreases |d|
  {
    if d != [] {
      var m := |d| - 1;
      var t0 :| 0 <= t0 < |es| && SameEdge(d[m], es[t0]);
      var rest := es[..t0] + es[t0 + 1..];
      forall i | 0 <= i < m
        ensures EqualToOneOf(d[..m][i], rest)
      {
        var t :| 0 <= t < |es| && SameEdge(d[i], es[t]);
        assert d[..m][i] == d[i];
        if t == t0 {
          SameEdgeEquivalence(d[m], es[t0], d[i]);
          SameEdgeEquivalence(d[i], es[t0], d[m]);
          assert false;
        } else if t < t0 {
          assert rest[t] == es[t];
        } else {
          assert rest[t - 1] == es[t];
        }
      }
      Pigeonhole(d[..m], rest);
    }
  }

  // ---------------------------------------------------------------------
  // Drawing the cube

  /** The edges an opaque cube draws, in drawing order: the sides of the
      visible faces, face by face, each drawn once. */
  function OpaqueEdges(cube: Cube, cfg: DrawConfig): (d: seq<Edge>)
    requires Valid(cube)
    ensures forall i, j | 0 <= i < j < |d| :: !SameEdge(d[i], d[j])
  {
    var faces := Faces(cube);
    DrawnAfter(ShownSides(SidesOfFaces(faces), Visibility(faces, cube.c, cfg)))
  }

  /** No edge is drawn twice, in either direction. */
  lemma OpaqueDrawsEachEdgeOnce(cube: Cube, cfg: DrawConfig)
    requires Valid(cube)
    ensures var d := OpaqueEdges(cube, cfg);
      forall i, j | 0 <= i < j < |d| :: !SameEdge(d[i], d[j])
  {
  }

  /** Every side of every visible face is drawn, in one direction or the
      other. */
  lemma OpaqueDrawsVisibleSides(cube: Cube, cfg: DrawConfig, f: nat, j: nat)
    requires Valid(cube) && f < 6 && j < 4
    requires FaceVisible(Faces(cube)[f], cube.c, cfg)
    ensures Contains(OpaqueEdges(cube, cfg), PolygonEdges(Faces(cube)[f])[j])
  {
    var faces := Faces(cube);
    var sides, shown := SidesOfFaces(faces), Visibility(faces, cube.c, cfg);
    ShownSidesMembership(sides, shown, PolygonEdges(faces[f])[j]);
  }

  /** Every drawn edge is a side of a visible face. */
  lemma OpaqueDrawsOnlyVisibleSides(cube: Cube, cfg: DrawConfig, e: Edge)
    requires Valid(cube) && e in OpaqueEdges(cube, cfg)
    ensures exists f | 0 <= f < 6 :: FaceVisible(Faces(cube)[f], cube.c, cfg) && e in PolygonEdges(Faces(cube)[f])
  {
    var faces := Faces(cube);
    var sides, shown := SidesOfFaces(faces), Visibility(faces, cube.c, cfg);
    ShownSidesMembership(sides, shown, e);
    var f :| 0 <= f < 6 && shown[f] && e in sides[f];
  }

  /** The drawn edges come in the order the face loop meets them: each is
      the first side, over the visible faces in order, of its equality
      class, drawn in the direction that side has in its face. */
  lemma OpaqueKeepsFaceOrder(cube: Cube, cfg: DrawConfig)
    requires Valid(cube)
    ensures var faces := Faces(cube);
      var visited := ShownSides(SidesOfFaces(faces), Visibility(faces, cube.c, cfg));
      && IsSubsequence(OpaqueEdges(cube, cfg), visited)
      && OpaqueEdges(cube, cfg) == FirstOccurrences(visited, |visited|)
  {
    var faces := Faces(cube);
    DrawnAfterKeepsOrder(ShownSides(SidesOfFaces(faces), Visibility(faces, cube.c, cfg)));
    DrawnAfterIsFirstOccurrences(ShownSides(SidesOfFaces(faces), Visibility(faces, cube.c, cfg)));
  }

  /** An opaque cube draws at most its twelve edges. */
  lemma OpaqueDrawsAtMostTwelve(cube: Cube, cfg: DrawConfig)
    requires Valid(cube)
    ensures |OpaqueEdges(cube, cfg)| <= 12
  {
    var d := OpaqueEdges(cube, cfg);
    forall i | 0 <= i < |d|
      ensures EqualToOneOf(d[i], Edges(cube))
    {
      OnASideOfAFace(cube, cfg, d[i]);
    }
    OpaqueDrawsEachEdgeOnce(cube, cfg);
    Pigeonhole(d, Edges(cube));
  }

  lemma OnASideOfAFace(cube: Cube, cfg: DrawConfig, e: Edge)
    requires Valid(cube) && e in OpaqueEdges(cube, cfg)
    ensures EqualToOneOf(e, Edges(cube))
  {
    OpaqueDrawsOnlyVisibleSides(cube, cfg, e);
    var faces := Faces(cube);
    var f :| 0 <= f < 6 && FaceVisible(faces[f], cube.c, cfg) && e in PolygonEdges(faces[f]);
    var j :| 0 <= j < 4 && PolygonEdges(faces[f])[j] == e;
    FaceSidesAreCubeEdges(cube, f, j);
  }

  /** Every edge the cube draws can be projected: in transparent mode
      every vertex must be, in opaque mode every vertex of a visible face.
      Otherwise the perspective projection divides by zero. */
  predicate CubeDrawable(cube: Cube, cfg: DrawConfig)
    requires Valid(cube)
  {
    if cfg.transparent then forall k | k in Labels :: Projectable(cube.v[k], cfg)
    else forall f | 0 <= f < 6 && FaceVisible(Faces(cube)[f], cube.c, cfg) :: PolygonDrawable(Faces(cube)[f], cfg)
  }

  /** The sides of a polygon whose vertices can all be projected can be drawn. */
  lemma AllSidesDrawable(poly: Polygon, cfg: DrawConfig)
    requires PolygonDrawable(poly, cfg)
    ensures forall j | 0 <= j < |PolygonEdges(poly)| :: EdgeProjectable(PolygonEdges(poly)[j], cfg)
  {
    var es := PolygonEdges(poly);
    forall j | 0 <= j < |es|
      ensures EdgeProjectable(es[j], cfg)
    {
      PolygonSidesDrawable(poly, cfg, es[j]);
    }
  }

  lemma PolygonSidesDrawable(poly: Polygon, cfg: DrawConfig, e: Edge)
    requires PolygonDrawable(poly, cfg) && e in PolygonEdges(poly)
    ensures EdgeProjectable(e, cfg)
  {
    var es := PolygonEdges(poly);
    var j :| 0 <= j < |es| && es[j] == e;
    assert Projectable(poly.vertices[Next(j, |es|)], cfg);
  }

  lemma OpaqueEdgesDrawable(cube: Cube, cfg: DrawConfig)
    requires Valid(cube) && CubeDrawable(cube, cfg) && !cfg.transparent
    ensures forall e | e in OpaqueEdges(cube, cfg) :: EdgeProjectable(e, cfg)
  {
    forall e | e in OpaqueEdges(cube, cfg)
      ensures EdgeProjectable(e, cfg)
    {
      OpaqueDrawsOnlyVisibleSides(cube, cfg, e);
      var f :| 0 <= f < 6 && FaceVisible(Faces(cube)[f], cube.c, cfg) && e in PolygonEdges(Faces(cube)[f]);
      PolygonSidesDrawable(Faces(cube)[f], cfg, e);
    }
  }

  /** The records rs draw the edges d, one each in order. */
  predicate RecordsOf(rs: seq<Record>, d: seq<Edge>, cfg: DrawConfig) {
    && |rs| == |d|
    && forall k | 0 <= k < |d| :: EdgeProjectable(d[k], cfg) && rs[k] == EdgeRecord(d[k], cfg)
  }

  /** `Cube.draw`: one `line` record per drawn edge. Transparent, that is
      the twelve table edges in table order; opaque, the edges of the
      visible faces, each once. */
  function CubeRecords(cube: Cube, cfg: DrawConfig): (rs: seq<Record>)
    requires Valid(cube) && CubeDrawable(cube, cfg)
    ensures cfg.transparent ==> |rs| == 12 && RecordsOf(rs, Edges(cube), cfg)
    ensures !cfg.transparent ==> RecordsOf(rs, OpaqueEdges(cube, cfg), cfg)
  {
    TablesUseLabels();
    if cfg.transparent then EdgesRecords(Edges(cube), cfg)
    else
      OpaqueEdgesDrawable(cube, cfg);
      EdgesRecords(OpaqueEdges(cube, cfg), cfg)
  }

  /** Two record sequences that draw the same edges are equal. */
  lemma RecordsOfUnique(rs: seq<Record>, qs: seq<Record>, d: seq<Edge>, cfg: DrawConfig)
    requires RecordsOf(rs, d, cfg) && RecordsOf(qs, d, cfg)
    ensures rs == qs
  {
  }

  /** The inner loop of the opaque drawing: the sides of one visible face,
      each drawn unless the hash set of drawn edges already holds it. */
  method DrawSides(h: real -> bv64, es: seq<Edge>, drawn: seq<Edge>, rs: seq<Record>, cfg: DrawConfig,
                   ghost before: seq<Edge>)
      returns (drawn': seq<Edge>, rs': seq<Record>)
    requires drawn == DrawnAfter(before) && RecordsOf(rs, drawn, cfg)
    requires forall j | 0 <= j < |es| :: EdgeProjectable(es[j], cfg)
    ensures drawn' == DrawnAfter(before + es) && RecordsOf(rs', drawn', cfg)
  {
    drawn', rs' := drawn, rs;
    assert before + es[..0] == before;
    for j := 0 to |es|
      invariant drawn' == DrawnAfter(before + es[..j])
      invariant RecordsOf(rs', drawn', cfg)
    {
      assert before + es[..j + 1] == (before + es[..j]) + [es[j]];
      drawn', rs' := DrawSide(h, es[j], drawn', rs', cfg, before + es[..j]);
    }
    assert es[..|es|] == es;
  }

  /** One step of the inner loop: draw e and add it to the hash set,
      unless an equal edge is already there. */
  method DrawSide(h: real -> bv64, e: Edge, drawn: seq<Edge>, rs: seq<Record>, cfg: DrawConfig,
                  ghost before: seq<Edge>)
      returns (drawn': seq<Edge>, rs': seq<Record>)
    requires drawn == DrawnAfter(before) && RecordsOf(rs, drawn, cfg) && EdgeProjectable(e, cfg)
    ensures drawn' == DrawnAfter(before + [e]) && RecordsOf(rs', drawn', cfg)
  {
    DrawnAfterStep(before, e);
    HashLookupIsEdgeEquality(h, drawn, e);
    if InHashSet(h, drawn, e) {
      drawn', rs' := drawn, rs;
    } else {
      RecordsOfExtend(rs, drawn, e, cfg);
      drawn', rs' := drawn + [e], rs + [EdgeRecord(e, cfg)];
    }
  }

  /** Drawing one more edge adds its record at the end. */
  lemma RecordsOfExtend(rs: seq<Record>, d: seq<Edge>, e: Edge, cfg: DrawConfig)
    requires RecordsOf(rs, d, cfg) && EdgeProjectable(e, cfg)
    ensures RecordsOf(rs + [EdgeRecord(e, cfg)], d + [e], cfg)
  {
    var rs', d' := rs + [EdgeRecord(e, cfg)], d + [e];
    forall k | 0 <= k < |d'|
      ensures EdgeProjectable(d'[k], cfg) && rs'[k] == EdgeRecord(d'[k], cfg)
    {
      if k < |d| {
        assert rs'[k] == rs[k] && d'[k] == d[k];
      }
    }
  }

  /** The outer loop of the opaque drawing, over the faces in table order. */
  method DrawOpaque(cube: Cube, cfg: DrawConfig, h: real -> bv64) returns (rs: seq<Record>)
    requires Valid(cube) && CubeDrawable(cube, cfg) && !cfg.transparent
    ensures RecordsOf(rs, OpaqueEdges(cube, cfg), cfg)
  {
    var faces := Faces(cube);
    ghost var sides, shown := SidesOfFaces(faces), Visibility(faces, cube.c, cfg);
    var drawn: seq<Edge> := [];
    rs := [];
    for i := 0 to 6
      invariant drawn == DrawnAfter(ShownSides(sides[..i], shown[..i]))
      invariant RecordsOf(rs, drawn, cfg)
    {
      ShownSidesStep(sides, shown, i);
      ghost var before := ShownSides(sides[..i], shown[..i]);
      var face := faces[i];
      if FaceVisible(face, cube.c, cfg) {
        var es := PolygonEdges(face);
        assert es == sides[i] && shown[i];
        AllSidesDrawable(face, cfg);
        drawn, rs := DrawSides(h, es, drawn, rs, cfg, before);
      } else {
        assert !shown[i];
        assert before + [] == before;
      }
    }
    assert sides[..6] == sides && shown[..6] == shown;
  }

  /** `Cube.draw` as written in Python: a loop over the twelve edges, or
      the face loop with a hash set of the edges drawn so far. */
  method DrawCube(cube: Cube, cfg: DrawConfig, h: real -> bv64) returns (rs: seq<Record>)
    requires Valid(cube) && CubeDrawable(cube, cfg)
    ensures rs == CubeRecords(cube, cfg)
  {
    if cfg.transparent {
      TablesUseLabels();
      var es := Edges(cube);
      rs := [];
      for t := 0 to 12
        invariant RecordsOf(rs, es[..t], cfg)
      {
        rs := rs + [EdgeRecord(es[t], cfg)];
      }
      assert es[..12] == es;
    } else {
      rs := DrawOpaque(cube, cfg, h);
    }
    RecordsOfUnique(rs, CubeRecords(cube, cfg), if cfg.transparent then Edges(cube) else OpaqueEdges(cube, cfg), cfg);
  }

  // ---------------------------------------------------------------------
  // Opposite faces

  /** The pairs of opposite faces, by position in the face table. */
  const OppositePairs: seq<(nat, nat)> := [(0, 1), (2, 4), (3, 5)]

  /** In a cube shaped by m, the vector between two vertices is m times
      the vector between their offsets. */
  lemma ShapedDifference(cube: Cube, m: Mat3, a: int, b: int)
    requires ShapedBy(cube, m) && a in Labels && b in Labels
    ensures Sub(cube.v[a], cube.v[b]) == Apply(m, Sub(Offset(a, cube.l), Offset(b, cube.l)))
    ensures Sub(cube.v[a], cube.c) == Apply(m, Offset(a, cube.l))
  {
    var x, y := Offset(a, cube.l), Offset(b, cube.l);
    ApplyLinear(m, x, y, 1.0);
    AddSubCancel(cube.c, Apply(m, x), Apply(m, y));
    AddSubInverse(Apply(m, x), cube.c);
  }

  /** The faces at x = +l/2 and x = −l/2 (before rotation). */
  lemma FirstPairOpposite(cube: Cube, m: Mat3)
    requires ShapedBy(cube, m)
    ensures NormalVector(Faces(cube)[0], Some(cube.c)) == Neg(NormalVector(Faces(cube)[1], Some(cube.c)))
  {
    var l := cube.l;
    var fs := Faces(cube);
    var x, y, z := Apply(m, Point(l, 0.0, 0.0)), Apply(m, Point(0.0, l, 0.0)), Apply(m, Point(0.0, 0.0, l));
    ShapedDifference(cube, m, 1, 2);
    ShapedDifference(cube, m, 3, 2);
    ShapedDifference(cube, m, 8, 7);
    ShapedDifference(cube, m, 6, 7);
    ShapedDifference(cube, m, 2, 7);
    ShapedDifference(cube, m, 7, 7);
    assert Sub(Offset(3, l), Offset(2, l)) == Neg(Point(0.0, l, 0.0));
    ApplyLinear(m, Point(0.0, l, 0.0), Origin, 1.0);
    CrossAntisymmetric(z, y);
    assert RawNormal(fs[0]) == Cross(z, Neg(y));
    assert RawNormal(fs[1]) == Cross(z, y);
    assert Add(Offset(2, l), Offset(7, l)) == Neg(Point(0.0, 0.0, l));
    ApplyLinear(m, Offset(2, l), Offset(7, l), 1.0);
    ApplyLinear(m, Point(0.0, 0.0, l), Origin, 1.0);
    CrossPerpendicular(z, Neg(y));
    DotNegRight(Cross(z, Neg(y)), z);
    OppositeOrientedNormals(fs[0], fs[1], cube.c);
  }

  /** The faces at y = +l/2 and y = −l/2 (before rotation). */
  lemma SecondPairOpposite(cube: Cube, m: Mat3)
    requires ShapedBy(cube, m)
    ensures NormalVector(Faces(cube)[2], Some(cube.c)) == Neg(NormalVector(Faces(cube)[4], Some(cube.c)))
  {
    var l := cube.l;
    var fs := Faces(cube);
    var x, z := Apply(m, Point(l, 0.0, 0.0)), Apply(m, Point(0.0, 0.0, l));
    ShapedDifference(cube, m, 5, 6);
    ShapedDifference(cube, m, 2, 6);
    ShapedDifference(cube, m, 3, 7);
    ShapedDifference(cube, m, 8, 7);
    ShapedDifference(cube, m, 6, 6);
    ShapedDifference(cube, m, 7, 7);
    CrossAntisymmetric(x, z);
    assert RawNormal(fs[2]) == Cross(z, x);
    assert RawNormal(fs[4]) == Cross(x, z);
    var c := Cross(z, x);
    assert Add(Offset(6, l), Offset(7, l)) == Neg(Add(Point(l, 0.0, 0.0), Point(0.0, 0.0, l)));
    ApplyLinear(m, Offset(6, l), Offset(7, l), 1.0);
    ApplyLinear(m, Add(Point(l, 0.0, 0.0), Point(0.0, 0.0, l)), Origin, 1.0);
    ApplyLinear(m, Point(l, 0.0, 0.0), Point(0.0, 0.0, l), 1.0);
    CrossPerpendicular(z, x);
    DotNegRight(c, Add(x, z));
    DotSymmetric(c, Add(x, z));
    DotAddLeft(x, z, c);
    DotSymmetric(c, x);
    DotSymmetric(c, z);
    OppositeOrientedNormals(fs[2], fs[4], cube.c);
  }

  /** The faces at z = −l/2 and z = +l/2 (before rotation). */
  lemma ThirdPairOpposite(cube: Cube, m: Mat3)
    requires ShapedBy(cube, m)
    ensures NormalVector(Faces(cube)[3], Some(cube.c)) == Neg(NormalVector(Faces(cube)[5], Some(cube.c)))
  {
    var l := cube.l;
    var fs := Faces(cube);
    var x, y := Apply(m, Point(l, 0.0, 0.0)), Apply(m, Point(0.0, l, 0.0));
    ShapedDifference(cube, m, 2, 6);
    ShapedDifference(cube, m, 7, 6);
    ShapedDifference(cube, m, 4, 8);
    ShapedDifference(cube, m, 5, 8);
    ShapedDifference(cube, m, 6, 6);
    ShapedDifference(cube, m, 8, 8);
    assert Sub(Offset(7, l), Offset(6, l)) == Neg(Point(0.0, l, 0.0));
    ApplyLinear(m, Point(0.0, l, 0.0), Origin, 1.0);
    CrossAntisymmetric(x, y);
    assert RawNormal(fs[3]) == Cross(x, Neg(y));
    assert RawNormal(fs[5]) == Cross(x, y);
    assert Add(Offset(6, l), Offset(8, l)) == Neg(Point(l, 0.0, 0.0));
    ApplyLinear(m, Offset(6, l), Offset(8, l), 1.0);
    ApplyLinear(m, Point(l, 0.0, 0.0), Origin, 1.0);
    CrossPerpendicular(x, Neg(y));
    DotNegRight(Cross(x, Neg(y)), x);
    OppositeOrientedNormals(fs[3], fs[5], cube.c);
  }

  /** Every cube that was built and then rotated has opposite faces with
      opposite oriented normals. */
  lemma OppositeNormals(cube: Cube, m: Mat3, k: nat)
    requires ShapedBy(cube, m) && k < 3
    ensures NormalVector(Faces(cube)[OppositePairs[k].0], Some(cube.c))
         == Neg(NormalVector(Faces(cube)[OppositePairs[k].1], Some(cube.c)))
  {
    if k == 0 {
      FirstPairOpposite(cube, m);
    } else if k == 1 {
      SecondPairOpposite(cube, m);
    } else {
      ThirdPairOpposite(cube, m);
    }
  }

  /** In orthographic mode, of two opposite faces at most one is drawn,
      and exactly one unless they are seen edge-on. */
  lemma OppositeFacesOrthographic(cube: Cube, m: Mat3, cfg: DrawConfig, k: nat)
    requires ShapedBy(cube, m) && !cfg.perspective && k < 3
    ensures var fs, p := Faces(cube), OppositePairs[k];
      && !(FaceVisible(fs[p.0], cube.c, cfg) && FaceVisible(fs[p.1], cube.c, cfg))
      && (Dot(ZAxis, NormalVector(fs[p.0], Some(cube.c))) != 0.0 ==>
            FaceVisible(fs[p.0], cube.c, cfg) || FaceVisible(fs[p.1], cube.c, cfg))
  {
    var fs, p := Faces(cube), OppositePairs[k];
    OppositeNormals(cube, m, k);
    DotNegRight(ZAxis, NormalVector(fs[p.1], Some(cube.c)));
  }

  /** The faces drawn by an opaque cube, by position in the face table. */
  function VisibleFaces(cube: Cube, cfg: DrawConfig): set<nat>
    requires Valid(cube)
  {
    set f: nat | f < 6 && FaceVisible(Faces(cube)[f], cube.c, cfg)
  }

  /** Six flags that differ within each opposite pair have three set. */
  lemma OnePerPair(shown: seq<bool>)
    requires |shown| == 6 && shown[0] != shown[1] && shown[2] != shown[4] && shown[3] != shown[5]
    ensures |set f: nat | f < 6 && shown[f]| == 3
  {
    var a: nat := if shown[0] then 0 else 1;
    var b: nat := if shown[2] then 2 else 4;
    var d: nat := if shown[3] then 3 else 5;
    assert (set f: nat | f < 6 && shown[f]) == {a, b, d};
  }

  /** In orthographic mode a cube seen with no face edge-on shows exactly
      three faces, one of each opposite pair. */
  lemma ThreeFacesVisible(cube: Cube, m: Mat3, cfg: DrawConfig)
    requires ShapedBy(cube, m) && !cfg.perspective
    requires forall f | 0 <= f < 6 :: Dot(ZAxis, NormalVector(Faces(cube)[f], Some(cube.c))) != 0.0
    ensures |VisibleFaces(cube, cfg)| == 3
  {
    var shown := Visibility(Faces(cube), cube.c, cfg);
    OppositeFacesOrthographic(cube, m, cfg, 0);
    OppositeFacesOrthographic(cube, m, cfg, 1);
    OppositeFacesOrthographic(cube, m, cfg, 2);
    OnePerPair(shown);
    assert VisibleFaces(cube, cfg) == set f: nat | f < 6 && shown[f];
  }
}
