/** 3x3 real matrices stored by rows, with the matrix-vector product the
    cube's rotation applies to every vertex. */
module Matrices {
  import opened Vectors

  /** Rows r0, r1, r2, each written as a Point. */
  datatype Mat3 = Mat3(r0: Point, r1: Point, r2: Point)

  const Identity := Mat3(Point(1.0, 0.0, 0.0), Point(0.0, 1.0, 0.0), Point(0.0, 0.0, 1.0))

  /** The product `m @ p`: component i is row i dotted with p. */
  function Apply(m: Mat3, p: Point): Point {
    Point(Dot(m.r0, p), Dot(m.r1, p), Dot(m.r2, p))
  }

  function Transpose(m: Mat3): Mat3 {
    Mat3(Point(m.r0.x, m.r1.x, m.r2.x),
         Point(m.r0.y, m.r1.y, m.r2.y),
         Point(m.r0.z, m.r1.z, m.r2.z))
  }

  /** The product `a @ b`: row i of the result is row i of a times b. */
  function Mul(a: Mat3, b: Mat3): Mat3 {
    var bt := Transpose(b);
    Mat3(Apply(bt, a.r0), Apply(bt, a.r1), Apply(bt, a.r2))
  }

  /** Transposing twice gives the matrix back. */
  lemma TransposeInvolutive(m: Mat3)
    ensures Transpose(Transpose(m)) == m
  {
  }

  lemma ApplyIdentity(p: Point)
    ensures Apply(Identity, p) == p
  {
  }

  /** Matrix-vector products are linear. */
  lemma ApplyLinear(m: Mat3, p: Point, q: Point, k: real)
    ensures Apply(m, Add(p, q)) == Add(Apply(m, p), Apply(m, q))
    ensures Apply(m, Sub(p, q)) == Sub(Apply(m, p), Apply(m, q))
    ensures Apply(m, Neg(p)) == Neg(Apply(m, p))
    ensures Apply(m, Scale(p, k)) == Scale(Apply(m, p), k)
  {
    ApplyAdd(m, p, q);
    ApplySub(m, p, q);
    ApplyNeg(m, p);
    ApplyScale(m, p, k);
  }

  lemma ApplyAdd(m: Mat3, p: Point, q: Point)
    ensures Apply(m, Add(p, q)) == Add(Apply(m, p), Apply(m, q))
  {
    DotSymmetric(m.r0, Add(p, q));
    DotSymmetric(m.r1, Add(p, q));
    DotSymmetric(m.r2, Add(p, q));
    DotAddLeft(p, q, m.r0);
    DotAddLeft(p, q, m.r1);
    DotAddLeft(p, q, m.r2);
  }

  lemma ApplySub(m: Mat3, p: Point, q: Point)
    ensures Apply(m, Sub(p, q)) == Sub(Apply(m, p), Apply(m, q))
  {
    DotSymmetric(m.r0, Sub(p, q));
    DotSymmetric(m.r1, Sub(p, q));
    DotSymmetric(m.r2, Sub(p, q));
    DotSubLeft(p, q, m.r0);
    DotSubLeft(p, q, m.r1);
    DotSubLeft(p, q, m.r2);
  }

  lemma ApplyNeg(m: Mat3, p: Point)
    ensures Apply(m, Neg(p)) == Neg(Apply(m, p))
  {
    DotNegRight(m.r0, p);
    DotNegRight(m.r1, p);
    DotNegRight(m.r2, p);
  }

  lemma ApplyScale(m: Mat3, p: Point, k: real)
    ensures Apply(m, Scale(p, k)) == Scale(Apply(m, p), k)
  {
    DotScaleRight(m.r0, p, k);
    DotScaleRight(m.r1, p, k);
    DotScaleRight(m.r2, p, k);
  }

  /** Applying a product is applying its factors in turn, right one first. */
  lemma ApplyMul(a: Mat3, b: Mat3, p: Point)
    ensures Apply(Mul(a, b), p) == Apply(a, Apply(b, p))
  {
    MulRow(a.r0, b, p);
    MulRow(a.r1, b, p);
    MulRow(a.r2, b, p);
  }

  /** One row of `ApplyMul`: (r @ b) . p == r . (b @ p). */
  lemma MulRow(r: Point, b: Mat3, p: Point)
    ensures Dot(Apply(Transpose(b), r), p) == Dot(r, Apply(b, p))
  {
    MulRowScalar(r.x, r.y, r.z, b.r0.x, b.r0.y, b.r0.z, b.r1.x, b.r1.y, b.r1.z,
                 b.r2.x, b.r2.y, b.r2.z, p.x, p.y, p.z);
  }

  lemma MulRowScalar(x: real, y: real, z: real,
                     a: real, b: real, c: real, d: real, e: real, f: real,
                     g: real, h: real, i: real, u: real, v: real, w: real)
    ensures (x * a + y * d + z * g) * u + (x * b + y * e + z * h) * v + (x * c + y * f + z * i) * w
         == x * (a * u + b * v + c * w) + y * (d * u + e * v + f * w) + z * (g * u + h * v + i * w)
  {
  }

  /** Columns that are orthonormal, written as conditions on the rows of
      the transpose. */
  ghost predicate OrthonormalColumns(m: Mat3) {
    var t := Transpose(m);
    && Norm2(t.r0) == 1.0 && Norm2(t.r1) == 1.0 && Norm2(t.r2) == 1.0
    && Dot(t.r0, t.r1) == 0.0 && Dot(t.r1, t.r2) == 0.0 && Dot(t.r2, t.r0) == 0.0
  }

  /** Orthonormal columns are exactly `mᵀ @ m == I`. */
  lemma OrthonormalColumnsIffOrthogonal(m: Mat3)
    ensures OrthonormalColumns(m) <==> Mul(Transpose(m), m) == Identity
  {
    TransposeInvolutive(m);
  }

  /** A matrix with orthonormal columns preserves squared length. */
  lemma OrthonormalPreservesNorm(m: Mat3, p: Point)
    requires OrthonormalColumns(m)
    ensures Norm2(Apply(m, p)) == Norm2(p)
  {
    var t := Transpose(m);
    var q := Apply(m, p);
    // q is the combination p.x*col0 + p.y*col1 + p.z*col2 of the columns.
    assert q == Add(Add(Scale(t.r0, p.x), Scale(t.r1, p.y)), Scale(t.r2, p.z));
    var a, b, c := Scale(t.r0, p.x), Scale(t.r1, p.y), Scale(t.r2, p.z);
    DotScaleBoth(t.r0, t.r0, p.x, p.x);
    DotScaleBoth(t.r1, t.r1, p.y, p.y);
    DotScaleBoth(t.r2, t.r2, p.z, p.z);
    DotScaleBoth(t.r0, t.r1, p.x, p.y);
    DotScaleBoth(t.r1, t.r2, p.y, p.z);
    DotScaleBoth(t.r0, t.r2, p.x, p.z);
    DotSymmetric(t.r0, t.r2);
    assert Norm2(Add(Add(a, b), c))
        == Norm2(a) + Norm2(b) + Norm2(c) + 2.0 * Dot(a, b) + 2.0 * Dot(b, c) + 2.0 * Dot(a, c);
  }
}
