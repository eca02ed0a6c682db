/** Three-component points and free vectors over exact reals, with the
    componentwise arithmetic of `Point` and the dot and cross products the
    visibility test needs. */
module Vectors {

  /** A point (or free vector) of 3-D space. Python compares two points
      component by component with exact float equality, which is Dafny's
      structural equality on this datatype. */
  datatype Point = Point(x: real, y: real, z: real)

  const Origin := Point(0.0, 0.0, 0.0)

  /** `Point.__add__`. */
  function Add(p: Point, q: Point): Point {
    Point(p.x + q.x, p.y + q.y, p.z + q.z)
  }

  /** `Point.__sub__`. */
  function Sub(p: Point, q: Point): Point {
    Point(p.x - q.x, p.y - q.y, p.z - q.z)
  }

  function Neg(p: Point): Point {
    Point(-p.x, -p.y, -p.z)
  }

  /** `Point.__mul__` by a number. */
  function Scale(p: Point, k: real): Point {
    Point(p.x * k, p.y * k, p.z * k)
  }

  /** `Point.__truediv__`: scaling by the divisor gives the point back. */
  function Div(p: Point, k: real): (r: Point)
    requires k != 0.0
    ensures Scale(r, k) == p
  {
    Point(p.x / k, p.y / k, p.z / k)
  }

  /** Division by k commutes with negation. */
  lemma DivNeg(p: Point, k: real)
    requires k != 0.0
    ensures Div(Neg(p), k) == Neg(Div(p, k))
  {
  }

  function Dot(p: Point, q: Point): real {
    p.x * q.x + p.y * q.y + p.z * q.z
  }

  function Cross(p: Point, q: Point): Point {
    Point(p.y * q.z - p.z * q.y, p.z * q.x - p.x * q.z, p.x * q.y - p.y * q.x)
  }

  /** The squared length; the model never takes the square root. */
  function Norm2(p: Point): real {
    Dot(p, p)
  }

  /** Subtraction undoes addition, and adding the difference restores the point. */
  lemma AddSubInverse(p: Point, q: Point)
    ensures Sub(Add(p, q), q) == p
    ensures Add(q, Sub(p, q)) == p
  {
  }

  /** The difference of two points is zero exactly when they are equal. */
  lemma SubZeroIffEqual(p: Point, q: Point)
    ensures Sub(p, q) == Origin <==> p == q
  {
  }

  /** A scaled point is zero exactly when the factor or the point is. */
  lemma ScaleZero(p: Point, k: real)
    ensures Scale(p, k) == Origin <==> k == 0.0 || p == Origin
  {
  }

  lemma DotAddLeft(p: Point, q: Point, n: Point)
    ensures Dot(Add(p, q), n) == Dot(p, n) + Dot(q, n)
  {
  }

  lemma DotSubLeft(p: Point, q: Point, n: Point)
    ensures Dot(Sub(p, q), n) == Dot(p, n) - Dot(q, n)
  {
  }

  lemma DotNegRight(p: Point, n: Point)
    ensures Dot(p, Neg(n)) == -Dot(p, n)
  {
  }

  lemma DotScaleRight(p: Point, n: Point, k: real)
    ensures Dot(p, Scale(n, k)) == k * Dot(p, n)
  {
  }

  lemma DotScaleBoth(p: Point, q: Point, j: real, k: real)
    ensures Dot(Scale(p, j), Scale(q, k)) == j * k * Dot(p, q)
  {
    assert (p.x * j) * (q.x * k) == j * k * (p.x * q.x);
    assert (p.y * j) * (q.y * k) == j * k * (p.y * q.y);
    assert (p.z * j) * (q.z * k) == j * k * (p.z * q.z);
  }

  lemma DotSymmetric(p: Point, q: Point)
    ensures Dot(p, q) == Dot(q, p)
  {
  }

  /** A cross product is perpendicular to both of its factors. */
  lemma CrossPerpendicular(p: Point, q: Point)
    ensures Dot(Cross(p, q), p) == 0.0
    ensures Dot(Cross(p, q), q) == 0.0
  {
  }

  /** The cross product is anticommutative and odd in each factor. */
  lemma CrossAntisymmetric(p: Point, q: Point)
    ensures Cross(q, p) == Neg(Cross(p, q))
    ensures Cross(p, Neg(q)) == Neg(Cross(p, q))
    ensures Cross(Neg(p), q) == Neg(Cross(p, q))
  {
  }

  /** A dot product changes sign with neither a positive scaling nor a
      positive division of either factor: its sign is all the visibility
      test reads. */
  lemma DotSignUnderPositiveDiv(w: Point, n: Point, k: real)
    requires k > 0.0
    ensures Dot(w, Div(n, k)) > 0.0 <==> Dot(w, n) > 0.0
    ensures Dot(Div(n, k), w) < 0.0 <==> Dot(n, w) < 0.0
  {
    assert Dot(w, Div(n, k)) == Dot(w, n) / k;
    assert Dot(Div(n, k), w) == Dot(n, w) / k;
  }
}
