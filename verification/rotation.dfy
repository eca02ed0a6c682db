/** The axis-angle rotation builder (Rodrigues' formula). The angle enters
    only through its cosine `c` and sine `s`, and the square root that
    normalises the axis enters as the given length `len` of the axis. */
module Rotation {
  import opened Vectors
  import opened Matrices
  import opened RealAlgebra

  /** `len` is the length of the axis: the positive number that divides
      it into a unit vector, which is what the builder's normalisation
      `u / sqrt(sum(u**2))` computes. */
  ghost predicate IsAxisLength(axis: Point, len: real) {
    len > 0.0 && Norm2(Div(axis, len)) == 1.0
  }

  /** The axis divided by its length. */
  function UnitAxis(axis: Point, len: real): (u: Point)
    requires IsAxisLength(axis, len)
    ensures Norm2(u) == 1.0
    ensures Scale(u, len) == axis
  {
    Div(axis, len)
  }

  /** The entries of `c·I + s·[u]× + (1−c)·u⊗u`, read off by parts: the
      diagonal is `c + (1−c)·uᵢ²`, the symmetric part of each off-diagonal
      pair is `(1−c)·uᵢ·uⱼ` and the antisymmetric part is `±s·uₖ`. These
      nine equations fix all nine entries. */
  ghost predicate RodriguesEntries(m: Mat3, c: real, s: real, u: Point) {
    && m.r0.x == c + (1.0 - c) * (u.x * u.x)
    && m.r1.y == c + (1.0 - c) * (u.y * u.y)
    && m.r2.z == c + (1.0 - c) * (u.z * u.z)
    && m.r0.y + m.r1.x == 2.0 * (1.0 - c) * (u.x * u.y)
    && m.r1.z + m.r2.y == 2.0 * (1.0 - c) * (u.y * u.z)
    && m.r2.x + m.r0.z == 2.0 * (1.0 - c) * (u.z * u.x)
    && m.r1.x - m.r0.y == 2.0 * s * u.z
    && m.r2.y - m.r1.z == 2.0 * s * u.x
    && m.r0.z - m.r2.x == 2.0 * s * u.y
  }

  /** Rodrigues' matrix for a unit vector u, entry by entry in the order
      of `rotation_matrix`. */
  function Rodrigues(c: real, s: real, u: Point): Mat3 {
    Mat3(
      Point(c + (u.x * u.x) * (1.0 - c),
            u.x * u.y * (1.0 - c) - u.z * s,
            u.x * u.z * (1.0 - c) + u.y * s),
      Point(u.y * u.x * (1.0 - c) + u.z * s,
            c + (u.y * u.y) * (1.0 - c),
            u.y * u.z * (1.0 - c) - u.x * s),
      Point(u.z * u.x * (1.0 - c) - u.y * s,
            u.z * u.y * (1.0 - c) + u.x * s,
            c + (u.z * u.z) * (1.0 - c)))
  }

  /** Rodrigues' matrix is the only solution of the nine equations of
      `RodriguesEntries`. */
  lemma RodriguesEntriesDetermine(m: Mat3, c: real, s: real, u: Point)
    ensures RodriguesEntries(m, c, s, u) <==> m == Rodrigues(c, s, u)
  {
  }

  /** `rotation_matrix(theta, axis)` with `c = cos theta`, `s = sin theta`:
      normalise the axis, then build Rodrigues' matrix. A zero axis has no
      positive length, so it cannot be passed. */
  function RotationMatrix(c: real, s: real, axis: Point, len: real): (m: Mat3)
    requires IsAxisLength(axis, len)
    ensures RodriguesEntries(m, c, s, UnitAxis(axis, len))
  {
    RodriguesEntriesDetermine(Rodrigues(c, s, UnitAxis(axis, len)), c, s, UnitAxis(axis, len));
    Rodrigues(c, s, UnitAxis(axis, len))
  }

  /** A zero axis has no length: normalising it divides zero by zero, so
      the builder cannot be called with it. */
  lemma ZeroAxisHasNoLength(len: real)
    ensures !IsAxisLength(Origin, len)
  {
  }

  /** At angle zero (c = 1, s = 0) the rotation is the identity. */
  lemma ZeroAngleIsIdentity(axis: Point, len: real)
    requires IsAxisLength(axis, len)
    ensures RotationMatrix(1.0, 0.0, axis, len) == Identity
  {
  }

  /** Cyclic relabelling of coordinates, `(x, y, z) ↦ (z, x, y)`. */
  function Rot(p: Point): Point {
    Point(p.z, p.x, p.y)
  }

  lemma DotRot(p: Point, q: Point)
    ensures Dot(Rot(p), Rot(q)) == Dot(p, q)
  {
  }

  /** Row 0 of Rodrigues' matrix for the axis (a, b, d); rows 1 and 2 are
      this row for (uy, uz, ux) and (uz, ux, uy), relabelled by Rot. */
  function RowShape(c: real, s: real, a: real, b: real, d: real): Point {
    Point(c + (a * a) * (1.0 - c), a * b * (1.0 - c) - d * s, a * d * (1.0 - c) + b * s)
  }

  /** Column 0 of Rodrigues' matrix for the axis (a, b, d); the other two
      columns are relabellings of it in the same way. */
  function ColumnShape(c: real, s: real, a: real, b: real, d: real): Point {
    Point(c + (a * a) * (1.0 - c), b * a * (1.0 - c) + d * s, d * a * (1.0 - c) - b * s)
  }

  lemma RodriguesRows(c: real, s: real, u: Point)
    ensures Rodrigues(c, s, u).r0 == RowShape(c, s, u.x, u.y, u.z)
    ensures Rodrigues(c, s, u).r1 == Rot(RowShape(c, s, u.y, u.z, u.x))
    ensures Rodrigues(c, s, u).r2 == Rot(Rot(RowShape(c, s, u.z, u.x, u.y)))
  {
    SecondRow(c, s, u);
    ThirdRow(c, s, u);
  }

  lemma SecondRow(c: real, s: real, u: Point)
    ensures Rodrigues(c, s, u).r1 == Rot(RowShape(c, s, u.y, u.z, u.x))
  {
    var p := RowShape(c, s, u.y, u.z, u.x);
    assert Rodrigues(c, s, u).r1 == Point(p.z, p.x, p.y);
  }

  lemma ThirdRow(c: real, s: real, u: Point)
    ensures Rodrigues(c, s, u).r2 == Rot(Rot(RowShape(c, s, u.z, u.x, u.y)))
  {
    var q := RowShape(c, s, u.z, u.x, u.y);
    assert Rodrigues(c, s, u).r2 == Point(q.y, q.z, q.x);
  }

  lemma RodriguesColumns(c: real, s: real, u: Point)
    ensures Transpose(Rodrigues(c, s, u)).r0 == ColumnShape(c, s, u.x, u.y, u.z)
    ensures Transpose(Rodrigues(c, s, u)).r1 == Rot(ColumnShape(c, s, u.y, u.z, u.x))
    ensures Transpose(Rodrigues(c, s, u)).r2 == Rot(Rot(ColumnShape(c, s, u.z, u.x, u.y)))
  {
    FirstColumn(c, s, u);
    SecondColumn(c, s, u);
    ThirdColumn(c, s, u);
  }

  lemma FirstColumn(c: real, s: real, u: Point)
    ensures Transpose(Rodrigues(c, s, u)).r0 == ColumnShape(c, s, u.x, u.y, u.z)
  {
    var m := Rodrigues(c, s, u);
    assert Transpose(m).r0 == Point(m.r0.x, m.r1.x, m.r2.x);
  }

  lemma SecondColumn(c: real, s: real, u: Point)
    ensures Transpose(Rodrigues(c, s, u)).r1 == Rot(ColumnShape(c, s, u.y, u.z, u.x))
  {
    var m, k := Rodrigues(c, s, u), ColumnShape(c, s, u.y, u.z, u.x);
    assert Transpose(m).r1 == Point(m.r0.y, m.r1.y, m.r2.y);
    assert Point(m.r0.y, m.r1.y, m.r2.y) == Point(k.z, k.x, k.y);
  }

  lemma ThirdColumn(c: real, s: real, u: Point)
    ensures Transpose(Rodrigues(c, s, u)).r2 == Rot(Rot(ColumnShape(c, s, u.z, u.x, u.y)))
  {
    var m, k := Rodrigues(c, s, u), ColumnShape(c, s, u.z, u.x, u.y);
    assert Transpose(m).r2 == Point(m.r0.z, m.r1.z, m.r2.z);
    assert Point(m.r0.z, m.r1.z, m.r2.z) == Point(k.y, k.z, k.x);
  }

  /** A row dotted with the unit axis gives that axis component back. */
  lemma RowFixesAxis(c: real, s: real, a: real, b: real, d: real)
    requires a * a + b * b + d * d == 1.0
    ensures Dot(RowShape(c, s, a, b, d), Point(a, b, d)) == a
  {
    var p := RowShape(c, s, a, b, d);
    RowFixesAxisScalar(c, s, a, b, d, p.x, p.y, p.z);
  }

  /** The unit axis is a fixed point of the rotation. */
  lemma UnitAxisIsFixed(c: real, s: real, axis: Point, len: real)
    requires IsAxisLength(axis, len)
    ensures Apply(RotationMatrix(c, s, axis, len), UnitAxis(axis, len)) == UnitAxis(axis, len)
  {
    var u := UnitAxis(axis, len);
    RodriguesRows(c, s, u);
    RowFixesAxis(c, s, u.x, u.y, u.z);
    RowFixesAxis(c, s, u.y, u.z, u.x);
    RowFixesAxis(c, s, u.z, u.x, u.y);
    DotRot(RowShape(c, s, u.y, u.z, u.x), Point(u.y, u.z, u.x));
    DotRot(Rot(RowShape(c, s, u.z, u.x, u.y)), Rot(Point(u.z, u.x, u.y)));
    DotRot(RowShape(c, s, u.z, u.x, u.y), Point(u.z, u.x, u.y));
  }

  /** So is the axis as given, before normalisation. */
  lemma AxisIsFixed(c: real, s: real, axis: Point, len: real)
    requires IsAxisLength(axis, len)
    ensures Apply(RotationMatrix(c, s, axis, len), axis) == axis
  {
    var u := UnitAxis(axis, len);
    UnitAxisIsFixed(c, s, axis, len);
    ApplyLinear(RotationMatrix(c, s, axis, len), u, u, len);
  }

  /** Negating the sine transposes the matrix: the `(1−c)·u⊗u` part is
      symmetric and the `s·[u]×` part antisymmetric. */
  lemma NegatedSineIsTranspose(c: real, s: real, axis: Point, len: real)
    requires IsAxisLength(axis, len)
    ensures RotationMatrix(c, -s, axis, len) == Transpose(RotationMatrix(c, s, axis, len))
  {
  }

  /** A column of Rodrigues' matrix has unit length. */
  lemma ColumnUnit(c: real, s: real, a: real, b: real, d: real)
    requires a * a + b * b + d * d == 1.0
    requires c * c + s * s == 1.0
    ensures Norm2(ColumnShape(c, s, a, b, d)) == 1.0
  {
    var p := ColumnShape(c, s, a, b, d);
    ColumnUnitScalar(c, s, a, b, d, p.x, p.y, p.z);
  }

  /** Column k and column k+1 (cyclically) of Rodrigues' matrix are
      perpendicular. */
  lemma ColumnsPerpendicular(c: real, s: real, a: real, b: real, d: real)
    requires a * a + b * b + d * d == 1.0
    requires c * c + s * s == 1.0
    ensures Dot(ColumnShape(c, s, a, b, d), Rot(ColumnShape(c, s, b, d, a))) == 0.0
  {
    var p, p' := ColumnShape(c, s, a, b, d), Rot(ColumnShape(c, s, b, d, a));
    ColumnsPerpendicularScalar(c, s, a, b, d, p.x, p.y, p.z, p'.x, p'.y, p'.z);
  }

  /** With `c² + s² = 1` the matrix is orthogonal: `Rᵀ·R = I`. */
  lemma RotationIsOrthogonal(c: real, s: real, axis: Point, len: real)
    requires IsAxisLength(axis, len)
    requires c * c + s * s == 1.0
    ensures Mul(Transpose(RotationMatrix(c, s, axis, len)), RotationMatrix(c, s, axis, len)) == Identity
  {
    var u := UnitAxis(axis, len);
    var r := RotationMatrix(c, s, axis, len);
    ColumnsHaveUnitLength(c, s, u);
    ColumnsArePerpendicular(c, s, u);
    assert OrthonormalColumns(r);
    OrthonormalColumnsIffOrthogonal(r);
  }

  /** Every column of Rodrigues' matrix for a unit axis has unit length. */
  lemma ColumnsHaveUnitLength(c: real, s: real, u: Point)
    requires Norm2(u) == 1.0
    requires c * c + s * s == 1.0
    ensures Norm2(Transpose(Rodrigues(c, s, u)).r0) == 1.0
    ensures Norm2(Transpose(Rodrigues(c, s, u)).r1) == 1.0
    ensures Norm2(Transpose(Rodrigues(c, s, u)).r2) == 1.0
  {
    var k1, k2 := ColumnShape(c, s, u.y, u.z, u.x), ColumnShape(c, s, u.z, u.x, u.y);
    RodriguesColumns(c, s, u);
    ColumnUnit(c, s, u.x, u.y, u.z);
    ColumnUnit(c, s, u.y, u.z, u.x);
    ColumnUnit(c, s, u.z, u.x, u.y);
    DotRot(k1, k1);
    DotRot(Rot(k2), Rot(k2));
    DotRot(k2, k2);
  }

  /** The columns of Rodrigues' matrix for a unit axis are pairwise
      perpendicular. */
  lemma ColumnsArePerpendicular(c: real, s: real, u: Point)
    requires Norm2(u) == 1.0
    requires c * c + s * s == 1.0
    ensures Dot(Transpose(Rodrigues(c, s, u)).r0, Transpose(Rodrigues(c, s, u)).r1) == 0.0
    ensures Dot(Transpose(Rodrigues(c, s, u)).r1, Transpose(Rodrigues(c, s, u)).r2) == 0.0
    ensures Dot(Transpose(Rodrigues(c, s, u)).r2, Transpose(Rodrigues(c, s, u)).r0) == 0.0
  {
    var k0, k1, k2 := ColumnShape(c, s, u.x, u.y, u.z), ColumnShape(c, s, u.y, u.z, u.x),
                      ColumnShape(c, s, u.z, u.x, u.y);
    RodriguesColumns(c, s, u);
    ColumnsPerpendicular(c, s, u.x, u.y, u.z);
    ColumnsPerpendicular(c, s, u.y, u.z, u.x);
    ColumnsPerpendicular(c, s, u.z, u.x, u.y);
    // column 1 against column 2, and column 2 against column 0
    DotRot(k1, Rot(k2));
    DotRot(Rot(k2), Rot(k0));
    DotRot(k2, k0);
  }

  /** The other order, `R·Rᵀ = I`, follows from the transpose lemma. */
  lemma RotationInverseIsTranspose(c: real, s: real, axis: Point, len: real)
    requires IsAxisLength(axis, len)
    requires c * c + s * s == 1.0
    ensures Mul(RotationMatrix(c, s, axis, len), Transpose(RotationMatrix(c, s, axis, len))) == Identity
  {
    var r := RotationMatrix(c, s, axis, len);
    NegatedSineIsTranspose(c, s, axis, len);
    RotationIsOrthogonal(c, -s, axis, len);
    TransposeInvolutive(r);
  }

  /** Rotation preserves the length of every vector. */
  lemma RotationPreservesLength(c: real, s: real, axis: Point, len: real, p: Point)
    requires IsAxisLength(axis, len)
    requires c * c + s * s == 1.0
    ensures Norm2(Apply(RotationMatrix(c, s, axis, len), p)) == Norm2(p)
  {
    var r := RotationMatrix(c, s, axis, len);
    RotationIsOrthogonal(c, s, axis, len);
    OrthonormalColumnsIffOrthogonal(r);
    OrthonormalPreservesNorm(r, p);
  }
}
