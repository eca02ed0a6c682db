/** Polynomial identities over the reals behind the rotation proofs,
    stated on plain scalars so that each proof sees nothing else. */
module RealAlgebra {

  /** One step of a running sum that adds `e` to every term. */
  lemma AppendMultiple(s: real, v: real, e: real, k: real, t: real)
    requires t == (s + e * k) + (v + e)
    ensures t == (s + v) + e * (k + 1.0)
  {
  }

  lemma QuotientTimesDivisor(n: real, d: real)
    requires d != 0.0
    ensures (n / d) * d == n
  {
  }

  lemma CancelCommonFactor(n: real, d: real, k: real)
    requires d != 0.0 && k != 0.0
    ensures (k * n) / (k * d) == n / d
  {
  }

  /** A quotient is unchanged when numerator and denominator are both
      multiplied by the same non-zero factor. */
  lemma QuotientOfScaledTerms(n: real, d: real, n': real, d': real, k: real)
    requires d != 0.0 && k != 0.0 && n' == k * n && d' == k * d
    ensures d' != 0.0 && n' / d' == n / d
  {
    CancelCommonFactor(n, d, k);
  }

  /** A point moved along the line from the eye at height f, by the
      factor k: its distance from the eye's plane and its numerator scale
      by k. */
  lemma RayScalar(x: real, z: real, f: real, k: real, x': real, z': real)
    requires x' == x * k && z' == f + (z - f) * k
    ensures f - z' == k * (f - z) && f * x' == k * (f * x)
  {
  }

  /** Projection from the eye at height f is unchanged when the point
      slides along its ray by the factor k. */
  lemma RayQuotients(x: real, y: real, z: real, f: real, k: real, x': real, y': real, z': real)
    requires z != f && k != 0.0
    requires x' == x * k && y' == y * k && z' == f + (z - f) * k
    ensures f - z' != 0.0
    ensures f * x' / (f - z') == f * x / (f - z)
    ensures f * y' / (f - z') == f * y / (f - z)
  {
    RayScalar(x, z, f, k, x', z');
    RayScalar(y, z, f, k, y', z');
    QuotientOfScaledTerms(f * x, f - z, f * x', f - z', k);
    QuotientOfScaledTerms(f * y, f - z, f * y', f - z', k);
  }

  lemma QuotientOfMultiple(x: real, d: real)
    requires d != 0.0
    ensures (d * x) / d == x
  {
  }

  lemma QuotientOfShiftedSum(a: real, b: real, d: real)
    requires d != 0.0
    ensures (a + b * d) / d == a / d + b
  {
  }

  /** Row 0 of Rodrigues' matrix dotted with the unit axis (a, b, d). */
  lemma RowFixesAxisScalar(c: real, s: real, a: real, b: real, d: real, p: real, q: real, r: real)
    requires a * a + b * b + d * d == 1.0
    requires p == c + (a * a) * (1.0 - c)
    requires q == a * b * (1.0 - c) - d * s
    requires r == a * d * (1.0 - c) + b * s
    ensures p * a + q * b + r * d == a
  {
    var t := 1.0 - c;
    calc {
      (c + (a * a) * t) * a + (a * b * t - d * s) * b + (a * d * t + b * s) * d;
      c * a + t * a * (a * a + b * b + d * d);
      c * a + t * a;
    }
  }

  lemma SquareOfSum(x: real, y: real, r: real)
    requires r == x + y
    ensures r * r == x * x + 2.0 * (x * y) + y * y
  {
  }

  lemma SquareOfDifference(x: real, y: real, r: real)
    requires r == x - y
    ensures r * r == x * x - 2.0 * (x * y) + y * y
  {
  }

  /** Multiplying equals by the same factor. */
  lemma MultiplyEquals(k: real, x: real, y: real)
    requires x == y
    ensures k * x == k * y
  {
  }

  /** The squared length of a column, as a polynomial identity in the
      cosine, the sine and the unit axis. */
  lemma ColumnUnitScalar(c: real, s: real, a: real, b: real, d: real, p: real, q: real, r: real)
    requires a * a + b * b + d * d == 1.0
    requires c * c + s * s == 1.0
    requires p == c + (a * a) * (1.0 - c)
    requires q == b * a * (1.0 - c) + d * s
    requires r == d * a * (1.0 - c) - b * s
    ensures p * p + q * q + r * r == 1.0
  {
    var t := 1.0 - c;
    ColumnSquares(c, s, a, b, d, t, p, q, r);
    ColumnSumOfSquares(c, s, a, b, d, t);
  }

  /** The three squares of a column, multiplied out. */
  lemma ColumnSquares(c: real, s: real, a: real, b: real, d: real, t: real, p: real, q: real, r: real)
    requires p == c + (a * a) * t
    requires q == b * a * t + d * s
    requires r == d * a * t - b * s
    ensures p * p + q * q + r * r
         == c * c + 2.0 * c * t * (a * a) + t * t * (a * a) * (a * a + b * b + d * d) + s * s * (b * b + d * d)
  {
    SquareOfSum(c, (a * a) * t, p);
    SquareOfSum(b * a * t, d * s, q);
    SquareOfDifference(d * a * t, b * s, r);
  }

  /** The multiplied-out squares add up to one on the unit sphere. */
  lemma ColumnSumOfSquares(c: real, s: real, a: real, b: real, d: real, t: real)
    requires a * a + b * b + d * d == 1.0
    requires c * c + s * s == 1.0
    requires t == 1.0 - c
    ensures c * c + 2.0 * c * t * (a * a) + t * t * (a * a) * (a * a + b * b + d * d) + s * s * (b * b + d * d)
         == 1.0
  {
    MultiplyEquals(t * t * (a * a), a * a + b * b + d * d, 1.0);
    MultiplyEquals(s * s, b * b + d * d, 1.0 - a * a);
    assert 2.0 * c * t + t * t == 1.0 - c * c;
    calc {
      c * c + 2.0 * c * t * (a * a) + t * t * (a * a) + s * s * (1.0 - a * a);
      c * c + s * s + (a * a) * (2.0 * c * t + t * t - s * s);
      { MultiplyEquals(a * a, 2.0 * c * t + t * t - s * s, 1.0 - c * c - s * s); }
      c * c + s * s + (a * a) * (1.0 - c * c - s * s);
      { MultiplyEquals(a * a, 1.0 - c * c - s * s, 0.0); }
      1.0;
    }
  }

  lemma PerpendicularFirstProduct(a: real, b: real, c: real, d: real, s: real, t: real, p: real, p': real)
    requires p == c + (a * a) * t
    requires p' == a * b * t - d * s
    ensures p * p' == c * t * (a * b) - c * s * d + t * t * (a * b) * (a * a) - t * s * (a * a) * d
  {
  }

  lemma PerpendicularSecondProduct(a: real, b: real, c: real, d: real, s: real, t: real, q: real, q': real)
    requires q == b * a * t + d * s
    requires q' == c + (b * b) * t
    ensures q * q' == c * t * (a * b) + c * s * d + t * t * (a * b) * (b * b) + t * s * (b * b) * d
  {
  }

  lemma PerpendicularThirdProduct(a: real, b: real, d: real, s: real, t: real, r: real, r': real)
    requires r == d * a * t - b * s
    requires r' == d * b * t + a * s
    ensures r * r' == t * t * (a * b) * (d * d) + t * s * (a * a) * d - t * s * (b * b) * d - s * s * (a * b)
  {
  }

  /** The dot product of consecutive columns, as a polynomial identity. */
  lemma ColumnsPerpendicularScalar(c: real, s: real, a: real, b: real, d: real,
                                    p: real, q: real, r: real, p': real, q': real, r': real)
    requires a * a + b * b + d * d == 1.0
    requires c * c + s * s == 1.0
    requires p == c + (a * a) * (1.0 - c)
    requires q == b * a * (1.0 - c) + d * s
    requires r == d * a * (1.0 - c) - b * s
    requires p' == a * b * (1.0 - c) - d * s
    requires q' == c + (b * b) * (1.0 - c)
    requires r' == d * b * (1.0 - c) + a * s
    ensures p * p' + q * q' + r * r' == 0.0
  {
    var t := 1.0 - c;
    PerpendicularFirstProduct(a, b, c, d, s, t, p, p');
    PerpendicularSecondProduct(a, b, c, d, s, t, q, q');
    PerpendicularThirdProduct(a, b, d, s, t, r, r');
    calc {
      p * p' + q * q' + r * r';
      2.0 * c * t * (a * b) + t * t * (a * b) * (a * a + b * b + d * d) - s * s * (a * b);
      (a * b) * (2.0 * c * t + t * t - s * s);
      { assert 2.0 * c * t + t * t == 1.0 - c * c; }
      (a * b) * (1.0 - c * c - s * s);
      0.0;
    }
  }
}
