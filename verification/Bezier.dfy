/** Bicubic Bezier patches: the matrix form in which they are evaluated, and the Bernstein form. */
module Bezier {

  datatype Vec4 = Vec4(a: real, b: real, c: real, d: real)

  datatype Matrix = Matrix(r0: Vec4, r1: Vec4, r2: Vec4, r3: Vec4)

  function Dot(v: Vec4, w: Vec4): real {
    v.a * w.a + v.b * w.b + v.c * w.c + v.d * w.d
  }

  /** `v.applyMatrix4(m)`. */
  function Apply(m: Matrix, v: Vec4): Vec4 {
    Vec4(Dot(m.r0, v), Dot(m.r1, v), Dot(m.r2, v), Dot(m.r3, v))
  }

  function Transpose(m: Matrix): Matrix {
    Matrix(Vec4(m.r0.a, m.r1.a, m.r2.a, m.r3.a), Vec4(m.r0.b, m.r1.b, m.r2.b, m.r3.b),
           Vec4(m.r0.c, m.r1.c, m.r2.c, m.r3.c), Vec4(m.r0.d, m.r1.d, m.r2.d, m.r3.d))
  }

  /** `multiplyMatrices(m, n)`: each row of `m` against the columns of `n`. */
  function Multiply(m: Matrix, n: Matrix): Matrix {
    var cols := Transpose(n);
    Matrix(Apply(cols, m.r0), Apply(cols, m.r1), Apply(cols, m.r2), Apply(cols, m.r3))
  }

  /** The Bezier basis, `ms`. */
  const BASIS := Matrix(Vec4(-1.0, 3.0, -3.0, 1.0), Vec4(3.0, -6.0, 3.0, 0.0),
                        Vec4(-3.0, 3.0, 0.0, 0.0), Vec4(1.0, 0.0, 0.0, 0.0))

  /** `M * G * M` for a patch whose control values are the rows of `p`. */
  function Prepared(p: Matrix): Matrix {
    Multiply(Transpose(BASIS), Multiply(Transpose(p), BASIS))
  }

  function Powers(s: real): Vec4 {
    Vec4(s * s * s, s * s, s, 1.0)
  }

  /** The derivatives of the powers. */
  function Slopes(s: real): Vec4 {
    Vec4(s * s * 3.0, s * 2.0, 1.0, 0.0)
  }

  /** `tcoord.applyMatrix4(mgm)` and `tcoord.dot(...)`. */
  function Evaluate(mgm: Matrix, sp: Vec4, tp: Vec4): real {
    Dot(Apply(mgm, sp), tp)
  }

  // ---------------------------------------------------------------------------------------
  // The Bernstein form

  function Bernstein(s: real): Vec4 {
    var u := 1.0 - s;
    Vec4(u * u * u, 3.0 * s * (u * u), 3.0 * (s * s) * u, s * s * s)
  }

  /** The derivatives of the weights. */
  function BernsteinSlopes(s: real): Vec4 {
    var u := 1.0 - s;
    Vec4(-3.0 * (u * u), 3.0 * (u * u) - 6.0 * (s * u), 6.0 * (s * u) - 3.0 * (s * s), 3.0 * (s * s))
  }

  /** Every column of control values weighed along s, and the results along t. */
  function Blend(p: Matrix, ws: Vec4, wt: Vec4): real {
    Dot(Apply(Transpose(p), ws), wt)
  }

  lemma PreparedBlends(p: Matrix, sp: Vec4, tp: Vec4)
    ensures Evaluate(Prepared(p), sp, tp) == Blend(p, Apply(BASIS, sp), Apply(BASIS, tp))
  {
  }

  lemma BasisOfPowers(s: real)
    ensures Apply(BASIS, Powers(s)) == Bernstein(s)
    ensures Apply(BASIS, Slopes(s)) == BernsteinSlopes(s)
  {
  }

  /** The matrix form is the bicubic Bernstein form, for points and for tangents. */
  lemma MatrixIsBernstein(p: Matrix, s: real, t: real)
    ensures Evaluate(Prepared(p), Powers(s), Powers(t)) == Blend(p, Bernstein(s), Bernstein(t))
    ensures Evaluate(Prepared(p), Slopes(s), Powers(t)) == Blend(p, BernsteinSlopes(s), Bernstein(t))
    ensures Evaluate(Prepared(p), Powers(s), Slopes(t)) == Blend(p, Bernstein(s), BernsteinSlopes(t))
  {
    BasisOfPowers(s);
    BasisOfPowers(t);
    PreparedBlends(p, Powers(s), Powers(t));
    PreparedBlends(p, Slopes(s), Powers(t));
    PreparedBlends(p, Powers(s), Slopes(t));
  }

  // ---------------------------------------------------------------------------------------
  // Convexity

  predicate Between(lo: real, v: Vec4, hi: real) {
    lo <= v.a <= hi && lo <= v.b <= hi && lo <= v.c <= hi && lo <= v.d <= hi
  }

  predicate Weights(w: Vec4) {
    w.a >= 0.0 && w.b >= 0.0 && w.c >= 0.0 && w.d >= 0.0 && w.a + w.b + w.c + w.d == 1.0
  }

  lemma Product(x: real, y: real)
    requires x >= 0.0 && y >= 0.0
    ensures x * y >= 0.0
  {
  }

  lemma BernsteinWeighs(s: real)
    requires 0.0 <= s <= 1.0
    ensures Weights(Bernstein(s))
  {
    var u := 1.0 - s;
    Product(u, u);
    Product(s, s);
    Product(u * u, u);
    Product(s, u * u);
    Product(s * s, u);
    Product(s * s, s);
  }

  lemma Scaled(w: real, x: real, y: real)
    requires w >= 0.0 && x <= y
    ensures x * w <= y * w
  {
    Product(w, y - x);
    assert w * (y - x) == y * w - x * w;
  }

  lemma AverageOrdered(v: Vec4, v': Vec4, w: Vec4)
    requires v.a <= v'.a && v.b <= v'.b && v.c <= v'.c && v.d <= v'.d && Weights(w)
    ensures Dot(v, w) <= Dot(v', w)
  {
    var a, a' := Products(w.a, v.a, v'.a);
    var b, b' := Products(w.b, v.b, v'.b);
    var c, c' := Products(w.c, v.c, v'.c);
    var d, d' := Products(w.d, v.d, v'.d);
    assert Dot(v, w) == a + b + c + d;
    assert Dot(v', w) == a' + b' + c' + d';
  }

  lemma Products(w: real, x: real, y: real) returns (p: real, q: real)
    requires w >= 0.0 && x <= y
    ensures p == x * w && q == y * w && p <= q
  {
    Scaled(w, x, y);
    p, q := x * w, y * w;
  }

  lemma ConstantDot(k: real, w: Vec4)
    ensures Dot(Vec4(k, k, k, k), w) == (w.a + w.b + w.c + w.d) * k
    ensures w.a + w.b + w.c + w.d == 1.0 ==> Dot(Vec4(k, k, k, k), w) == k
  {
    var total := w.a + w.b + w.c + w.d;
    assert k * w.a + k * w.b + k * w.c + k * w.d == total * k;
  }

  lemma AverageBetween(lo: real, v: Vec4, hi: real, w: Vec4)
    requires Between(lo, v, hi) && Weights(w)
    ensures lo <= Dot(v, w) <= hi
  {
    AverageOrdered(Vec4(lo, lo, lo, lo), v, w);
    AverageOrdered(v, Vec4(hi, hi, hi, hi), w);
    ConstantDot(lo, w);
    ConstantDot(hi, w);
  }

  predicate AllBetween(lo: real, p: Matrix, hi: real) {
    Between(lo, p.r0, hi) && Between(lo, p.r1, hi) && Between(lo, p.r2, hi) && Between(lo, p.r3, hi)
  }

  /** A patch stays between its lowest and its highest control value. */
  lemma PatchStaysWithin(p: Matrix, lo: real, hi: real, s: real, t: real)
    requires AllBetween(lo, p, hi) && 0.0 <= s <= 1.0 && 0.0 <= t <= 1.0
    ensures lo <= Evaluate(Prepared(p), Powers(s), Powers(t)) <= hi
  {
    MatrixIsBernstein(p, s, t);
    BernsteinWeighs(s);
    BernsteinWeighs(t);
    var cols := Transpose(p);
    AverageBetween(lo, cols.r0, hi, Bernstein(s));
    AverageBetween(lo, cols.r1, hi, Bernstein(s));
    AverageBetween(lo, cols.r2, hi, Bernstein(s));
    AverageBetween(lo, cols.r3, hi, Bernstein(s));
    AverageBetween(lo, Apply(cols, Bernstein(s)), hi, Bernstein(t));
  }

  // ---------------------------------------------------------------------------------------
  // Cusps

  /** When the first row of control values is one value, so is the edge s = 0, and the tangent along
      that edge vanishes. */
  lemma EdgeCollapses(p: Matrix, k: real, t: real)
    requires p.r0 == Vec4(k, k, k, k)
    ensures Evaluate(Prepared(p), Powers(0.0), Powers(t)) == k
    ensures Evaluate(Prepared(p), Powers(0.0), Slopes(t)) == 0.0
  {
  }

  // ---------------------------------------------------------------------------------------
  // Corners

  /** A patch begins in its first control value. */
  lemma CornerInterpolates(p: Matrix)
    ensures Evaluate(Prepared(p), Powers(0.0), Powers(0.0)) == p.r0.a
  {
  }

  /** And its last row in the first of that row. */
  lemma LastRowInterpolates(p: Matrix)
    ensures Evaluate(Prepared(p), Powers(1.0), Powers(0.0)) == p.r3.a
  {
  }
}
