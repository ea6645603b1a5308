/** The Earth's magnetic field as the nine-axis filter reconstructs it. */
module MadgwickField {
  import opened SquareRoot
  import opened Quaternions
  import opened Madgwick
  import opened MadgwickSymmetry

  function Product3(a: real, b: real, c: real): real { a * b * c }

  /** Turning into the Earth frame scales lengths by |q|^2: hx^2 + hy^2 + hz^2 == |q|^4 |m|^2. */
  lemma EarthFrameNorm(q: Quat, m: Vec)
    ensures var h := EarthFrame(q, m);
            h.w == 0.0 && VecNorm2(Vec(h.x, h.y, h.z)) == Product3(Norm2(q), Norm2(q), VecNorm2(m))
  {
    EarthFrameExpanded(q, m);
    NormMultiplicative(Mul(q, Pure(m)), Conj(q));
    NormMultiplicative(q, Pure(m));
    ConjNorm(q);
    PureNorm(m);
    var h := EarthFrame(q, m);
    PureNorm(Vec(h.x, h.y, h.z));
    assert h == Pure(Vec(h.x, h.y, h.z));
    Regroup(Norm2(h), Norm2(Mul(q, Pure(m))), Norm2(q), VecNorm2(m));
  }

  lemma Regroup(n: real, t: real, a: real, b: real)
    requires n == t * a && t == a * b
    ensures n == Product3(a, a, b)
  {
  }

  /** For a unit attitude and a normalised reading the reference (bx, 0, bz) is a unit vector. */
  lemma ReferenceIsUnit(sqrtf: real -> real, q: Quat, m: Vec)
    requires IsSqrt(sqrtf) && IsUnit(q) && VecNorm2(m) == 1.0
    ensures var h := EarthFrame(q, m);
            var bx := Horizontal(sqrtf, h.x, h.y);
            0.0 <= bx && bx * bx + h.z * h.z == 1.0
  {
    EarthFrameNorm(q, m);
    var h := EarthFrame(q, m);
    HorizontalSquared(sqrtf, h.x, h.y);
    UnitProduct(Norm2(q), VecNorm2(m), VecNorm2(Vec(h.x, h.y, h.z)));
  }

  lemma UnitProduct(a: real, b: real, n: real)
    requires a == 1.0 && b == 1.0 && n == Product3(a, a, b)
    ensures n == 1.0
  {
  }

  lemma HorizontalSquared(sqrtf: real -> real, hx: real, hy: real)
    requires IsSqrt(sqrtf)
    ensures 0.0 <= Horizontal(sqrtf, hx, hy)
    ensures Horizontal(sqrtf, hx, hy) * Horizontal(sqrtf, hx, hy) == hx * hx + hy * hy
  {
    SquareSign(hx);
    SquareSign(hy);
    assert IsRoot(sqrtf, hx * hx + hy * hy);
  }

  // ----- the reference does not depend on the heading

  lemma ConjOfProduct(p: Quat, q: Quat)
    ensures Conj(Mul(p, q)) == Mul(Conj(q), Conj(p))
  {
  }

  /** The Earth frame of a turned attitude is the turned Earth frame. */
  lemma EarthFrameTurns(p: Quat, q: Quat, m: Vec)
    ensures EarthFrame(Mul(p, q), m) == Mul(p, Mul(EarthFrame(q, m), Conj(p)))
  {
    var t := Mul(q, Pure(m));
    MulAssociative(p, q, Pure(m));
    ConjOfProduct(p, q);
    MulAssociative(p, t, Mul(Conj(q), Conj(p)));
    MulAssociative(t, Conj(q), Conj(p));
  }

  /** A rotation about the vertical keeps the vertical component. */
  lemma YawKeepsVertical(c: real, s: real, h: Quat, k: Quat)
    requires c * c + s * s == 1.0 && h.w == 0.0 && k == Mul(h, Conj(Yaw(c, s)))
    ensures MulZ(Yaw(c, s), k) == h.z
  {
  }

  /** The pair (bx, bz) is the same for every heading. */
  lemma ReferenceIgnoresHeading(sqrtf: real -> real, c: real, s: real, q: Quat, m: Vec)
    requires IsSqrt(sqrtf) && c * c + s * s == 1.0
    ensures var h, h' := EarthFrame(q, m), EarthFrame(Mul(Yaw(c, s), q), m);
            h'.z == h.z && Horizontal(sqrtf, h'.x, h'.y) == Horizontal(sqrtf, h.x, h.y)
  {
    var p := Yaw(c, s);
    var h, h' := EarthFrame(q, m), EarthFrame(Mul(p, q), m);
    EarthFrameTurns(p, q, m);
    EarthFrameNorm(q, m);
    EarthFrameNorm(Mul(p, q), m);
    YawKeepsVertical(c, s, h, Mul(h, Conj(p)));
    YawIsUnit(c, s);
    UnitPreservesNorm(p, q);
    SameHorizontal(Vec(h.x, h.y, h.z), Vec(h'.x, h'.y, h'.z));
    SameRoot(sqrtf, h.x, h.y, h'.x, h'.y);
  }

  lemma SameHorizontal(v: Vec, v': Vec)
    requires VecNorm2(v) == VecNorm2(v') && v.z == v'.z
    ensures v'.x * v'.x + v'.y * v'.y == v.x * v.x + v.y * v.y
  {
  }

  lemma SameRoot(sqrtf: real -> real, x: real, y: real, x': real, y': real)
    requires x' * x' + y' * y' == x * x + y * y
    ensures Horizontal(sqrtf, x', y') == Horizontal(sqrtf, x, y)
  {
  }
}
