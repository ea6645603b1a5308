/** Quaternions and vectors over the reals: the algebra the orientation filter is stated in. */
module Quaternions {
  import SquareRoot

  datatype Quat = Quat(w: real, x: real, y: real, z: real)

  datatype Vec = Vec(x: real, y: real, z: real)

  const ZERO_VEC := Vec(0.0, 0.0, 0.0)

  function Add(p: Quat, q: Quat): Quat {
    Quat(p.w + q.w, p.x + q.x, p.y + q.y, p.z + q.z)
  }

  function Scale(k: real, q: Quat): Quat {
    Quat(k * q.w, k * q.x, k * q.y, k * q.z)
  }

  function Dot(p: Quat, q: Quat): real {
    p.w * q.w + p.x * q.x + p.y * q.y + p.z * q.z
  }

  /** The squared norm. */
  function Norm2(q: Quat): real {
    Dot(q, q)
  }

  predicate IsUnit(q: Quat) {
    Norm2(q) == 1.0
  }

  /** The Hamilton product, one function per component. */
  function Mul(p: Quat, q: Quat): Quat {
    Quat(MulW(p, q), MulX(p, q), MulY(p, q), MulZ(p, q))
  }

  function MulW(p: Quat, q: Quat): real {
    p.w * q.w - p.x * q.x - p.y * q.y - p.z * q.z
  }

  function MulX(p: Quat, q: Quat): real {
    p.w * q.x + p.x * q.w + p.y * q.z - p.z * q.y
  }

  function MulY(p: Quat, q: Quat): real {
    p.w * q.y - p.x * q.z + p.y * q.w + p.z * q.x
  }

  function MulZ(p: Quat, q: Quat): real {
    p.w * q.z + p.x * q.y - p.y * q.x + p.z * q.w
  }

  function Conj(q: Quat): Quat {
    Quat(q.w, -q.x, -q.y, -q.z)
  }

  function Pure(v: Vec): Quat {
    Quat(0.0, v.x, v.y, v.z)
  }

  function VecScale(k: real, v: Vec): Vec {
    Vec(k * v.x, k * v.y, k * v.z)
  }

  function VecNorm2(v: Vec): real {
    v.x * v.x + v.y * v.y + v.z * v.z
  }

  /** A rotation about the vertical axis. */
  function Yaw(c: real, s: real): Quat {
    Quat(c, 0.0, 0.0, s)
  }

  // ----- squared norms

  lemma SquareSign(a: real)
    ensures 0.0 <= a * a
    ensures a * a == 0.0 ==> a == 0.0
  {
    Square(a, a, a * a);
  }

  lemma Square(a: real, b: real, c: real)
    requires a == b && c == a * b
    ensures 0.0 <= c
    ensures c == 0.0 ==> a == 0.0
  {
    if 0.0 < a {
      SquareRoot.ProductPositive(a, b, c);
    } else if a < 0.0 {
      SquareRoot.ProductPositive(-a, -b, c);
    }
  }

  lemma Norm2Sign(q: Quat)
    ensures 0.0 <= Norm2(q)
    ensures Norm2(q) == 0.0 <==> q == Quat(0.0, 0.0, 0.0, 0.0)
  {
    SquareSign(q.w);
    SquareSign(q.x);
    SquareSign(q.y);
    SquareSign(q.z);
  }

  lemma VecNorm2Sign(v: Vec)
    ensures 0.0 <= VecNorm2(v)
    ensures VecNorm2(v) == 0.0 <==> v == ZERO_VEC
  {
    SquareSign(v.x);
    SquareSign(v.y);
    SquareSign(v.z);
  }

  lemma PureNorm(v: Vec)
    ensures Norm2(Pure(v)) == VecNorm2(v)
  {
  }

  lemma ConjNorm(q: Quat)
    ensures Norm2(Conj(q)) == Norm2(q)
  {
  }

  lemma Norm2Scale(k: real, q: Quat)
    ensures Norm2(Scale(k, q)) == k * k * Norm2(q)
  {
  }

  lemma VecNorm2Scale(k: real, v: Vec)
    ensures VecNorm2(VecScale(k, v)) == k * k * VecNorm2(v)
  {
  }

  /** |p + k q|^2 in terms of |p|^2, k, p . q and |q|^2. */
  function SumNorm2(p2: real, k: real, pq: real, q2: real): real {
    p2 + 2.0 * k * pq + k * k * q2
  }

  lemma Norm2Sum(p: Quat, k: real, q: Quat)
    ensures Norm2(Add(p, Scale(k, q))) == SumNorm2(Norm2(p), k, Dot(p, q), Norm2(q))
  {
  }

  predicate SquareAtMost(d: real, bound: real) {
    d * d <= bound
  }

  /** Cauchy-Schwarz against a unit quaternion. */
  lemma CauchySchwarzUnit(p: Quat, u: Quat)
    requires IsUnit(u)
    ensures SquareAtMost(Dot(p, u), Norm2(p))
  {
    var k := Dot(p, u);
    Norm2Sum(p, -k, u);
    Norm2Sign(Add(p, Scale(-k, u)));
    Residue(Norm2(p), k, Norm2(u), Norm2(Add(p, Scale(-k, u))));
  }

  lemma Residue(n: real, k: real, one: real, r: real)
    requires one == 1.0 && 0.0 <= r && r == SumNorm2(n, -k, k, one)
    ensures SquareAtMost(k, n)
  {
  }

  // ----- products

  lemma MulAssociative(p: Quat, q: Quat, r: Quat)
    ensures Mul(Mul(p, q), r) == Mul(p, Mul(q, r))
  {
    var t, u := Mul(p, q), Mul(q, r);
    MulAssociativeW(p, q, r, t, u);
    MulAssociativeX(p, q, r, t, u);
    MulAssociativeY(p, q, r, t, u);
    MulAssociativeZ(p, q, r, t, u);
  }

  lemma MulAssociativeW(p: Quat, q: Quat, r: Quat, t: Quat, u: Quat)
    requires t == Mul(p, q) && u == Mul(q, r)
    ensures MulW(t, r) == MulW(p, u)
  {
    AssociativeReal(p.w, p.x, p.y, p.z, q.w, q.x, q.y, q.z, r.w, r.x, r.y, r.z, t.w, t.x, t.y, t.z, u.w, u.x, u.y, u.z);
  }

  lemma MulAssociativeX(p: Quat, q: Quat, r: Quat, t: Quat, u: Quat)
    requires t == Mul(p, q) && u == Mul(q, r)
    ensures MulX(t, r) == MulX(p, u)
  {
    AssociativeImaginary(p.w, p.x, p.y, p.z, q.w, q.x, q.y, q.z, r.w, r.x, r.y, r.z,
                         t.w, t.x, t.y, t.z, u.w, u.x, u.y, u.z);
  }

  lemma MulAssociativeY(p: Quat, q: Quat, r: Quat, t: Quat, u: Quat)
    requires t == Mul(p, q) && u == Mul(q, r)
    ensures MulY(t, r) == MulY(p, u)
  {
    AssociativeImaginary(p.w, p.y, p.z, p.x, q.w, q.y, q.z, q.x, r.w, r.y, r.z, r.x,
                         t.w, t.y, t.z, t.x, u.w, u.y, u.z, u.x);
  }

  lemma MulAssociativeZ(p: Quat, q: Quat, r: Quat, t: Quat, u: Quat)
    requires t == Mul(p, q) && u == Mul(q, r)
    ensures MulZ(t, r) == MulZ(p, u)
  {
    AssociativeImaginary(p.w, p.z, p.x, p.y, q.w, q.z, q.x, q.y, r.w, r.z, r.x, r.y,
                         t.w, t.z, t.x, t.y, u.w, u.z, u.x, u.y);
  }

  lemma AssociativeReal(a: real, b: real, c: real, d: real, e: real, f: real, g: real, h: real,
                     p: real, q: real, r: real, s: real,
                     t: real, u: real, v: real, w: real, t': real, u': real, v': real, w': real)
    requires t == a * e - b * f - c * g - d * h && u == a * f + b * e + c * h - d * g
    requires v == a * g - b * h + c * e + d * f && w == a * h + b * g - c * f + d * e
    requires t' == e * p - f * q - g * r - h * s && u' == e * q + f * p + g * s - h * r
    requires v' == e * r - f * s + g * p + h * q && w' == e * s + f * r - g * q + h * p
    ensures t * p - u * q - v * r - w * s == a * t' - b * u' - c * v' - d * w'
  {
  }

  lemma AssociativeImaginary(a: real, b: real, c: real, d: real, e: real, f: real, g: real, h: real,
                     p: real, q: real, r: real, s: real,
                     t: real, u: real, v: real, w: real, t': real, u': real, v': real, w': real)
    requires t == a * e - b * f - c * g - d * h && u == a * f + b * e + c * h - d * g
    requires v == a * g - b * h + c * e + d * f && w == a * h + b * g - c * f + d * e
    requires t' == e * p - f * q - g * r - h * s && u' == e * q + f * p + g * s - h * r
    requires v' == e * r - f * s + g * p + h * q && w' == e * s + f * r - g * q + h * p
    ensures t * q + u * p + v * s - w * r == a * u' + b * t' + c * w' - d * v'
  {
  }

  lemma NormMultiplicative(p: Quat, q: Quat)
    ensures Norm2(Mul(p, q)) == Norm2(p) * Norm2(q)
  {
    FourSquares(p.w, p.x, p.y, p.z, q.w, q.x, q.y, q.z, MulW(p, q), MulX(p, q), MulY(p, q), MulZ(p, q));
  }

  /** Euler's four-square identity. */
  lemma FourSquares(a: real, b: real, c: real, d: real, e: real, f: real, g: real, h: real,
                    t: real, u: real, v: real, w: real)
    requires t == a * e - b * f - c * g - d * h && u == a * f + b * e + c * h - d * g
    requires v == a * g - b * h + c * e + d * f && w == a * h + b * g - c * f + d * e
    ensures t * t + u * u + v * v + w * w == (a * a + b * b + c * c + d * d) * (e * e + f * f + g * g + h * h)
  {
  }

  /** Multiplying by a unit quaternion keeps the norm. */
  lemma UnitPreservesNorm(p: Quat, q: Quat)
    requires IsUnit(p)
    ensures Norm2(Mul(p, q)) == Norm2(q)
  {
    NormMultiplicative(p, q);
    UnitFactor(Norm2(p), Norm2(q), Norm2(Mul(p, q)));
  }

  lemma UnitFactor(one: real, n: real, product: real)
    requires one == 1.0 && product == one * n
    ensures product == n
  {
  }

  /** Left multiplication is linear. */
  lemma MulDistributes(p: Quat, a: Quat, k: real, b: Quat)
    ensures Mul(p, Add(a, Scale(k, b))) == Add(Mul(p, a), Scale(k, Mul(p, b)))
  {
    var s := Add(a, Scale(k, b));
    MulDistributesW(p, a, k, b, s);
    MulDistributesX(p, a, k, b, s);
    MulDistributesY(p, a, k, b, s);
    MulDistributesZ(p, a, k, b, s);
  }

  lemma MulDistributesW(p: Quat, a: Quat, k: real, b: Quat, s: Quat)
    requires s == Add(a, Scale(k, b))
    ensures MulW(p, s) == MulW(p, a) + k * MulW(p, b)
  {
  }

  lemma MulDistributesX(p: Quat, a: Quat, k: real, b: Quat, s: Quat)
    requires s == Add(a, Scale(k, b))
    ensures MulX(p, s) == MulX(p, a) + k * MulX(p, b)
  {
  }

  lemma MulDistributesY(p: Quat, a: Quat, k: real, b: Quat, s: Quat)
    requires s == Add(a, Scale(k, b))
    ensures MulY(p, s) == MulY(p, a) + k * MulY(p, b)
  {
  }

  lemma MulDistributesZ(p: Quat, a: Quat, k: real, b: Quat, s: Quat)
    requires s == Add(a, Scale(k, b))
    ensures MulZ(p, s) == MulZ(p, a) + k * MulZ(p, b)
  {
  }

  lemma MulScales(p: Quat, k: real, b: Quat)
    ensures Mul(p, Scale(k, b)) == Scale(k, Mul(p, b))
  {
    var zero := Quat(0.0, 0.0, 0.0, 0.0);
    assert Mul(p, zero) == zero;
    MulDistributes(p, zero, k, b);
    assert Add(zero, Scale(k, b)) == Scale(k, b);
  }
}
