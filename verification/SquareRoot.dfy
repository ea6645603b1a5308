/**
The C library square root, over the real numbers. The filter is proved for every function that
behaves as a square root, so the library routine is a parameter and nothing about it is built in.
*/
module SquareRoot {

  ghost predicate IsRoot(sqrtf: real -> real, x: real) {
    0.0 <= sqrtf(x) && sqrtf(x) * sqrtf(x) == x
  }

  /** `sqrtf` returns the non-negative square root of every non-negative argument. */
  ghost predicate IsSqrt(sqrtf: real -> real) {
    forall x: real {:trigger IsRoot(sqrtf, x)} :: 0.0 <= x ==> IsRoot(sqrtf, x)
  }

  /** The reciprocal square root of the source, 1 / sqrtf(x). */
  function InvSqrt(sqrtf: real -> real, x: real): real
    requires IsSqrt(sqrtf) && 0.0 < x
  {
    InvSqrtDefined(sqrtf, x);
    1.0 / sqrtf(x)
  }

  lemma InvSqrtDefined(sqrtf: real -> real, x: real)
    requires IsSqrt(sqrtf) && 0.0 < x
    ensures sqrtf(x) != 0.0
  {
    assert IsRoot(sqrtf, x);
  }

  /** It is the positive r with r * r * x == 1. */
  lemma InvSqrtSquared(sqrtf: real -> real, x: real)
    requires IsSqrt(sqrtf) && 0.0 < x
    ensures 0.0 < InvSqrt(sqrtf, x)
    ensures InvSqrt(sqrtf, x) * InvSqrt(sqrtf, x) * x == 1.0
  {
    assert IsRoot(sqrtf, x);
    ReciprocalSquares(sqrtf(x), x);
  }

  lemma ReciprocalSquares(root: real, x: real)
    requires 0.0 < x && 0.0 <= root && root * root == x
    ensures 0.0 < root
    ensures 0.0 < 1.0 / root && (1.0 / root) * (1.0 / root) * x == 1.0
  {
  }

  /** Two positive reals with the same square are equal, so a reciprocal square root is unique. */
  lemma SquaresDetermine(a: real, b: real)
    requires 0.0 <= a && 0.0 <= b && a * a == b * b
    ensures a == b
  {
    if a < b {
      StrictlySmallerSquare(a, b);
    } else if b < a {
      StrictlySmallerSquare(b, a);
    }
  }

  lemma StrictlySmallerSquare(a: real, b: real)
    requires 0.0 <= a < b
    ensures a * a < b * b
  {
    assert a * (b - a) >= 0.0;
    assert (b - a) * b > 0.0;
  }

  lemma InvSqrtUnique(sqrtf: real -> real, x: real, r: real)
    requires IsSqrt(sqrtf) && 0.0 < x
    requires 0.0 < r && r * r * x == 1.0
    ensures InvSqrt(sqrtf, x) == r
  {
    var i := InvSqrt(sqrtf, x);
    InvSqrtSquared(sqrtf, x);
    assert (i * i - r * r) * x == 0.0;
    SquaresDetermine(i, r);
  }

  /** Scaling the argument by a square scales the reciprocal square root by the reciprocal factor. */
  lemma InvSqrtScales(sqrtf: real -> real, k: real, x: real, y: real)
    requires IsSqrt(sqrtf) && 0.0 < k && 0.0 < x && y == k * k * x
    ensures 0.0 < y && InvSqrt(sqrtf, y) * k == InvSqrt(sqrtf, x)
  {
    var square := k * k;
    ProductPositive(k, k, square);
    ProductPositive(square, x, y);
    var r := InvSqrt(sqrtf, y);
    InvSqrtSquared(sqrtf, y);
    ProductPositive(r, k, r * k);
    Regroup(r, k, x, y);
    InvSqrtUnique(sqrtf, x, r * k);
  }

  lemma ProductPositive(a: real, b: real, product: real)
    requires 0.0 < a && 0.0 < b && product == a * b
    ensures 0.0 < product
  {
  }

  lemma Regroup(r: real, k: real, x: real, y: real)
    requires y == k * k * x
    ensures (r * k) * (r * k) * x == r * r * y
  {
  }
}
