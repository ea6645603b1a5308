/**
When the six-axis corrective step is zero. The source divides by the norm of the step without a test,
so this is exactly when the filter state stops being a number.
*/
module MadgwickVanishing {
  import opened Quaternions
  import opened Madgwick
  import opened MadgwickGradient

  /** Three directions, orthogonal to each other, that pick the residuals out of the step. */
  function FrameX(q: Quat): Quat { Quat(-q.y, q.z, -q.w, q.x) }

  function FrameY(q: Quat): Quat { Quat(q.x, q.w, q.z, q.y) }

  function FrameZ(q: Quat): Quat { Quat(q.w, -q.x, -q.y, q.z) }

  /** The inner products of the Jacobian rows with the frame, for a unit attitude. */
  lemma RowsInFrame(q: Quat)
    requires IsUnit(q)
    ensures Dot(GravityRowX(q), FrameX(q)) == 2.0 && Dot(GravityRowY(q), FrameX(q)) == 0.0
    ensures Dot(GravityRowX(q), FrameY(q)) == 0.0 && Dot(GravityRowY(q), FrameY(q)) == 2.0
    ensures Dot(GravityRowX(q), FrameZ(q)) == 0.0 && Dot(GravityRowY(q), FrameZ(q)) == 0.0
    ensures Dot(GravityRowZ(q), FrameX(q)) == -2.0 * GravityX(q)
    ensures Dot(GravityRowZ(q), FrameY(q)) == -2.0 * GravityY(q)
    ensures Dot(GravityRowZ(q), FrameZ(q)) == 2.0 * (1.0 - GravityZ(q))
  {
  }

  /**
  The step vanishes exactly when the measured gravity is the predicted one, or when the attitude is
  level and the measurement is vertical (upside down included).
  */
  lemma GravityStepVanishes(q: Quat, a: Vec)
    requires IsUnit(q)
    ensures Norm2(GravityStep(q, a)) == 0.0 <==> Degenerate(q, a)
  {
    Norm2Sign(GravityStep(q, a));
    if GravityStep(q, a) == ZERO {
      VanishingIsDegenerate(q, a);
    }
    if Degenerate(q, a) {
      DegenerateVanishes(q, a);
    }
  }

  const ZERO := Quat(0.0, 0.0, 0.0, 0.0)

  predicate Degenerate(q: Quat, a: Vec) {
    a == Gravity(q) || (q.x == 0.0 && q.y == 0.0 && a.x == 0.0 && a.y == 0.0)
  }

  lemma VanishingIsDegenerate(q: Quat, a: Vec)
    requires IsUnit(q) && GravityStep(q, a) == ZERO
    ensures Degenerate(q, a)
  {
    VanishingResidual(q, a);
    Level(q);
    Cases(GravityX(q), GravityY(q), GravityZ(q), a);
  }

  lemma Cases(gx: real, gy: real, gz: real, a: Vec)
    requires gx - a.x == (gz - a.z) * gx && gy - a.y == (gz - a.z) * gy
    requires gz == a.z || (gx == 0.0 && gy == 0.0)
    ensures a == Vec(gx, gy, gz) || (a.x == 0.0 && a.y == 0.0)
  {
  }

  lemma DegenerateVanishes(q: Quat, a: Vec)
    requires Degenerate(q, a)
    ensures GravityStep(q, a) == ZERO
  {
  }

  lemma VanishingResidual(q: Quat, a: Vec)
    requires IsUnit(q) && GravityStep(q, a) == Quat(0.0, 0.0, 0.0, 0.0)
    ensures GravityX(q) - a.x == (GravityZ(q) - a.z) * GravityX(q)
    ensures GravityY(q) - a.y == (GravityZ(q) - a.z) * GravityY(q)
    ensures GravityZ(q) == a.z || GravityZ(q) == 1.0
  {
    var r := VecSub(Gravity(q), a);
    RowsInFrame(q);
    Adjoint(GravityRowX(q), GravityRowY(q), GravityRowZ(q), r, FrameX(q));
    Adjoint(GravityRowX(q), GravityRowY(q), GravityRowZ(q), r, FrameY(q));
    Adjoint(GravityRowX(q), GravityRowY(q), GravityRowZ(q), r, FrameZ(q));
  }

  lemma Level(q: Quat)
    ensures GravityZ(q) == 1.0 ==> q.x == 0.0 && q.y == 0.0 && GravityX(q) == 0.0 && GravityY(q) == 0.0
  {
    SquareSign(q.x);
    SquareSign(q.y);
  }
}
