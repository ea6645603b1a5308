/**
When the nine-axis corrective step is zero: exactly when the readings exert no torque on the predicted
directions and no pull along the attitude itself.
*/
module MadgwickBalance {
  import opened SquareRoot
  import opened Quaternions
  import opened Madgwick
  import opened MadgwickGradient

  // ----- turning about the axes of the sensor

  /** The directions in which the attitude moves when the sensor turns about its own axes: q i, q j and q k. */
  function BodyX(q: Quat): Quat { Quat(-q.x, q.w, q.z, -q.y) }

  function BodyY(q: Quat): Quat { Quat(-q.y, -q.z, q.w, q.x) }

  function BodyZ(q: Quat): Quat { Quat(-q.z, q.y, -q.x, q.w) }

  /** With q they resolve a quaternion completely: the components are those of the product with the conjugate. */
  lemma Resolved(q: Quat, s: Quat, c: Quat)
    requires c == Conj(q)
    ensures MulW(c, s) == Dot(s, q) && MulX(c, s) == Dot(s, BodyX(q))
    ensures MulY(c, s) == Dot(s, BodyY(q)) && MulZ(c, s) == Dot(s, BodyZ(q))
  {
  }

  /**
  Rows of derivatives of a predicted direction v that turns with the sensor: along the attitude v leaves
  its fixed part c behind, and about each axis it changes by twice the product with that axis.
  */
  predicate Turns(q: Quat, rowX: Quat, rowY: Quat, rowZ: Quat, v: Vec, c: Vec) {
    && Slopes(rowX, rowY, rowZ, q, 2.0 * (v.x - c.x), 2.0 * (v.y - c.y), 2.0 * (v.z - c.z))
    && Slopes(rowX, rowY, rowZ, BodyX(q), 0.0, 2.0 * v.z, -2.0 * v.y)
    && Slopes(rowX, rowY, rowZ, BodyY(q), -2.0 * v.z, 0.0, 2.0 * v.x)
    && Slopes(rowX, rowY, rowZ, BodyZ(q), 2.0 * v.y, -2.0 * v.x, 0.0)
  }

  predicate Slopes(rowX: Quat, rowY: Quat, rowZ: Quat, d: Quat, x: real, y: real, z: real) {
    Dot(rowX, d) == x && Dot(rowY, d) == y && Dot(rowZ, d) == z
  }

  lemma NorthAlong(q: Quat)
    ensures Slopes(NorthXRow(q), NorthYRow(q), NorthZRow(q), q,
                   2.0 * (NorthX(q) - 0.5), 2.0 * (NorthY(q) - 0.0), 2.0 * (NorthZ(q) - 0.0))
  {
  }

  lemma NorthAboutX(q: Quat)
    ensures Slopes(NorthXRow(q), NorthYRow(q), NorthZRow(q), BodyX(q), 0.0, 2.0 * NorthZ(q), -2.0 * NorthY(q))
  {
  }

  lemma NorthAboutY(q: Quat)
    requires IsUnit(q)
    ensures Slopes(NorthXRow(q), NorthYRow(q), NorthZRow(q), BodyY(q), -2.0 * NorthZ(q), 0.0, 2.0 * NorthX(q))
  {
  }

  lemma NorthAboutZ(q: Quat)
    requires IsUnit(q)
    ensures Slopes(NorthXRow(q), NorthYRow(q), NorthZRow(q), BodyZ(q), 2.0 * NorthY(q), -2.0 * NorthX(q), 0.0)
  {
  }

  lemma DownAlong(q: Quat)
    ensures Slopes(DownXRow(q), DownYRow(q), DownZRow(q), q,
                   2.0 * (DownX(q) - 0.0), 2.0 * (DownY(q) - 0.0), 2.0 * (DownZ(q) - 0.5))
  {
  }

  lemma DownAboutX(q: Quat)
    requires IsUnit(q)
    ensures Slopes(DownXRow(q), DownYRow(q), DownZRow(q), BodyX(q), 0.0, 2.0 * DownZ(q), -2.0 * DownY(q))
  {
  }

  lemma DownAboutY(q: Quat)
    requires IsUnit(q)
    ensures Slopes(DownXRow(q), DownYRow(q), DownZRow(q), BodyY(q), -2.0 * DownZ(q), 0.0, 2.0 * DownX(q))
  {
  }

  lemma DownAboutZ(q: Quat)
    ensures Slopes(DownXRow(q), DownYRow(q), DownZRow(q), BodyZ(q), 2.0 * DownY(q), -2.0 * DownX(q), 0.0)
  {
  }

  /** The rows of the field mix those of the two axes, so its slopes do. */
  lemma MixedSlopes(q: Quat, bx: real, bz: real, d: Quat,
                    nx: real, ny: real, nz: real, dx: real, dy: real, dz: real)
    requires Slopes(NorthXRow(q), NorthYRow(q), NorthZRow(q), d, nx, ny, nz)
    requires Slopes(DownXRow(q), DownYRow(q), DownZRow(q), d, dx, dy, dz)
    ensures Slopes(FieldRowX(q, bx, bz), FieldRowY(q, bx, bz), FieldRowZ(q, bx, bz), d,
                   Mix(2.0 * bx, 2.0 * bz, nx, dx), Mix(2.0 * bx, 2.0 * bz, ny, dy), Mix(2.0 * bx, 2.0 * bz, nz, dz))
  {
    FieldRowXMix(q, bx, bz);
    FieldRowYMix(q, bx, bz);
    FieldRowZMix(q, bx, bz);
    MixDot(2.0 * bx, 2.0 * bz, NorthXRow(q), DownXRow(q), FieldRowX(q, bx, bz), d);
    MixDot(2.0 * bx, 2.0 * bz, NorthYRow(q), DownYRow(q), FieldRowY(q, bx, bz), d);
    MixDot(2.0 * bx, 2.0 * bz, NorthZRow(q), DownZRow(q), FieldRowZ(q, bx, bz), d);
  }

  lemma MixTwice(bx: real, bz: real, h: real, k: real, h0: real, k0: real)
    ensures Mix(2.0 * bx, 2.0 * bz, 2.0 * (h - h0), 2.0 * (k - k0))
         == 2.0 * (Mix(2.0 * bx, 2.0 * bz, h, k) - 2.0 * (bx * h0 + bz * k0))
    ensures Mix(2.0 * bx, 2.0 * bz, 2.0 * h, 2.0 * k) == 2.0 * Mix(2.0 * bx, 2.0 * bz, h, k)
    ensures Mix(2.0 * bx, 2.0 * bz, -2.0 * h, -2.0 * k) == -2.0 * Mix(2.0 * bx, 2.0 * bz, h, k)
    ensures Mix(2.0 * bx, 2.0 * bz, 0.0, 0.0) == 0.0
  {
  }

  /** The Earth's field is a direction that turns with the sensor, with the reference as its fixed part. */
  lemma FieldTurns(q: Quat, bx: real, bz: real)
    requires IsUnit(q)
    ensures Turns(q, FieldRowX(q, bx, bz), FieldRowY(q, bx, bz), FieldRowZ(q, bx, bz),
                  Field(q, bx, bz), Vec(bx, 0.0, bz))
  {
    var nx, ny, nz, dx, dy, dz := NorthX(q), NorthY(q), NorthZ(q), DownX(q), DownY(q), DownZ(q);
    NorthAlong(q);
    DownAlong(q);
    MixedSlopes(q, bx, bz, q, 2.0 * (nx - 0.5), 2.0 * (ny - 0.0), 2.0 * (nz - 0.0),
                2.0 * (dx - 0.0), 2.0 * (dy - 0.0), 2.0 * (dz - 0.5));
    NorthAboutX(q);
    DownAboutX(q);
    MixedSlopes(q, bx, bz, BodyX(q), 0.0, 2.0 * nz, -2.0 * ny, 0.0, 2.0 * dz, -2.0 * dy);
    NorthAboutY(q);
    DownAboutY(q);
    MixedSlopes(q, bx, bz, BodyY(q), -2.0 * nz, 0.0, 2.0 * nx, -2.0 * dz, 0.0, 2.0 * dx);
    NorthAboutZ(q);
    DownAboutZ(q);
    MixedSlopes(q, bx, bz, BodyZ(q), 2.0 * ny, -2.0 * nx, 0.0, 2.0 * dy, -2.0 * dx, 0.0);
    MixTwice(bx, bz, nx, dx, 0.5, 0.0);
    MixTwice(bx, bz, ny, dy, 0.0, 0.0);
    MixTwice(bx, bz, nz, dz, 0.0, 0.5);
  }

  /** Gravity is the field of a reference that points up. */
  lemma GravityIsField(q: Quat, a: Vec)
    ensures Field(q, 0.0, 1.0) == Gravity(q) && FieldStep(q, 0.0, 1.0, a) == GravityStep(q, a)
  {
  }

  // ----- the step resolved

  function Cross(a: Vec, b: Vec): Vec {
    Vec(a.y * b.z - a.z * b.y, a.z * b.x - a.x * b.z, a.x * b.y - a.y * b.x)
  }

  function VecAdd(a: Vec, b: Vec): Vec {
    Vec(a.x + b.x, a.y + b.y, a.z + b.z)
  }

  /** How far a reading m pulls the attitude along itself, for a predicted direction v with fixed part c. */
  function Stretch(v: Vec, m: Vec, c: Vec): real {
    VecDot(VecSub(v, m), VecSub(v, c))
  }

  /** A step against a direction that turns with the sensor is twice its pull, and minus twice the torque on it. */
  lemma StepResolved(q: Quat, rowX: Quat, rowY: Quat, rowZ: Quat, v: Vec, c: Vec, m: Vec, s: Quat)
    requires Turns(q, rowX, rowY, rowZ, v, c) && s == Transposed(rowX, rowY, rowZ, VecSub(v, m))
    ensures Dot(s, q) == 2.0 * Stretch(v, m, c)
    ensures Dot(s, BodyX(q)) == -2.0 * Cross(m, v).x
    ensures Dot(s, BodyY(q)) == -2.0 * Cross(m, v).y
    ensures Dot(s, BodyZ(q)) == -2.0 * Cross(m, v).z
  {
    var r := VecSub(v, m);
    Adjoint(rowX, rowY, rowZ, r, q);
    Adjoint(rowX, rowY, rowZ, r, BodyX(q));
    Adjoint(rowX, rowY, rowZ, r, BodyY(q));
    Adjoint(rowX, rowY, rowZ, r, BodyZ(q));
    Pull(r, VecSub(v, c));
    Torques(v, m, r);
  }

  lemma Pull(r: Vec, w: Vec)
    ensures VecDot(r, Vec(2.0 * w.x, 2.0 * w.y, 2.0 * w.z)) == 2.0 * VecDot(r, w)
  {
  }

  lemma Torques(v: Vec, m: Vec, r: Vec)
    requires r == VecSub(v, m)
    ensures VecDot(r, Vec(0.0, 2.0 * v.z, -2.0 * v.y)) == -2.0 * Cross(m, v).x
    ensures VecDot(r, Vec(-2.0 * v.z, 0.0, 2.0 * v.x)) == -2.0 * Cross(m, v).y
    ensures VecDot(r, Vec(2.0 * v.y, -2.0 * v.x, 0.0)) == -2.0 * Cross(m, v).z
  {
    Times(r.x, v.x - m.x, v.y);
    Times(r.x, v.x - m.x, v.z);
    Times(r.y, v.y - m.y, v.x);
    Times(r.y, v.y - m.y, v.z);
    Times(r.z, v.z - m.z, v.x);
    Times(r.z, v.z - m.z, v.y);
  }

  // ----- when it vanishes

  const UP := Vec(0.0, 0.0, 1.0)

  /** Two torques and two stretches cancel. */
  predicate Cancel(t: Vec, u: Vec, p: real, r: real) {
    VecAdd(t, u) == ZERO_VEC && p + r == 0.0
  }

  /** The readings a and m exert no net torque on the predicted gravity and field, and no net stretch. */
  predicate AtRest(q: Quat, a: Vec, m: Vec, bx: real, bz: real) {
    Cancels(a, Gravity(q), UP, m, Field(q, bx, bz), Vec(bx, 0.0, bz))
  }

  predicate Cancels(a: Vec, g: Vec, up: Vec, m: Vec, b: Vec, reference: Vec) {
    Cancel(Cross(a, g), Cross(m, b), Stretch(g, a, up), Stretch(b, m, reference))
  }

  /** The readings balance at the attitude: no net torque, no net stretch. */
  predicate Balanced(sqrtf: real -> real, q: Quat, a: Vec, m: Vec) {
    BalancedAgainst(sqrtf, q, a, m, EarthFrame(q, m))
  }

  predicate BalancedAgainst(sqrtf: real -> real, q: Quat, a: Vec, m: Vec, h: Quat) {
    AtRest(q, a, m, Horizontal(sqrtf, h.x, h.y), h.z)
  }

  /** A unit attitude and its body directions leave no room for another: the step is zero if its four parts are. */
  lemma PartsVanish(q: Quat, s: Quat)
    requires IsUnit(q)
    ensures Norm2(s) == 0.0
       <==> Dot(s, q) == 0.0 && Dot(s, BodyX(q)) == 0.0 && Dot(s, BodyY(q)) == 0.0 && Dot(s, BodyZ(q)) == 0.0
  {
    var c := Conj(q);
    Resolved(q, s, c);
    ConjNorm(q);
    UnitPreservesNorm(c, s);
    ZeroNorm(Mul(c, s), MulW(c, s), MulX(c, s), MulY(c, s), MulZ(c, s));
  }

  lemma ZeroNorm(p: Quat, w: real, x: real, y: real, z: real)
    requires p == Quat(w, x, y, z)
    ensures Norm2(p) == 0.0 <==> w == 0.0 && x == 0.0 && y == 0.0 && z == 0.0
  {
    Norm2Sign(p);
  }

  lemma StepVanishesAtRest(q: Quat, a: Vec, m: Vec, bx: real, bz: real, s: Quat)
    requires IsUnit(q) && s == Add(GravityStep(q, a), FieldStep(q, bx, bz, m))
    ensures Norm2(s) == 0.0 <==> AtRest(q, a, m, bx, bz)
  {
    var gs, fs := GravityStep(q, a), FieldStep(q, bx, bz, m);
    GravityResolved(q, a, gs);
    FieldResolved(q, bx, bz, m, fs);
    DotSum(gs, fs, q);
    DotSum(gs, fs, BodyX(q));
    DotSum(gs, fs, BodyY(q));
    DotSum(gs, fs, BodyZ(q));
    PartsVanish(q, s);
  }

  lemma FieldResolved(q: Quat, bx: real, bz: real, m: Vec, s: Quat)
    requires IsUnit(q) && s == FieldStep(q, bx, bz, m)
    ensures Dot(s, q) == 2.0 * Stretch(Field(q, bx, bz), m, Vec(bx, 0.0, bz))
    ensures Dot(s, BodyX(q)) == -2.0 * Cross(m, Field(q, bx, bz)).x
    ensures Dot(s, BodyY(q)) == -2.0 * Cross(m, Field(q, bx, bz)).y
    ensures Dot(s, BodyZ(q)) == -2.0 * Cross(m, Field(q, bx, bz)).z
  {
    FieldTurns(q, bx, bz);
    StepResolved(q, FieldRowX(q, bx, bz), FieldRowY(q, bx, bz), FieldRowZ(q, bx, bz),
                 Field(q, bx, bz), Vec(bx, 0.0, bz), m, s);
  }

  lemma GravityResolved(q: Quat, a: Vec, s: Quat)
    requires IsUnit(q) && s == GravityStep(q, a)
    ensures Dot(s, q) == 2.0 * Stretch(Gravity(q), a, UP)
    ensures Dot(s, BodyX(q)) == -2.0 * Cross(a, Gravity(q)).x
    ensures Dot(s, BodyY(q)) == -2.0 * Cross(a, Gravity(q)).y
    ensures Dot(s, BodyZ(q)) == -2.0 * Cross(a, Gravity(q)).z
  {
    GravityIsField(q, a);
    FieldResolved(q, 0.0, 1.0, a, s);
  }

  /** The field the attitude predicts against the reference found from the reading. */
  function ExpectedField(sqrtf: real -> real, q: Quat, m: Vec): Vec {
    var h := EarthFrame(q, m);
    Field(q, Horizontal(sqrtf, h.x, h.y), h.z)
  }

  /** Two readings that are both exactly the predicted ones balance. */
  lemma ExactReadingsBalance(q: Quat, a: Vec, m: Vec, bx: real, bz: real)
    requires a == Gravity(q) && m == Field(q, bx, bz)
    ensures AtRest(q, a, m, bx, bz)
  {
    ExactReadingsCancel(a, UP, m, Vec(bx, 0.0, bz));
  }

  lemma ExactReadingsCancel(a: Vec, up: Vec, m: Vec, reference: Vec)
    ensures Cancels(a, a, up, m, m, reference)
  {
    OwnCross(a);
    OwnCross(m);
    OwnStretch(a, up);
    OwnStretch(m, reference);
  }

  lemma OwnCross(v: Vec)
    ensures Cross(v, v) == ZERO_VEC
  {
  }

  lemma OwnStretch(v: Vec, c: Vec)
    ensures Stretch(v, v, c) == 0.0
  {
    assert VecSub(v, v) == ZERO_VEC;
  }

  /**
  For a unit attitude the nine-axis step is zero if and only if the readings balance; they do, in particular,
  when both are exactly the predicted ones.
  */
  lemma NineAxisStepVanishes(sqrtf: real -> real, q: Quat, a: Vec, m: Vec)
    requires IsSqrt(sqrtf) && IsUnit(q)
    ensures Norm2(NineAxisStep(sqrtf, q, a, m)) == 0.0 <==> Balanced(sqrtf, q, a, m)
    ensures a == Gravity(q) && m == ExpectedField(sqrtf, q, m) ==> Balanced(sqrtf, q, a, m)
  {
    var h := EarthFrame(q, m);
    var bx := Horizontal(sqrtf, h.x, h.y);
    StepVanishesAtRest(q, a, m, bx, h.z, NineAxisStep(sqrtf, q, a, m));
    if a == Gravity(q) && m == Field(q, bx, h.z) {
      ExactReadingsBalance(q, a, m, bx, h.z);
    }
  }
}
