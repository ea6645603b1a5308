/**
Madgwick's orientation filter (apps/rover_controller/src/algo/MadgwickAHRS.c) over the reals.

The first half is the specification: the gyroscope rate as a quaternion product, the corrective step
as a transposed Jacobian applied to a residual, and one update of the estimate. The second half is the
filter object, whose methods carry out the hand-expanded arithmetic of the source and are proved to
compute the specification.
*/
module Madgwick {
  import opened SquareRoot
  import opened Quaternions

  /** The filter gain and the sampling frequency in Hz. */
  datatype Gains = Gains(beta: real, sampleFreq: real) {
    predicate Valid() {
      0.0 < beta < sampleFreq
    }
  }

  const IDENTITY := Quat(1.0, 0.0, 0.0, 0.0)

  /** One reading of the three sensors. */
  datatype Sample = Sample(gyro: Vec, accel: Vec, mag: Vec)

  /** The filter state. A division by a zero norm turns all four components into NaN, for good. */
  datatype Estimate = Attitude(q: Quat) | NotANumber

  // ----- Earth-frame directions seen from the sensor frame

  function GravityX(q: Quat): real { 2.0 * (q.x * q.z - q.w * q.y) }

  function GravityY(q: Quat): real { 2.0 * (q.w * q.x + q.y * q.z) }

  function GravityZ(q: Quat): real { 1.0 - 2.0 * (q.x * q.x + q.y * q.y) }

  /** The direction of gravity the attitude predicts. */
  function Gravity(q: Quat): Vec {
    Vec(GravityX(q), GravityY(q), GravityZ(q))
  }

  // Half the direction cosines of the Earth's horizontal and vertical axis.

  function NorthX(q: Quat): real { 0.5 - q.y * q.y - q.z * q.z }

  function NorthY(q: Quat): real { q.x * q.y - q.w * q.z }

  function NorthZ(q: Quat): real { q.w * q.y + q.x * q.z }

  function DownX(q: Quat): real { q.x * q.z - q.w * q.y }

  function DownY(q: Quat): real { q.w * q.x + q.y * q.z }

  function DownZ(q: Quat): real { 0.5 - q.x * q.x - q.y * q.y }

  function Mix(b: real, c: real, h: real, k: real): real { b * h + c * k }

  function FieldX(q: Quat, bx: real, bz: real): real { Mix(2.0 * bx, 2.0 * bz, NorthX(q), DownX(q)) }

  function FieldY(q: Quat, bx: real, bz: real): real { Mix(2.0 * bx, 2.0 * bz, NorthY(q), DownY(q)) }

  function FieldZ(q: Quat, bx: real, bz: real): real { Mix(2.0 * bx, 2.0 * bz, NorthZ(q), DownZ(q)) }

  /** The direction of the Earth's field (bx, 0, bz) the attitude predicts. */
  function Field(q: Quat, bx: real, bz: real): Vec {
    Vec(FieldX(q, bx, bz), FieldY(q, bx, bz), FieldZ(q, bx, bz))
  }

  // ----- Jacobian rows of those directions

  function GravityRowX(q: Quat): Quat { Quat(-2.0 * q.y, 2.0 * q.z, -2.0 * q.w, 2.0 * q.x) }

  function GravityRowY(q: Quat): Quat { Quat(2.0 * q.x, 2.0 * q.w, 2.0 * q.z, 2.0 * q.y) }

  function GravityRowZ(q: Quat): Quat { Quat(0.0, -4.0 * q.x, -4.0 * q.y, 0.0) }

  function FieldRowX(q: Quat, bx: real, bz: real): Quat {
    Quat(-2.0 * bz * q.y, 2.0 * bz * q.z, -4.0 * bx * q.y - 2.0 * bz * q.w, -4.0 * bx * q.z + 2.0 * bz * q.x)
  }

  function FieldRowY(q: Quat, bx: real, bz: real): Quat {
    Quat(-2.0 * bx * q.z + 2.0 * bz * q.x, 2.0 * bx * q.y + 2.0 * bz * q.w,
         2.0 * bx * q.x + 2.0 * bz * q.z, -2.0 * bx * q.w + 2.0 * bz * q.y)
  }

  function FieldRowZ(q: Quat, bx: real, bz: real): Quat {
    Quat(2.0 * bx * q.y, 2.0 * bx * q.z - 4.0 * bz * q.x, 2.0 * bx * q.w - 4.0 * bz * q.y, 2.0 * bx * q.x)
  }

  // ----- corrective steps

  function VecSub(a: Vec, b: Vec): Vec {
    Vec(a.x - b.x, a.y - b.y, a.z - b.z)
  }

  /** One column of the Jacobian against the residual. */
  function Column(r: Vec, a: real, b: real, c: real): real {
    r.x * a + r.y * b + r.z * c
  }

  /** The transpose of the Jacobian with the given rows, applied to a residual. */
  function Transposed(rowX: Quat, rowY: Quat, rowZ: Quat, r: Vec): Quat {
    Quat(Column(r, rowX.w, rowY.w, rowZ.w), Column(r, rowX.x, rowY.x, rowZ.x),
         Column(r, rowX.y, rowY.y, rowZ.y), Column(r, rowX.z, rowY.z, rowZ.z))
  }

  function GravityStep(q: Quat, a: Vec): Quat {
    Transposed(GravityRowX(q), GravityRowY(q), GravityRowZ(q), VecSub(Gravity(q), a))
  }

  function FieldStep(q: Quat, bx: real, bz: real, m: Vec): Quat {
    Transposed(FieldRowX(q, bx, bz), FieldRowY(q, bx, bz), FieldRowZ(q, bx, bz), VecSub(Field(q, bx, bz), m))
  }

  /** A magnetometer reading turned into the Earth frame. */
  function EarthFrame(q: Quat, m: Vec): Quat {
    Mul(Mul(q, Pure(m)), Conj(q))
  }

  /** The horizontal component of the Earth's field: the reference is turned to lie in the x-z plane. */
  function Horizontal(sqrtf: real -> real, hx: real, hy: real): real {
    sqrtf(hx * hx + hy * hy)
  }

  function NineAxisStep(sqrtf: real -> real, q: Quat, a: Vec, m: Vec): Quat {
    var h := EarthFrame(q, m);
    Add(GravityStep(q, a), FieldStep(q, Horizontal(sqrtf, h.x, h.y), h.z, m))
  }

  // ----- one update of the estimate

  /** Rate of change of the attitude under the angular rate `gyro`. */
  function Rate(q: Quat, gyro: Vec): Quat {
    Scale(0.5, Mul(q, Pure(gyro)))
  }

  function Unit(sqrtf: real -> real, v: Vec): Vec
    requires IsSqrt(sqrtf) && v != ZERO_VEC
  {
    VecNorm2Sign(v);
    VecScale(InvSqrt(sqrtf, VecNorm2(v)), v)
  }

  function Normalised(sqrtf: real -> real, q: Quat): Quat
    requires IsSqrt(sqrtf) && Norm2(q) != 0.0
  {
    Norm2Sign(q);
    Scale(InvSqrt(sqrtf, Norm2(q)), q)
  }

  /** The attitude before the final normalisation. */
  function Integrated(gains: Gains, q: Quat, rate: Quat): Quat
    requires gains.Valid()
  {
    Add(q, Scale(1.0 / gains.sampleFreq, rate))
  }

  function Integrate(sqrtf: real -> real, gains: Gains, q: Quat, rate: Quat): Estimate
    requires IsSqrt(sqrtf) && gains.Valid()
  {
    var next := Integrated(gains, q, rate);
    if Norm2(next) == 0.0 then NotANumber else Attitude(Normalised(sqrtf, next))
  }

  /** The gyroscope rate corrected by the normalised step. */
  function Corrected(sqrtf: real -> real, gains: Gains, rate: Quat, step: Quat): Quat
    requires IsSqrt(sqrtf) && Norm2(step) != 0.0
  {
    Add(rate, Scale(-gains.beta, Normalised(sqrtf, step)))
  }

  function Correct(sqrtf: real -> real, gains: Gains, q: Quat, rate: Quat, step: Quat): Estimate
    requires IsSqrt(sqrtf) && gains.Valid()
  {
    if Norm2(step) == 0.0 then NotANumber
    else Integrate(sqrtf, gains, q, Corrected(sqrtf, gains, rate, step))
  }

  function ImuUpdate(sqrtf: real -> real, gains: Gains, e: Estimate, gyro: Vec, accel: Vec): Estimate
    requires IsSqrt(sqrtf) && gains.Valid()
  {
    match e
    case NotANumber => NotANumber
    case Attitude(q) =>
      if accel == ZERO_VEC then Integrate(sqrtf, gains, q, Rate(q, gyro))
      else Correct(sqrtf, gains, q, Rate(q, gyro), GravityStep(q, Unit(sqrtf, accel)))
  }

  function FullUpdate(sqrtf: real -> real, gains: Gains, e: Estimate, s: Sample): Estimate
    requires IsSqrt(sqrtf) && gains.Valid()
  {
    if e.NotANumber? then NotANumber
    else if s.mag == ZERO_VEC then ImuUpdate(sqrtf, gains, e, s.gyro, s.accel)
    else if s.accel == ZERO_VEC then Integrate(sqrtf, gains, e.q, Rate(e.q, s.gyro))
    else Correct(sqrtf, gains, e.q, Rate(e.q, s.gyro),
                 NineAxisStep(sqrtf, e.q, Unit(sqrtf, s.accel), Unit(sqrtf, s.mag)))
  }

  // ----- the hand-expanded arithmetic of the source

  function ExpandedW(q: Quat, a: Vec): real {
    4.0 * q.w * (q.y * q.y) + 2.0 * q.y * a.x + 4.0 * q.w * (q.x * q.x) - 2.0 * q.x * a.y
  }

  function ExpandedX(q: Quat, a: Vec): real {
    4.0 * q.x * (q.z * q.z) - 2.0 * q.z * a.x + 4.0 * (q.w * q.w) * q.x - 2.0 * q.w * a.y - 4.0 * q.x
    + 8.0 * q.x * (q.x * q.x) + 8.0 * q.x * (q.y * q.y) + 4.0 * q.x * a.z
  }

  function ExpandedY(q: Quat, a: Vec): real {
    4.0 * (q.w * q.w) * q.y + 2.0 * q.w * a.x + 4.0 * q.y * (q.z * q.z) - 2.0 * q.z * a.y - 4.0 * q.y
    + 8.0 * q.y * (q.x * q.x) + 8.0 * q.y * (q.y * q.y) + 4.0 * q.y * a.z
  }

  function ExpandedZ(q: Quat, a: Vec): real {
    4.0 * (q.x * q.x) * q.z - 2.0 * q.x * a.x + 4.0 * (q.y * q.y) * q.z - 2.0 * q.y * a.y
  }

  /** The six-axis gradient, multiplied out and simplified by hand. */
  function Expanded(q: Quat, a: Vec): Quat {
    Quat(ExpandedW(q, a), ExpandedX(q, a), ExpandedY(q, a), ExpandedZ(q, a))
  }

  /** The expanded six-axis gradient is the factored one, for every attitude and every reading. */
  lemma ExpandedIsFactored(q: Quat, a: Vec)
    ensures Expanded(q, a) == GravityStep(q, a)
  {
    var r := VecSub(Gravity(q), a);
    ExpandW(q, a, r);
    ExpandX(q, a, r);
    ExpandY(q, a, r);
    ExpandZ(q, a, r);
  }

  lemma ExpandW(q: Quat, a: Vec, r: Vec)
    requires r == VecSub(Gravity(q), a)
    ensures ExpandedW(q, a) == Column(r, -2.0 * q.y, 2.0 * q.x, 0.0)
  {
  }

  lemma ExpandX(q: Quat, a: Vec, r: Vec)
    requires r == VecSub(Gravity(q), a)
    ensures ExpandedX(q, a) == Column(r, 2.0 * q.z, 2.0 * q.w, -4.0 * q.x)
  {
    Times(r.x, 2.0 * (q.x * q.z - q.w * q.y) - a.x, 2.0 * q.z);
    Times(r.y, 2.0 * (q.w * q.x + q.y * q.z) - a.y, 2.0 * q.w);
    Times(r.z, 1.0 - 2.0 * (q.x * q.x + q.y * q.y) - a.z, -4.0 * q.x);
  }

  lemma ExpandY(q: Quat, a: Vec, r: Vec)
    requires r == VecSub(Gravity(q), a)
    ensures ExpandedY(q, a) == Column(r, -2.0 * q.w, 2.0 * q.z, -4.0 * q.y)
  {
    Times(r.x, 2.0 * (q.x * q.z - q.w * q.y) - a.x, -2.0 * q.w);
    Times(r.y, 2.0 * (q.w * q.x + q.y * q.z) - a.y, 2.0 * q.z);
    Times(r.z, 1.0 - 2.0 * (q.x * q.x + q.y * q.y) - a.z, -4.0 * q.y);
  }

  lemma ExpandZ(q: Quat, a: Vec, r: Vec)
    requires r == VecSub(Gravity(q), a)
    ensures ExpandedZ(q, a) == Column(r, 2.0 * q.x, 2.0 * q.y, 0.0)
  {
  }

  lemma Times(u: real, v: real, k: real)
    requires u == v
    ensures u * k == v * k
  {
  }

  /** The auxiliary variables of the source, computed once to avoid repeated arithmetic. */
  datatype Auxiliary = Auxiliary(
    twoBx: real, twoBz: real, fourBx: real, fourBz: real,
    twoQ0: real, twoQ1: real, twoQ2: real, twoQ3: real, twoQ0Q2: real, twoQ2Q3: real,
    q0q1: real, q0q2: real, q0q3: real, q1q1: real, q1q2: real, q1q3: real, q2q2: real, q2q3: real, q3q3: real)

  /** `bx` and `bz` are doubled here, as in the source, so that the names match the factors. */
  function Auxiliaries(q: Quat, bx: real, bz: real): Auxiliary {
    Auxiliary(2.0 * bx, 2.0 * bz, 2.0 * (2.0 * bx), 2.0 * (2.0 * bz),
              2.0 * q.w, 2.0 * q.x, 2.0 * q.y, 2.0 * q.z, 2.0 * q.w * q.y, 2.0 * q.y * q.z,
              q.w * q.x, q.w * q.y, q.w * q.z, q.x * q.x, q.x * q.y, q.x * q.z, q.y * q.y, q.y * q.z, q.z * q.z)
  }

  /** The three gravity residuals of lines 114-117. */
  function GravityResidual(v: Auxiliary, a: Vec): Vec {
    Vec(2.0 * v.q1q3 - v.twoQ0Q2 - a.x, 2.0 * v.q0q1 + v.twoQ2Q3 - a.y, 1.0 - 2.0 * v.q1q1 - 2.0 * v.q2q2 - a.z)
  }

  /** The three field residuals of lines 114-117. */
  function FieldResidual(v: Auxiliary, m: Vec): Vec {
    Vec(Mix(v.twoBx, v.twoBz, 0.5 - v.q2q2 - v.q3q3, v.q1q3 - v.q0q2) - m.x,
        Mix(v.twoBx, v.twoBz, v.q1q2 - v.q0q3, v.q0q1 + v.q2q3) - m.y,
        Mix(v.twoBx, v.twoBz, v.q0q2 + v.q1q3, 0.5 - v.q1q1 - v.q2q2) - m.z)
  }

  function FactoredW(q: Quat, v: Auxiliary, g: Vec, f: Vec): real {
    -v.twoQ2 * g.x + v.twoQ1 * g.y
    - v.twoBz * q.y * f.x + (-v.twoBx * q.z + v.twoBz * q.x) * f.y + v.twoBx * q.y * f.z
  }

  function FactoredX(q: Quat, v: Auxiliary, g: Vec, f: Vec): real {
    v.twoQ3 * g.x + v.twoQ0 * g.y - 4.0 * q.x * g.z
    + v.twoBz * q.z * f.x + (v.twoBx * q.y + v.twoBz * q.w) * f.y + (v.twoBx * q.z - v.fourBz * q.x) * f.z
  }

  function FactoredY(q: Quat, v: Auxiliary, g: Vec, f: Vec): real {
    -v.twoQ0 * g.x + v.twoQ3 * g.y - 4.0 * q.y * g.z
    + (-v.fourBx * q.y - v.twoBz * q.w) * f.x + (v.twoBx * q.x + v.twoBz * q.z) * f.y
    + (v.twoBx * q.w - v.fourBz * q.y) * f.z
  }

  function FactoredZ(q: Quat, v: Auxiliary, g: Vec, f: Vec): real {
    v.twoQ1 * g.x + v.twoQ2 * g.y
    + (-v.fourBx * q.z + v.twoBz * q.x) * f.x + (-v.twoBx * q.w + v.twoBz * q.y) * f.y + v.twoBx * q.x * f.z
  }

  /** The nine-axis gradient of lines 113-117, with each repeated residual written once. */
  function Factored(q: Quat, a: Vec, m: Vec, bx: real, bz: real): Quat {
    var v := Auxiliaries(q, bx, bz);
    var g, f := GravityResidual(v, a), FieldResidual(v, m);
    Quat(FactoredW(q, v, g, f), FactoredX(q, v, g, f), FactoredY(q, v, g, f), FactoredZ(q, v, g, f))
  }

  /** The factored nine-axis code is the transposed Jacobian of all six components applied to their residuals. */
  lemma FactoredIsTransposed(q: Quat, a: Vec, m: Vec, bx: real, bz: real)
    ensures Factored(q, a, m, bx, bz) == Add(GravityStep(q, a), FieldStep(q, bx, bz, m))
  {
    var v := Auxiliaries(q, bx, bz);
    var g, f := VecSub(Gravity(q), a), VecSub(Field(q, bx, bz), m);
    GravityResidualAgrees(q, a, bx, bz);
    FieldResidualAgrees(q, m, bx, bz);
    FactorW(q, v, bx, bz, g, f);
    FactorX(q, v, bx, bz, g, f);
    FactorY(q, v, bx, bz, g, f);
    FactorZ(q, v, bx, bz, g, f);
  }

  lemma GravityResidualAgrees(q: Quat, a: Vec, bx: real, bz: real)
    ensures GravityResidual(Auxiliaries(q, bx, bz), a) == VecSub(Gravity(q), a)
  {
  }

  lemma FieldResidualAgrees(q: Quat, m: Vec, bx: real, bz: real)
    ensures FieldResidual(Auxiliaries(q, bx, bz), m) == VecSub(Field(q, bx, bz), m)
  {
    ProductsAgree(q, Auxiliaries(q, bx, bz), bx, bz);
  }

  /** The auxiliary products are the entries of the two axes. */
  lemma ProductsAgree(q: Quat, v: Auxiliary, bx: real, bz: real)
    requires v == Auxiliaries(q, bx, bz)
    ensures 0.5 - v.q2q2 - v.q3q3 == NorthX(q) && v.q1q3 - v.q0q2 == DownX(q)
    ensures v.q1q2 - v.q0q3 == NorthY(q) && v.q0q1 + v.q2q3 == DownY(q)
    ensures v.q0q2 + v.q1q3 == NorthZ(q) && 0.5 - v.q1q1 - v.q2q2 == DownZ(q)
  {
  }

  /** The auxiliary variables that are multiples of one input. */
  ghost predicate Doubled(v: Auxiliary, q: Quat, bx: real, bz: real) {
    && v.twoBx == 2.0 * bx && v.twoBz == 2.0 * bz && v.fourBx == 4.0 * bx && v.fourBz == 4.0 * bz
    && v.twoQ0 == 2.0 * q.w && v.twoQ1 == 2.0 * q.x && v.twoQ2 == 2.0 * q.y && v.twoQ3 == 2.0 * q.z
  }

  lemma FactorW(q: Quat, v: Auxiliary, bx: real, bz: real, g: Vec, f: Vec)
    requires Doubled(v, q, bx, bz)
    ensures FactoredW(q, v, g, f)
         == Column(g, GravityRowX(q).w, GravityRowY(q).w, GravityRowZ(q).w)
            + Column(f, FieldRowX(q, bx, bz).w, FieldRowY(q, bx, bz).w, FieldRowZ(q, bx, bz).w)
  {
  }

  lemma FactorX(q: Quat, v: Auxiliary, bx: real, bz: real, g: Vec, f: Vec)
    requires Doubled(v, q, bx, bz)
    ensures FactoredX(q, v, g, f)
         == Column(g, GravityRowX(q).x, GravityRowY(q).x, GravityRowZ(q).x)
            + Column(f, FieldRowX(q, bx, bz).x, FieldRowY(q, bx, bz).x, FieldRowZ(q, bx, bz).x)
  {
  }

  lemma FactorY(q: Quat, v: Auxiliary, bx: real, bz: real, g: Vec, f: Vec)
    requires Doubled(v, q, bx, bz)
    ensures FactoredY(q, v, g, f)
         == Column(g, GravityRowX(q).y, GravityRowY(q).y, GravityRowZ(q).y)
            + Column(f, FieldRowX(q, bx, bz).y, FieldRowY(q, bx, bz).y, FieldRowZ(q, bx, bz).y)
  {
  }

  lemma FactorZ(q: Quat, v: Auxiliary, bx: real, bz: real, g: Vec, f: Vec)
    requires Doubled(v, q, bx, bz)
    ensures FactoredZ(q, v, g, f)
         == Column(g, GravityRowX(q).z, GravityRowY(q).z, GravityRowZ(q).z)
            + Column(f, FieldRowX(q, bx, bz).z, FieldRowY(q, bx, bz).z, FieldRowZ(q, bx, bz).z)
  {
  }

  /** hx of line 104. */
  function EarthX(q: Quat, m: Vec): real {
    m.x * (q.w * q.w) - 2.0 * q.w * m.y * q.z + 2.0 * q.w * m.z * q.y + m.x * (q.x * q.x)
    + 2.0 * q.x * m.y * q.y + 2.0 * q.x * m.z * q.z - m.x * (q.y * q.y) - m.x * (q.z * q.z)
  }

  /** hy of line 105. */
  function EarthY(q: Quat, m: Vec): real {
    2.0 * q.w * m.x * q.z + m.y * (q.w * q.w) - 2.0 * q.w * m.z * q.x + 2.0 * q.x * m.x * q.y
    - m.y * (q.x * q.x) + m.y * (q.y * q.y) + 2.0 * q.y * m.z * q.z - m.y * (q.z * q.z)
  }

  /** bz of line 107, before it is doubled. */
  function EarthZ(q: Quat, m: Vec): real {
    -2.0 * q.w * m.x * q.y + 2.0 * q.w * m.y * q.x + m.z * (q.w * q.w) + 2.0 * q.x * m.x * q.z
    - m.z * (q.x * q.x) + 2.0 * q.y * m.y * q.z - m.z * (q.y * q.y) + m.z * (q.z * q.z)
  }

  /** Lines 104-107 turn the magnetometer reading into the Earth frame, as q m q*. */
  lemma EarthFrameExpanded(q: Quat, m: Vec)
    ensures EarthFrame(q, m) == Quat(0.0, EarthX(q, m), EarthY(q, m), EarthZ(q, m))
  {
    var t := Mul(q, Pure(m));
    EarthComponentW(q, m, t);
    EarthComponentX(q, m, t);
    EarthComponentY(q, m, t);
    EarthComponentZ(q, m, t);
  }

  lemma EarthComponentW(q: Quat, m: Vec, t: Quat)
    requires t == Mul(q, Pure(m))
    ensures MulW(t, Conj(q)) == 0.0
  {
  }

  lemma EarthComponentX(q: Quat, m: Vec, t: Quat)
    requires t == Mul(q, Pure(m))
    ensures MulX(t, Conj(q)) == EarthX(q, m)
  {
  }

  lemma EarthComponentY(q: Quat, m: Vec, t: Quat)
    requires t == Mul(q, Pure(m))
    ensures MulY(t, Conj(q)) == EarthY(q, m)
  {
  }

  lemma EarthComponentZ(q: Quat, m: Vec, t: Quat)
    requires t == Mul(q, Pure(m))
    ensures MulZ(t, Conj(q)) == EarthZ(q, m)
  {
  }

  // ----- the filter object

  /** The filter's global state. */
  class Filter {
    const sqrtf: real -> real
    const gains: Gains
    var q0: real
    var q1: real
    var q2: real
    var q3: real
    var nan: bool

    ghost predicate Valid() {
      IsSqrt(sqrtf) && gains.Valid()
    }

    ghost function State(): Estimate
      reads this
    {
      if nan then NotANumber else Attitude(Quat(q0, q1, q2, q3))
    }

    constructor (sqrtf: real -> real, gains: Gains)
      requires IsSqrt(sqrtf) && gains.Valid()
      ensures Valid() && this.sqrtf == sqrtf && this.gains == gains
      ensures State() == Attitude(IDENTITY)
    {
      this.sqrtf, this.gains := sqrtf, gains;
      q0, q1, q2, q3, nan := 1.0, 0.0, 0.0, 0.0, false;
    }

    method UpdateImu(gx: real, gy: real, gz: real, ax: real, ay: real, az: real)
      requires Valid()
      modifies this
      ensures State() == ImuUpdate(sqrtf, gains, old(State()), Vec(gx, gy, gz), Vec(ax, ay, az))
    {
      if nan {
        return;
      }
      var qDot1, qDot2, qDot3, qDot4 := GyroRate(gx, gy, gz);

      if !(ax == 0.0 && ay == 0.0 && az == 0.0) {
        var nx, ny, nz := Normalise(ax, ay, az);
        var s := Expanded(Quat(q0, q1, q2, q3), Vec(nx, ny, nz));
        ExpandedIsFactored(Quat(q0, q1, q2, q3), Vec(nx, ny, nz));
        nan, qDot1, qDot2, qDot3, qDot4 := Feedback(qDot1, qDot2, qDot3, qDot4, s.w, s.x, s.y, s.z);
        if nan {
          return;
        }
      }
      IntegrateRate(qDot1, qDot2, qDot3, qDot4);
    }

    method Update(gx: real, gy: real, gz: real, ax: real, ay: real, az: real, mx: real, my: real, mz: real)
      requires Valid()
      modifies this
      ensures State() == FullUpdate(sqrtf, gains, old(State()),
                                    Sample(Vec(gx, gy, gz), Vec(ax, ay, az), Vec(mx, my, mz)))
    {
      if nan {
        return;
      }
      if mx == 0.0 && my == 0.0 && mz == 0.0 {
        UpdateImu(gx, gy, gz, ax, ay, az);
        return;
      }
      var qDot1, qDot2, qDot3, qDot4 := GyroRate(gx, gy, gz);

      if !(ax == 0.0 && ay == 0.0 && az == 0.0) {
        var nax, nay, naz := Normalise(ax, ay, az);
        var nmx, nmy, nmz := Normalise(mx, my, mz);
        var s := NineAxisGradient(nax, nay, naz, nmx, nmy, nmz);
        nan, qDot1, qDot2, qDot3, qDot4 := Feedback(qDot1, qDot2, qDot3, qDot4, s.w, s.x, s.y, s.z);
        if nan {
          return;
        }
      }
      IntegrateRate(qDot1, qDot2, qDot3, qDot4);
    }

    /** Rate of change of the quaternion from the gyroscope. */
    method GyroRate(gx: real, gy: real, gz: real) returns (qDot1: real, qDot2: real, qDot3: real, qDot4: real)
      ensures Quat(qDot1, qDot2, qDot3, qDot4) == Rate(Quat(q0, q1, q2, q3), Vec(gx, gy, gz))
    {
      qDot1 := 0.5 * (-q1 * gx - q2 * gy - q3 * gz);
      qDot2 := 0.5 * (q0 * gx + q2 * gz - q3 * gy);
      qDot3 := 0.5 * (q0 * gy - q1 * gz + q3 * gx);
      qDot4 := 0.5 * (q0 * gz + q1 * gy - q2 * gx);
    }

    method Normalise(x: real, y: real, z: real) returns (nx: real, ny: real, nz: real)
      requires Valid() && Vec(x, y, z) != ZERO_VEC
      ensures Vec(nx, ny, nz) == Unit(sqrtf, Vec(x, y, z))
    {
      ghost var v := Vec(x, y, z);
      VecNorm2Sign(v);
      var norm := x * x + y * y + z * z;
      assert norm == VecNorm2(v);
      var recipNorm := InvSqrt(sqrtf, norm);
      nx, ny, nz := x * recipNorm, y * recipNorm, z * recipNorm;
      assert Vec(nx, ny, nz) == VecScale(recipNorm, v);
      assert Unit(sqrtf, v) == VecScale(InvSqrt(sqrtf, VecNorm2(v)), v);
    }

    /** Divides four components by their norm, or reports that the norm is zero. */
    method Normalise4(s0: real, s1: real, s2: real, s3: real)
      returns (failed: bool, n0: real, n1: real, n2: real, n3: real)
      requires Valid()
      ensures failed == (Norm2(Quat(s0, s1, s2, s3)) == 0.0)
      ensures !failed ==> Quat(n0, n1, n2, n3) == Normalised(sqrtf, Quat(s0, s1, s2, s3))
    {
      ghost var s := Quat(s0, s1, s2, s3);
      var norm := s0 * s0 + s1 * s1 + s2 * s2 + s3 * s3;
      assert norm == Norm2(s);
      failed, n0, n1, n2, n3 := norm == 0.0, s0, s1, s2, s3;
      if !failed {
        Norm2Sign(s);
        var recipNorm := InvSqrt(sqrtf, norm);
        n0, n1, n2, n3 := s0 * recipNorm, s1 * recipNorm, s2 * recipNorm, s3 * recipNorm;
        assert Quat(n0, n1, n2, n3) == Scale(recipNorm, s);
      }
    }

    /** Subtracts the normalised step, weighted by the gain; `failed` reports a step of norm zero. */
    method Feedback(d1: real, d2: real, d3: real, d4: real, s0: real, s1: real, s2: real, s3: real)
      returns (failed: bool, r1: real, r2: real, r3: real, r4: real)
      requires Valid()
      ensures failed == (Norm2(Quat(s0, s1, s2, s3)) == 0.0)
      ensures !failed ==>
                Quat(r1, r2, r3, r4) == Corrected(sqrtf, gains, Quat(d1, d2, d3, d4), Quat(s0, s1, s2, s3))
    {
      var n0, n1, n2, n3;
      failed, n0, n1, n2, n3 := Normalise4(s0, s1, s2, s3);
      r1 := d1 - gains.beta * n0;
      r2 := d2 - gains.beta * n1;
      r3 := d3 - gains.beta * n2;
      r4 := d4 - gains.beta * n3;
      assert Quat(r1, r2, r3, r4) == Add(Quat(d1, d2, d3, d4), Scale(-gains.beta, Quat(n0, n1, n2, n3)));
    }

    /** Integrates the rate of change and normalises the quaternion. */
    method IntegrateRate(qDot1: real, qDot2: real, qDot3: real, qDot4: real)
      requires Valid() && !nan
      modifies this
      ensures State() == Integrate(sqrtf, gains, old(Quat(q0, q1, q2, q3)), Quat(qDot1, qDot2, qDot3, qDot4))
    {
      ghost var q, rate := Quat(q0, q1, q2, q3), Quat(qDot1, qDot2, qDot3, qDot4);
      q0 := q0 + qDot1 * (1.0 / gains.sampleFreq);
      q1 := q1 + qDot2 * (1.0 / gains.sampleFreq);
      q2 := q2 + qDot3 * (1.0 / gains.sampleFreq);
      q3 := q3 + qDot4 * (1.0 / gains.sampleFreq);
      ghost var next := Quat(q0, q1, q2, q3);
      assert next == Integrated(gains, q, rate);
      nan, q0, q1, q2, q3 := Normalise4(q0, q1, q2, q3);
    }

    /** The nine-axis corrective step against the reference direction of the Earth's field, lines 104-117. */
    method NineAxisGradient(ax: real, ay: real, az: real, mx: real, my: real, mz: real) returns (s: Quat)
      requires Valid()
      ensures s == NineAxisStep(sqrtf, Quat(q0, q1, q2, q3), Vec(ax, ay, az), Vec(mx, my, mz))
    {
      var q, a, m := Quat(q0, q1, q2, q3), Vec(ax, ay, az), Vec(mx, my, mz);
      var hx, hy := EarthX(q, m), EarthY(q, m);
      var bx := Horizontal(sqrtf, hx, hy);
      var bz := EarthZ(q, m);
      EarthFrameExpanded(q, m);
      s := Factored(q, a, m, bx, bz);
      FactoredIsTransposed(q, a, m, bx, bz);
    }
  }
}
