/**
Symmetries of the filter, over whole runs: heading, the sign of the quaternion, and the scale of the
accelerometer and magnetometer readings.
*/
module MadgwickSymmetry {
  import opened SquareRoot
  import opened Quaternions
  import opened Madgwick
  import opened MadgwickRuns

  /** The estimate with its attitude multiplied by p from the left. */
  function Turned(p: Quat, e: Estimate): Estimate {
    match e
    case Attitude(q) => Attitude(Mul(p, q))
    case NotANumber => NotANumber
  }

  // ----- parts of an update that commute with every unit quaternion

  lemma RateTurns(p: Quat, q: Quat, gyro: Vec)
    ensures Rate(Mul(p, q), gyro) == Mul(p, Rate(q, gyro))
  {
    MulAssociative(p, q, Pure(gyro));
    MulScales(p, 0.5, Mul(q, Pure(gyro)));
  }

  lemma NormalisedTurns(sqrtf: real -> real, p: Quat, q: Quat)
    requires IsSqrt(sqrtf) && IsUnit(p) && Norm2(q) != 0.0
    ensures Norm2(Mul(p, q)) == Norm2(q)
    ensures Normalised(sqrtf, Mul(p, q)) == Mul(p, Normalised(sqrtf, q))
  {
    UnitPreservesNorm(p, q);
    Norm2Sign(q);
    MulScales(p, InvSqrt(sqrtf, Norm2(q)), q);
  }

  lemma IntegrateTurns(sqrtf: real -> real, gains: Gains, p: Quat, q: Quat, rate: Quat)
    requires IsSqrt(sqrtf) && gains.Valid() && IsUnit(p)
    ensures Integrate(sqrtf, gains, Mul(p, q), Mul(p, rate)) == Turned(p, Integrate(sqrtf, gains, q, rate))
  {
    var next := Integrated(gains, q, rate);
    MulDistributes(p, q, 1.0 / gains.sampleFreq, rate);
    UnitPreservesNorm(p, next);
    if Norm2(next) != 0.0 {
      NormalisedTurns(sqrtf, p, next);
    }
  }

  lemma CorrectTurns(sqrtf: real -> real, gains: Gains, p: Quat, q: Quat, rate: Quat, step: Quat)
    requires IsSqrt(sqrtf) && gains.Valid() && IsUnit(p)
    ensures Correct(sqrtf, gains, Mul(p, q), Mul(p, rate), Mul(p, step))
         == Turned(p, Correct(sqrtf, gains, q, rate, step))
  {
    UnitPreservesNorm(p, step);
    if Norm2(step) != 0.0 {
      NormalisedTurns(sqrtf, p, step);
      MulDistributes(p, rate, -gains.beta, Normalised(sqrtf, step));
      IntegrateTurns(sqrtf, gains, p, q, Corrected(sqrtf, gains, rate, step));
    }
  }

  /** An update commutes with p whenever its corrective step does. */
  lemma UpdateTurns(sqrtf: real -> real, gains: Gains, p: Quat, q: Quat, s: Sample)
    requires IsSqrt(sqrtf) && gains.Valid() && IsUnit(p)
    requires s.accel != ZERO_VEC ==> StepOf(sqrtf, Mul(p, q), s) == Mul(p, StepOf(sqrtf, q, s))
    ensures FullUpdate(sqrtf, gains, Attitude(Mul(p, q)), s)
         == Turned(p, FullUpdate(sqrtf, gains, Attitude(q), s))
  {
    RateTurns(p, q, s.gyro);
    if s.accel == ZERO_VEC {
      IntegrateTurns(sqrtf, gains, p, q, Rate(q, s.gyro));
    } else {
      CorrectTurns(sqrtf, gains, p, q, Rate(q, s.gyro), StepOf(sqrtf, q, s));
    }
  }

  // ----- heading

  /** The transposed Jacobian is linear in its rows. */
  lemma TransposedTurns(p: Quat, x: Quat, y: Quat, z: Quat, r: Vec)
    ensures Transposed(Mul(p, x), Mul(p, y), Mul(p, z), r) == Mul(p, Transposed(x, y, z, r))
  {
    TransposedIsSum(x, y, z, r);
    TransposedIsSum(Mul(p, x), Mul(p, y), Mul(p, z), r);
    MulDistributes(p, Add(Scale(r.x, x), Scale(r.y, y)), r.z, z);
    MulDistributes(p, Scale(r.x, x), r.y, y);
    MulScales(p, r.x, x);
  }

  lemma TransposedIsSum(x: Quat, y: Quat, z: Quat, r: Vec)
    ensures Transposed(x, y, z, r) == Add(Add(Scale(r.x, x), Scale(r.y, y)), Scale(r.z, z))
  {
  }

  lemma YawTurnsRows(c: real, s: real, q: Quat, p: Quat)
    requires p == Mul(Yaw(c, s), q)
    ensures GravityRowX(p) == Mul(Yaw(c, s), GravityRowX(q))
    ensures GravityRowY(p) == Mul(Yaw(c, s), GravityRowY(q))
    ensures GravityRowZ(p) == Mul(Yaw(c, s), GravityRowZ(q))
  {
  }

  lemma YawKeepsGravity(c: real, s: real, q: Quat, p: Quat)
    requires c * c + s * s == 1.0 && p == Mul(Yaw(c, s), q)
    ensures Gravity(p) == Gravity(q)
  {
    YawScalars(c, s, q.w, q.x, q.y, q.z, p.w, p.x, p.y, p.z);
  }

  lemma YawScalars(c: real, s: real, w: real, x: real, y: real, z: real, w': real, x': real, y': real, z': real)
    requires c * c + s * s == 1.0
    requires w' == c * w - s * z && x' == c * x - s * y && y' == c * y + s * x && z' == c * z + s * w
    ensures x' * z' - w' * y' == x * z - w * y
    ensures w' * x' + y' * z' == w * x + y * z
    ensures x' * x' + y' * y' == x * x + y * y
  {
  }

  lemma GravityStepTurns(c: real, s: real, q: Quat, a: Vec)
    requires c * c + s * s == 1.0
    ensures GravityStep(Mul(Yaw(c, s), q), a) == Mul(Yaw(c, s), GravityStep(q, a))
  {
    var p := Mul(Yaw(c, s), q);
    YawKeepsGravity(c, s, q, p);
    YawTurnsRows(c, s, q, p);
    TransposedTurns(Yaw(c, s), GravityRowX(q), GravityRowY(q), GravityRowZ(q), VecSub(Gravity(q), a));
  }

  /** The direction in which the attitude moves when only its heading changes, (-q3, -q2, q1, q0). */
  function HeadingDirection(q: Quat): Quat { Quat(-q.z, -q.y, q.x, q.w) }

  /** The six-axis step never changes the heading. */
  lemma StepKeepsHeading(q: Quat, a: Vec)
    ensures Dot(GravityStep(q, a), HeadingDirection(q)) == 0.0
  {
  }

  /** The sample is handled by the six-axis code or carries no usable accelerometer reading. */
  predicate SixAxis(s: Sample) {
    s.mag == ZERO_VEC || s.accel == ZERO_VEC
  }

  /**
  Heading symmetry: starting from an attitude turned about the vertical turns every later state of the
  run by the same rotation. The six-axis filter carries no heading information of its own.
  */
  lemma {:induction false} HeadingSymmetry(sqrtf: real -> real, gains: Gains, c: real, s: real, e: Estimate,
                                           samples: seq<Sample>)
    requires IsSqrt(sqrtf) && gains.Valid() && c * c + s * s == 1.0
    requires forall i | 0 <= i < |samples| :: SixAxis(samples[i])
    ensures Run(sqrtf, gains, Turned(Yaw(c, s), e), samples) == Turned(Yaw(c, s), Run(sqrtf, gains, e, samples))
  {
    if samples != [] {
      var n := |samples| - 1;
      HeadingSymmetry(sqrtf, gains, c, s, e, samples[..n]);
      var before := Run(sqrtf, gains, e, samples[..n]);
      YawIsUnit(c, s);
      if before.Attitude? {
        if samples[n].accel != ZERO_VEC {
          GravityStepTurns(c, s, before.q, Unit(sqrtf, samples[n].accel));
        }
        UpdateTurns(sqrtf, gains, Yaw(c, s), before.q, samples[n]);
      }
    }
  }

  lemma YawIsUnit(c: real, s: real)
    requires c * c + s * s == 1.0
    ensures IsUnit(Yaw(c, s))
  {
  }

  // ----- the sign of the quaternion

  const MINUS_ONE := Quat(-1.0, 0.0, 0.0, 0.0)

  lemma MinusOneNegates(q: Quat)
    ensures Mul(MINUS_ONE, q) == Scale(-1.0, q)
  {
  }

  lemma GravityStepNegates(q: Quat, a: Vec)
    ensures GravityStep(Mul(MINUS_ONE, q), a) == Mul(MINUS_ONE, GravityStep(q, a))
  {
    GravityStepTurns(-1.0, 0.0, q, a);
  }

  lemma FieldNegates(q: Quat, bx: real, bz: real, p: Quat)
    requires p == Mul(MINUS_ONE, q)
    ensures Field(p, bx, bz) == Field(q, bx, bz)
  {
    MinusOneNegates(q);
    assert NorthX(p) == NorthX(q) && NorthY(p) == NorthY(q) && NorthZ(p) == NorthZ(q);
    assert DownX(p) == DownX(q) && DownY(p) == DownY(q) && DownZ(p) == DownZ(q);
  }

  lemma FieldRowXNegates(q: Quat, bx: real, bz: real, p: Quat)
    requires p == Scale(-1.0, q)
    ensures FieldRowX(p, bx, bz) == Scale(-1.0, FieldRowX(q, bx, bz))
  {
  }

  lemma FieldRowYNegates(q: Quat, bx: real, bz: real, p: Quat)
    requires p == Scale(-1.0, q)
    ensures FieldRowY(p, bx, bz) == Scale(-1.0, FieldRowY(q, bx, bz))
  {
  }

  lemma FieldRowZNegates(q: Quat, bx: real, bz: real, p: Quat)
    requires p == Scale(-1.0, q)
    ensures FieldRowZ(p, bx, bz) == Scale(-1.0, FieldRowZ(q, bx, bz))
  {
  }

  lemma EarthFrameNegates(q: Quat, m: Vec)
    ensures EarthFrame(Mul(MINUS_ONE, q), m) == EarthFrame(q, m)
  {
    EarthFrameExpanded(q, m);
    EarthFrameExpanded(Mul(MINUS_ONE, q), m);
  }

  lemma NineAxisStepNegates(sqrtf: real -> real, q: Quat, a: Vec, m: Vec)
    ensures NineAxisStep(sqrtf, Mul(MINUS_ONE, q), a, m) == Mul(MINUS_ONE, NineAxisStep(sqrtf, q, a, m))
  {
    var p, h := Mul(MINUS_ONE, q), EarthFrame(q, m);
    var bx := Horizontal(sqrtf, h.x, h.y);
    GravityStepNegates(q, a);
    EarthFrameNegates(q, m);
    FieldNegates(q, bx, h.z, p);
    MinusOneNegates(q);
    FieldRowXNegates(q, bx, h.z, p);
    FieldRowYNegates(q, bx, h.z, p);
    FieldRowZNegates(q, bx, h.z, p);
    MinusOneNegates(FieldRowX(q, bx, h.z));
    MinusOneNegates(FieldRowY(q, bx, h.z));
    MinusOneNegates(FieldRowZ(q, bx, h.z));
    TransposedTurns(MINUS_ONE, FieldRowX(q, bx, h.z), FieldRowY(q, bx, h.z), FieldRowZ(q, bx, h.z),
                    VecSub(Field(q, bx, h.z), m));
    MinusOneSum(GravityStep(q, a), FieldStep(q, bx, h.z, m));
  }

  lemma StepNegates(sqrtf: real -> real, q: Quat, s: Sample)
    requires IsSqrt(sqrtf) && s.accel != ZERO_VEC
    ensures StepOf(sqrtf, Mul(MINUS_ONE, q), s) == Mul(MINUS_ONE, StepOf(sqrtf, q, s))
  {
    if s.mag == ZERO_VEC {
      GravityStepNegates(q, Unit(sqrtf, s.accel));
    } else {
      NineAxisStepNegates(sqrtf, q, Unit(sqrtf, s.accel), Unit(sqrtf, s.mag));
    }
  }

  lemma MinusOneSum(a: Quat, b: Quat)
    ensures Mul(MINUS_ONE, Add(a, b)) == Add(Mul(MINUS_ONE, a), Mul(MINUS_ONE, b))
  {
  }

  /** q and -q are the same attitude: both filters run identically on either representation. */
  lemma {:induction false} SignSymmetry(sqrtf: real -> real, gains: Gains, e: Estimate, samples: seq<Sample>)
    requires IsSqrt(sqrtf) && gains.Valid()
    ensures Run(sqrtf, gains, Turned(MINUS_ONE, e), samples) == Turned(MINUS_ONE, Run(sqrtf, gains, e, samples))
  {
    if samples != [] {
      var n := |samples| - 1;
      SignSymmetry(sqrtf, gains, e, samples[..n]);
      var before, s := Run(sqrtf, gains, e, samples[..n]), samples[n];
      if before.Attitude? {
        UpdateNegates(sqrtf, gains, before.q, s);
      }
    }
  }

  lemma UpdateNegates(sqrtf: real -> real, gains: Gains, q: Quat, s: Sample)
    requires IsSqrt(sqrtf) && gains.Valid()
    ensures FullUpdate(sqrtf, gains, Attitude(Mul(MINUS_ONE, q)), s)
         == Turned(MINUS_ONE, FullUpdate(sqrtf, gains, Attitude(q), s))
  {
    MinusOneIsUnit();
    if s.accel != ZERO_VEC {
      StepNegates(sqrtf, q, s);
    }
    UpdateTurns(sqrtf, gains, MINUS_ONE, q, s);
  }

  lemma MinusOneIsUnit()
    ensures IsUnit(MINUS_ONE)
  {
  }

  // ----- the scale of the readings

  lemma UnitOfScaled(sqrtf: real -> real, k: real, v: Vec)
    requires IsSqrt(sqrtf) && 0.0 < k && v != ZERO_VEC
    ensures VecScale(k, v) != ZERO_VEC
    ensures Unit(sqrtf, VecScale(k, v)) == Unit(sqrtf, v)
  {
    VecNorm2Sign(v);
    VecNorm2Sign(VecScale(k, v));
    VecNorm2Scale(k, v);
    InvSqrtScales(sqrtf, k, VecNorm2(v), VecNorm2(VecScale(k, v)));
    ScaleTwice(InvSqrt(sqrtf, VecNorm2(VecScale(k, v))), k, v);
  }

  lemma ScaleTwice(r: real, k: real, v: Vec)
    ensures VecScale(r, VecScale(k, v)) == VecScale(r * k, v)
  {
  }

  /** The sample with its accelerometer and magnetometer readings in other units. */
  function Rescaled(ka: real, km: real, s: Sample): Sample {
    Sample(s.gyro, VecScale(ka, s.accel), VecScale(km, s.mag))
  }

  lemma RescaledUpdate(sqrtf: real -> real, gains: Gains, ka: real, km: real, e: Estimate, s: Sample)
    requires IsSqrt(sqrtf) && gains.Valid() && 0.0 < ka && 0.0 < km
    ensures FullUpdate(sqrtf, gains, e, Rescaled(ka, km, s)) == FullUpdate(sqrtf, gains, e, s)
  {
    if s.accel != ZERO_VEC {
      UnitOfScaled(sqrtf, ka, s.accel);
    }
    if s.mag != ZERO_VEC {
      UnitOfScaled(sqrtf, km, s.mag);
    }
  }

  /** Each reading may be scaled by its own positive factor without changing any state of the run. */
  lemma {:induction false} ScaleSymmetry(sqrtf: real -> real, gains: Gains, e: Estimate,
                                         samples: seq<Sample>, ka: seq<real>, km: seq<real>)
    requires IsSqrt(sqrtf) && gains.Valid() && |ka| == |km| == |samples|
    requires forall i | 0 <= i < |samples| :: 0.0 < ka[i] && 0.0 < km[i]
    ensures Run(sqrtf, gains, e, seq(|samples|, i requires 0 <= i < |samples| => Rescaled(ka[i], km[i], samples[i])))
         == Run(sqrtf, gains, e, samples)
  {
    if samples != [] {
      var n := |samples| - 1;
      ScaleSymmetry(sqrtf, gains, e, samples[..n], ka[..n], km[..n]);
      var scaled := seq(|samples|, i requires 0 <= i < |samples| => Rescaled(ka[i], km[i], samples[i]));
      assert scaled[..n] == seq(n, i requires 0 <= i < n => Rescaled(ka[..n][i], km[..n][i], samples[..n][i]));
      RescaledUpdate(sqrtf, gains, ka[n], km[n], Run(sqrtf, gains, e, samples[..n]), samples[n]);
    }
  }
}
