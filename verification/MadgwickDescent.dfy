/**
Which way an update moves the attitude: the gyroscope turns the predicted directions as the sensor turns,
and the feedback goes down the error of the readings as steeply as it can.
*/
module MadgwickDescent {
  import opened SquareRoot
  import opened Quaternions
  import opened Madgwick
  import opened MadgwickBalance
  import opened MadgwickGradient
  import opened MadgwickRuns

  // ----- the predicted directions

  /** The predicted field is the reference (bx, 0, bz), turned from the Earth frame into the sensor frame. */
  lemma FieldIsReferenceTurned(q: Quat, bx: real, bz: real)
    requires IsUnit(q)
    ensures Pure(Field(q, bx, bz)) == EarthFrame(Conj(q), Vec(bx, 0.0, bz))
  {
    EarthFrameExpanded(Conj(q), Vec(bx, 0.0, bz));
    TurnedX(q, bx, bz);
    TurnedY(q, bx, bz);
    TurnedZ(q, bx, bz);
  }

  lemma TurnedX(q: Quat, bx: real, bz: real)
    requires IsUnit(q)
    ensures EarthX(Conj(q), Vec(bx, 0.0, bz)) == FieldX(q, bx, bz)
  {
    Times(Norm2(q), 1.0, bx);
  }

  lemma TurnedY(q: Quat, bx: real, bz: real)
    ensures EarthY(Conj(q), Vec(bx, 0.0, bz)) == FieldY(q, bx, bz)
  {
  }

  lemma TurnedZ(q: Quat, bx: real, bz: real)
    requires IsUnit(q)
    ensures EarthZ(Conj(q), Vec(bx, 0.0, bz)) == FieldZ(q, bx, bz)
  {
    Times(Norm2(q), 1.0, bz);
  }

  /** Predicted gravity is the Earth's vertical seen from the sensor. */
  lemma GravityIsUpTurned(q: Quat)
    requires IsUnit(q)
    ensures Pure(Gravity(q)) == EarthFrame(Conj(q), Vec(0.0, 0.0, 1.0))
  {
    GravityIsField(q, UP);
    FieldIsReferenceTurned(q, 0.0, 1.0);
  }

  // ----- the gyroscope

  /** The rate is half of what the three body directions contribute. */
  lemma RateInBody(q: Quat, gyro: Vec, row: Quat, x: real, y: real, z: real)
    requires x == Dot(row, BodyX(q)) && y == Dot(row, BodyY(q)) && z == Dot(row, BodyZ(q))
    ensures Dot(row, Rate(q, gyro)) == 0.5 * (x * gyro.x + y * gyro.y + z * gyro.z)
  {
    Times(x, Dot(row, BodyX(q)), gyro.x);
    Times(y, Dot(row, BodyY(q)), gyro.y);
    Times(z, Dot(row, BodyZ(q)), gyro.z);
  }

  /**
  A direction fixed in the Earth frame turns against the sensor: under the angular rate w the predicted
  field b changes at the rate b x w.
  */
  lemma RateTurnsField(q: Quat, bx: real, bz: real, gyro: Vec)
    requires IsUnit(q)
    ensures var turn := Cross(Field(q, bx, bz), gyro);
            Slopes(FieldRowX(q, bx, bz), FieldRowY(q, bx, bz), FieldRowZ(q, bx, bz), Rate(q, gyro),
                   turn.x, turn.y, turn.z)
  {
    var b := Field(q, bx, bz);
    FieldTurns(q, bx, bz);
    RateInBody(q, gyro, FieldRowX(q, bx, bz), 0.0, -2.0 * b.z, 2.0 * b.y);
    RateInBody(q, gyro, FieldRowY(q, bx, bz), 2.0 * b.z, 0.0, -2.0 * b.x);
    RateInBody(q, gyro, FieldRowZ(q, bx, bz), -2.0 * b.y, 2.0 * b.x, 0.0);
    HalfTurn(b, gyro);
  }

  lemma HalfTurn(b: Vec, w: Vec)
    ensures 0.5 * (0.0 * w.x + -2.0 * b.z * w.y + 2.0 * b.y * w.z) == Cross(b, w).x
    ensures 0.5 * (2.0 * b.z * w.x + 0.0 * w.y + -2.0 * b.x * w.z) == Cross(b, w).y
    ensures 0.5 * (-2.0 * b.y * w.x + 2.0 * b.x * w.y + 0.0 * w.z) == Cross(b, w).z
  {
  }

  /** The same for gravity. */
  lemma RateTurnsGravity(q: Quat, gyro: Vec)
    requires IsUnit(q)
    ensures var turn := Cross(Gravity(q), gyro);
            Slopes(GravityRowX(q), GravityRowY(q), GravityRowZ(q), Rate(q, gyro), turn.x, turn.y, turn.z)
  {
    GravityIsField(q, UP);
    GravityRowsAreFieldRows(q);
    RateTurnsField(q, 0.0, 1.0, gyro);
  }

  lemma GravityRowsAreFieldRows(q: Quat)
    ensures GravityRowX(q) == FieldRowX(q, 0.0, 1.0) && GravityRowY(q) == FieldRowY(q, 0.0, 1.0)
    ensures GravityRowZ(q) == FieldRowZ(q, 0.0, 1.0)
  {
  }

  // ----- the error of the readings

  /**
  Half the squared distance between the readings of a sample and what the attitude p predicts, the field
  against the reference found at q.
  */
  function Error(sqrtf: real -> real, q: Quat, s: Sample, p: Quat): real
    requires IsSqrt(sqrtf) && s.accel != ZERO_VEC
  {
    var a := Unit(sqrtf, s.accel);
    if s.mag == ZERO_VEC then GravityObjective(p, a) else
      var m := Unit(sqrtf, s.mag);
      var h := EarthFrame(q, m);
      GravityObjective(p, a) + FieldObjective(p, m, Horizontal(sqrtf, h.x, h.y), h.z)
  }

  /** The terms of order two and higher of the error along d, divided by t * t. */
  function ErrorRemainder(sqrtf: real -> real, q: Quat, s: Sample, d: Quat, t: real): real
    requires IsSqrt(sqrtf) && s.accel != ZERO_VEC
  {
    var a := Unit(sqrtf, s.accel);
    if s.mag == ZERO_VEC then GravityRemainder(q, a, d, t) else
      var m := Unit(sqrtf, s.mag);
      var h := EarthFrame(q, m);
      GravityRemainder(q, a, d, t) + FieldRemainder(q, m, Horizontal(sqrtf, h.x, h.y), h.z, d, t)
  }

  /** Along any direction the error changes, to first order, by the component of the update's step. */
  lemma ErrorExpands(sqrtf: real -> real, q: Quat, s: Sample, d: Quat, t: real)
    requires IsSqrt(sqrtf) && s.accel != ZERO_VEC
    ensures Expands(Error(sqrtf, q, s, Along(q, t, d)), Error(sqrtf, q, s, q), Dot(StepOf(sqrtf, q, s), d),
                    ErrorRemainder(sqrtf, q, s, d, t), t)
  {
    var a := Unit(sqrtf, s.accel);
    if s.mag == ZERO_VEC {
      GravityStepIsGradient(q, a, d, t);
    } else {
      var m := Unit(sqrtf, s.mag);
      var h := EarthFrame(q, m);
      var bx := Horizontal(sqrtf, h.x, h.y);
      NineAxisStepIsGradient(q, a, m, bx, h.z, d, t);
      FactoredIsTransposed(q, a, m, bx, h.z);
    }
  }

  // ----- downhill

  lemma TailBounded(r: real, l: real, c: real) returns (m: real)
    ensures 0.0 <= m && forall t: real | 0.0 <= t <= 1.0 :: Tail(r, l, c, t) <= m
  {
    m := Size(0.5 * (l * l) + r * c) + Size(l * c) + Size(0.5 * (c * c));
    forall t: real | 0.0 <= t <= 1.0
      ensures Tail(r, l, c, t) <= m
    {
      QuadraticBounded(0.5 * (l * l) + r * c, l * c, 0.5 * (c * c), t);
    }
  }

  function Size(x: real): real { if x < 0.0 then -x else x }

  lemma QuadraticBounded(a: real, b: real, c: real, t: real)
    requires 0.0 <= t <= 1.0
    ensures a + t * b + t * t * c <= Size(a) + Size(b) + Size(c)
  {
    var square := t * t;
    Shrinks(t, b);
    Shrinks(t, t);
    Shrinks(square, c);
    SumBounded(a, t * b, square * c, b, c);
  }

  lemma SumBounded(a: real, u: real, v: real, b: real, c: real)
    requires u <= Size(b) && v <= Size(c)
    ensures a + u + v <= Size(a) + Size(b) + Size(c)
  {
  }

  lemma Shrinks(t: real, b: real)
    requires 0.0 <= t <= 1.0
    ensures t * b <= Size(b) && (0.0 <= b ==> 0.0 <= t * b)
  {
    if 0.0 <= b {
      NonnegativeProduct(t, b, t * b);
      NonnegativeProduct(1.0 - t, b, b - t * b);
    } else {
      NonnegativeProduct(t, -b, -(t * b));
    }
  }

  lemma NonnegativeProduct(a: real, b: real, product: real)
    requires 0.0 <= a && 0.0 <= b && product == a * b
    ensures 0.0 <= product
  {
    if 0.0 < a && 0.0 < b {
      ProductPositive(a, b, product);
    }
  }

  lemma RemainderBounded(r: Vec, l: Vec, c: Vec) returns (m: real)
    ensures 0.0 <= m && forall t: real | 0.0 <= t <= 1.0 :: Remainder(r, l, c, t) <= m
  {
    var x := TailBounded(r.x, l.x, c.x);
    var y := TailBounded(r.y, l.y, c.y);
    var z := TailBounded(r.z, l.z, c.z);
    m := x + y + z;
  }

  lemma ErrorBounded(sqrtf: real -> real, q: Quat, s: Sample, d: Quat) returns (m: real)
    requires IsSqrt(sqrtf) && s.accel != ZERO_VEC
    ensures 0.0 <= m && forall t: real | 0.0 <= t <= 1.0 :: ErrorRemainder(sqrtf, q, s, d, t) <= m
  {
    var a := Unit(sqrtf, s.accel);
    m := RemainderBounded(VecSub(Gravity(q), a), GravitySlopes(q, d), GravityCurvatures(d));
    if s.mag != ZERO_VEC {
      var u := Unit(sqrtf, s.mag);
      var h := EarthFrame(q, u);
      var bx := Horizontal(sqrtf, h.x, h.y);
      var n := RemainderBounded(VecSub(Field(q, bx, h.z), u), FieldSlopes(q, d, bx, h.z), FieldCurvatures(d, bx, h.z));
      m := m + n;
    }
  }

  /** How far a value with this slope and this bound on its remainder keeps falling. */
  lemma Falls(slope: real, m: real) returns (reach: real)
    requires slope < 0.0 <= m
    ensures 0.0 < reach <= 1.0
    ensures forall at: real, value: real, rest: real, t: real
              | 0.0 < t <= reach && Expands(at, value, slope, rest, t) && rest <= m :: at < value
  {
    reach := if m <= -slope / 2.0 then 1.0 else -slope / (2.0 * m);
    assert reach * m <= -slope / 2.0;
    forall at: real, value: real, rest: real, t: real
      | 0.0 < t <= reach && Expands(at, value, slope, rest, t) && rest <= m
      ensures at < value
    {
      FallsAt(at, value, slope, rest, t, m, reach);
    }
  }

  lemma FallsAt(at: real, value: real, slope: real, rest: real, t: real, m: real, reach: real)
    requires slope < 0.0 <= m && 0.0 < t <= reach && reach * m <= -slope / 2.0
    requires Expands(at, value, slope, rest, t) && rest <= m
    ensures at < value
  {
    assert t * (m - rest) >= 0.0;
    assert (reach - t) * m >= 0.0;
    var rise := slope + t * rest;
    assert rise < 0.0;
    ProductPositive(t, -rise, t * -rise);
    assert at == value + t * rise;
  }

  /** Along a direction against the step the error falls, for some distance. */
  lemma ErrorFalls(sqrtf: real -> real, q: Quat, s: Sample, d: Quat) returns (reach: real)
    requires IsSqrt(sqrtf) && s.accel != ZERO_VEC && Dot(StepOf(sqrtf, q, s), d) < 0.0
    ensures 0.0 < reach
    ensures forall t: real | 0.0 < t <= reach :: Error(sqrtf, q, s, Along(q, t, d)) < Error(sqrtf, q, s, q)
  {
    var slope := Dot(StepOf(sqrtf, q, s), d);
    var m := ErrorBounded(sqrtf, q, s, d);
    reach := Falls(slope, m);
    forall t: real | 0.0 < t <= reach
      ensures Error(sqrtf, q, s, Along(q, t, d)) < Error(sqrtf, q, s, q)
    {
      ErrorExpands(sqrtf, q, s, d, t);
      assert ErrorRemainder(sqrtf, q, s, d, t) <= m;
    }
  }

  // ----- what an update does

  /** No correction of length b has a steeper slope. */
  lemma NoSteeper(sqrtf: real -> real, step: Quat, b: real, e: Quat)
    requires IsSqrt(sqrtf) && Norm2(step) != 0.0 && 0.0 < b && Norm2(e) == b * b
    ensures -b * sqrtf(Norm2(step)) <= Dot(step, e)
  {
    var n := Norm2(step);
    Norm2Sign(step);
    assert IsRoot(sqrtf, n);
    InvSqrtDefined(sqrtf, n);
    var u, r := Normalised(sqrtf, step), InvSqrt(sqrtf, n);
    NormalisedIsUnit(sqrtf, step);
    CauchySchwarzUnit(e, u);
    DotWithUnit(e, r, step);
    SlopeBound(sqrtf(n), r, b, Dot(e, u), Dot(step, e));
  }

  lemma DotWithUnit(e: Quat, r: real, step: Quat)
    ensures Dot(e, Scale(r, step)) == r * Dot(step, e)
  {
  }

  lemma SlopeBound(root: real, r: real, b: real, d: real, slope: real)
    requires 0.0 <= root && root != 0.0 && r == 1.0 / root && 0.0 < b && d == r * slope && SquareAtMost(d, b * b)
    ensures -b * root <= slope
  {
    assert r * root == 1.0;
    assert slope == d * root;
    if d < -b {
      StrictlySmallerSquare(b, -d);
    }
    assert (d + b) * root >= 0.0;
  }

  /** The feedback of length b along the normalised step, and against it. */
  lemma FeedbackAgainst(sqrtf: real -> real, step: Quat, b: real, d: Quat)
    requires IsSqrt(sqrtf) && Norm2(step) != 0.0 && 0.0 < b && d == Scale(-b, Normalised(sqrtf, step))
    ensures Norm2(d) == b * b && 0.0 < sqrtf(Norm2(step)) && Dot(step, d) == -b * sqrtf(Norm2(step)) < 0.0
  {
    var n := Norm2(step);
    Norm2Sign(step);
    NormalisedIsUnit(sqrtf, step);
    Norm2Scale(-b, Normalised(sqrtf, step));
    assert IsRoot(sqrtf, n);
    InvSqrtDefined(sqrtf, n);
    DotWithScaled(step, InvSqrt(sqrtf, n), -b, d);
    RootOf(sqrtf(n), InvSqrt(sqrtf, n), n, b);
  }

  /** d has length b and the lowest slope of that length, minus b times the norm of the step. */
  ghost predicate Downhill(sqrtf: real -> real, step: Quat, d: Quat, b: real) {
    && Norm2(d) == b * b && Dot(step, d) == -b * sqrtf(Norm2(step)) && Dot(step, d) < 0.0
    && forall e: Quat | Norm2(e) == b * b :: Dot(step, d) <= Dot(step, e)
  }

  lemma FeedbackIsDownhill(sqrtf: real -> real, step: Quat, b: real, d: Quat)
    requires IsSqrt(sqrtf) && Norm2(step) != 0.0 && 0.0 < b && d == Scale(-b, Normalised(sqrtf, step))
    ensures Downhill(sqrtf, step, d, b)
  {
    FeedbackAgainst(sqrtf, step, b, d);
    forall e: Quat | Norm2(e) == b * b
      ensures -b * sqrtf(Norm2(step)) <= Dot(step, e)
    {
      NoSteeper(sqrtf, step, b, e);
    }
  }

  lemma DotWithScaled(step: Quat, r: real, k: real, d: Quat)
    requires d == Scale(k, Scale(r, step))
    ensures Dot(step, d) == k * (r * Norm2(step))
  {
  }

  lemma RootOf(root: real, r: real, n: real, b: real)
    requires 0.0 <= root && root * root == n && root != 0.0 && r == 1.0 / root && 0.0 < b
    ensures 0.0 < root && r * n == root && -b * (r * n) == -b * root < 0.0
  {
    assert r * root == 1.0;
    assert r * n == (r * root) * root;
    ProductPositive(b, root, b * root);
  }

  /** The attitude reached by the gyroscope alone, before normalisation. */
  function Dead(gains: Gains, q: Quat, gyro: Vec): Quat
    requires gains.Valid()
  {
    Along(q, 1.0 / gains.sampleFreq, Rate(q, gyro))
  }

  /** q' is p made a unit quaternion, pointing the same way. */
  ghost predicate UnitOf(q': Quat, p: Quat) {
    IsUnit(q') && exists k: real :: 0.0 < k && q' == Scale(k, p)
  }

  lemma NormalisedIsUnitOf(sqrtf: real -> real, p: Quat)
    requires IsSqrt(sqrtf) && Norm2(p) != 0.0
    ensures UnitOf(Normalised(sqrtf, p), p)
  {
    NormalisedIsUnit(sqrtf, p);
    Norm2Sign(p);
    InvSqrtSquared(sqrtf, Norm2(p));
  }

  /** A normalised reading is a unit vector that points the same way. */
  lemma UnitIsDirection(sqrtf: real -> real, v: Vec)
    requires IsSqrt(sqrtf) && v != ZERO_VEC
    ensures VecNorm2(Unit(sqrtf, v)) == 1.0
    ensures exists k: real :: 0.0 < k && Unit(sqrtf, v) == VecScale(k, v)
  {
    VecNorm2Sign(v);
    InvSqrtSquared(sqrtf, VecNorm2(v));
    VecNorm2Scale(InvSqrt(sqrtf, VecNorm2(v)), v);
  }

  /** Without an accelerometer reading an update integrates the gyroscope and normalises. */
  lemma UpdateDeadReckons(sqrtf: real -> real, gains: Gains, q: Quat, s: Sample)
    requires IsSqrt(sqrtf) && gains.Valid() && IsUnit(q) && s.accel == ZERO_VEC
    ensures FullUpdate(sqrtf, gains, Attitude(q), s).Attitude?
    ensures UnitOf(FullUpdate(sqrtf, gains, Attitude(q), s).q, Dead(gains, q, s.gyro))
  {
    var next := Integrated(gains, q, Rate(q, s.gyro));
    UncorrectedNorm(gains, q, s.gyro);
    NormalisedIsUnitOf(sqrtf, next);
  }

  /**
  With one, an update that is not lost moves from there by a correction of length beta / sampleFreq whose slope
  on the error of the readings is the steepest one for that length, minus the length times the norm of the step;
  the error falls along it.
  */
  lemma UpdateDescends(sqrtf: real -> real, gains: Gains, q: Quat, s: Sample) returns (d: Quat, reach: real)
    requires IsSqrt(sqrtf) && gains.Valid() && IsUnit(q) && s.accel != ZERO_VEC
    requires FullUpdate(sqrtf, gains, Attitude(q), s).Attitude?
    ensures UnitOf(FullUpdate(sqrtf, gains, Attitude(q), s).q, Add(Dead(gains, q, s.gyro), d))
    ensures Downhill(sqrtf, StepOf(sqrtf, q, s), d, gains.beta / gains.sampleFreq)
    ensures 0.0 < reach
    ensures forall t: real | 0.0 < t <= reach :: Error(sqrtf, q, s, Along(q, t, d)) < Error(sqrtf, q, s, q)
  {
    var step, rate, b := StepOf(sqrtf, q, s), Rate(q, s.gyro), FeedbackLength(gains);
    UpdateStaysUnit(sqrtf, gains, q, s);
    d := Scale(-b, Normalised(sqrtf, step));
    FeedbackIsDownhill(sqrtf, step, b, d);
    LengthIs(gains);
    reach := ErrorFalls(sqrtf, q, s, d);
    CorrectionAdds(sqrtf, gains, q, s, step, d);
  }

  lemma LengthIs(gains: Gains)
    requires gains.Valid()
    ensures FeedbackLength(gains) == gains.beta / gains.sampleFreq
  {
  }

  lemma CorrectionAdds(sqrtf: real -> real, gains: Gains, q: Quat, s: Sample, step: Quat, d: Quat)
    requires IsSqrt(sqrtf) && gains.Valid() && IsUnit(q) && s.accel != ZERO_VEC && step == StepOf(sqrtf, q, s)
    requires Norm2(step) != 0.0 && d == Scale(-FeedbackLength(gains), Normalised(sqrtf, step))
    ensures FullUpdate(sqrtf, gains, Attitude(q), s).Attitude?
    ensures UnitOf(FullUpdate(sqrtf, gains, Attitude(q), s).q, Add(Dead(gains, q, s.gyro), d))
  {
    var rate, k := Rate(q, s.gyro), 1.0 / gains.sampleFreq;
    var next := Integrated(gains, q, Corrected(sqrtf, gains, rate, step));
    CorrectedNorm(sqrtf, gains, q, s.gyro, step, next);
    CorrectedSplits(q, k, rate, gains.beta, Normalised(sqrtf, step), FeedbackLength(gains));
    assert next == Add(Dead(gains, q, s.gyro), d);
    NormalisedIsUnitOf(sqrtf, next);
  }
}
