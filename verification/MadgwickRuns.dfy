/**
Whole runs of the filter: the attitude stays a unit quaternion with the norm before normalisation
bounded on both sides, and the exact condition under which a six-axis run stays defined.
*/
module MadgwickRuns {
  import opened SquareRoot
  import opened Quaternions
  import opened Madgwick

  /** The estimate after feeding the samples in order. */
  function Run(sqrtf: real -> real, gains: Gains, e: Estimate, samples: seq<Sample>): Estimate
    requires IsSqrt(sqrtf) && gains.Valid()
  {
    if samples == [] then e
    else FullUpdate(sqrtf, gains, Run(sqrtf, gains, e, samples[..|samples| - 1]), samples[|samples| - 1])
  }

  // ----- the gyroscope rate and the feedback

  /** The gyroscope rate is orthogonal to the attitude, with half the angular rate as its norm. */
  lemma RateOrthogonal(q: Quat, gyro: Vec)
    ensures Dot(q, Rate(q, gyro)) == 0.0
    ensures Norm2(Rate(q, gyro)) == 0.25 * (Norm2(q) * VecNorm2(gyro))
  {
    var p := Mul(q, Pure(gyro));
    OrthogonalToProduct(q, gyro, p);
    DotScale(q, 0.5, p);
    RateNorm(q, gyro, p);
  }

  lemma RateNorm(q: Quat, gyro: Vec, p: Quat)
    requires p == Mul(q, Pure(gyro))
    ensures Norm2(Scale(0.5, p)) == 0.25 * (Norm2(q) * VecNorm2(gyro))
  {
    Norm2Scale(0.5, p);
    NormMultiplicative(q, Pure(gyro));
    PureNorm(gyro);
  }

  lemma OrthogonalToProduct(q: Quat, g: Vec, p: Quat)
    requires p == Mul(q, Pure(g))
    ensures Dot(q, p) == 0.0
  {
  }

  lemma DotScale(q: Quat, k: real, p: Quat)
    ensures Dot(q, Scale(k, p)) == k * Dot(q, p)
  {
  }

  lemma NormalisedIsUnit(sqrtf: real -> real, q: Quat)
    requires IsSqrt(sqrtf) && Norm2(q) != 0.0
    ensures IsUnit(Normalised(sqrtf, q))
  {
    Norm2Sign(q);
    InvSqrtSquared(sqrtf, Norm2(q));
    Norm2Scale(InvSqrt(sqrtf, Norm2(q)), q);
  }

  // ----- the norm before normalisation

  /** The squared norm after a gyroscope step of length k from a unit attitude: 1 + (k |w| / 2)^2. */
  function Raised(k: real, gyro2: real): real {
    1.0 + 0.25 * (k * k * gyro2)
  }

  lemma GyroStepNorm(q: Quat, k: real, gyro: Vec)
    requires IsUnit(q)
    ensures 1.0 <= Norm2(Add(q, Scale(k, Rate(q, gyro)))) == Raised(k, VecNorm2(gyro))
  {
    RateOrthogonal(q, gyro);
    VecNorm2Sign(gyro);
    OrthogonalStep(q, k, Rate(q, gyro), VecNorm2(gyro));
  }

  lemma OrthogonalStep(q: Quat, k: real, rate: Quat, v: real)
    requires IsUnit(q) && Dot(q, rate) == 0.0 && Norm2(rate) == 0.25 * (Norm2(q) * v) && 0.0 <= v
    ensures 1.0 <= Norm2(Add(q, Scale(k, rate))) == Raised(k, v)
  {
    Norm2Sum(q, k, rate);
    Pythagoras(Norm2(q), k, Dot(q, rate), Norm2(rate), v);
  }

  lemma Pythagoras(q2: real, k: real, dot: real, r2: real, v: real)
    requires q2 == 1.0 && dot == 0.0 && r2 == 0.25 * (q2 * v) && 0.0 <= v
    ensures 1.0 <= SumNorm2(q2, k, dot, r2) == Raised(k, v)
  {
  }

  /** The square root of n2 differs from `root` by at most b. */
  predicate Between(root: real, b: real, n2: real) {
    (root - b) * (root - b) <= n2 <= (root + b) * (root + b)
  }

  /** Subtracting a multiple b of a unit vector changes the norm by at most b. */
  lemma TriangleBounds(u: Quat, root: real, b: real, step: Quat)
    requires IsUnit(step) && 1.0 <= root && root * root == Norm2(u) && 0.0 < b < 1.0
    ensures Between(root, b, Norm2(Add(u, Scale(-b, step))))
  {
    Norm2Sum(u, -b, step);
    CauchySchwarzUnit(u, step);
    Within(Dot(u, step), root, Norm2(u));
    Bounds(Norm2(u), root, b, Dot(u, step), Norm2(step));
  }

  lemma Within(d: real, root: real, n: real)
    requires 0.0 < root && SquareAtMost(d, n) && root * root == n
    ensures -root <= d <= root
  {
    if root < d {
      StrictlySmallerSquare(root, d);
    } else if d < -root {
      StrictlySmallerSquare(root, -d);
    }
  }

  lemma Bounds(u2: real, root: real, b: real, d: real, one: real)
    requires one == 1.0 && u2 == root * root && -root <= d <= root && 0.0 < b
    ensures Between(root, b, SumNorm2(u2, -b, d, one))
  {
  }

  lemma OrderedBySquare(a: real, b: real)
    requires 0.0 <= b && a * a <= b * b
    ensures a <= b
  {
    if b < a {
      StrictlySmallerSquare(b, a);
    }
  }

  // ----- one corrected update

  /** The step length of the feedback, beta / sampleFreq. */
  function FeedbackLength(gains: Gains): (b: real)
    requires gains.Valid()
    ensures 0.0 < b < 1.0
  {
    var k := 1.0 / gains.sampleFreq;
    Fraction(k, gains.beta, gains.sampleFreq, k * gains.beta);
    k * gains.beta
  }

  lemma Fraction(k: real, beta: real, f: real, b: real)
    requires 0.0 < beta < f && 0.0 < k && k * f == 1.0 && b == k * beta
    ensures 0.0 < b < 1.0
  {
  }

  lemma CorrectedSplits(q: Quat, k: real, rate: Quat, beta: real, s: Quat, b: real)
    requires b == k * beta
    ensures Add(q, Scale(k, Add(rate, Scale(-beta, s)))) == Add(Add(q, Scale(k, rate)), Scale(-b, s))
  {
    Distribute(k, rate.w, beta, s.w, b);
    Distribute(k, rate.x, beta, s.x, b);
    Distribute(k, rate.y, beta, s.y, b);
    Distribute(k, rate.z, beta, s.z, b);
  }

  lemma Distribute(k: real, r: real, beta: real, s: real, b: real)
    requires b == k * beta
    ensures k * (r + -beta * s) == k * r + -b * s
  {
  }

  /** The norm, a root of n2, is within b of a gyroscope norm that is at least 1. */
  predicate NormWithin(norm: real, n2: real, gyroNorm: real, b: real) {
    0.0 < n2 && norm * norm == n2 && 1.0 <= gyroNorm && 0.0 < 1.0 - b <= norm && gyroNorm - b <= norm <= gyroNorm + b
  }

  /**
  The norm before normalisation: within beta / f of the norm of the gyroscope step alone, so at least
  1 - beta / f and never zero.
  */
  lemma CorrectedNorm(sqrtf: real -> real, gains: Gains, q: Quat, gyro: Vec, step: Quat, next: Quat)
    requires IsSqrt(sqrtf) && gains.Valid() && IsUnit(q) && Norm2(step) != 0.0
    requires next == Integrated(gains, q, Corrected(sqrtf, gains, Rate(q, gyro), step))
    ensures NormWithin(sqrtf(Norm2(next)), Norm2(next), sqrtf(Raised(1.0 / gains.sampleFreq, VecNorm2(gyro))),
                       FeedbackLength(gains))
    ensures 0.0 < Norm2(next)
  {
    var k, unit, b := 1.0 / gains.sampleFreq, Normalised(sqrtf, step), FeedbackLength(gains);
    NormalisedIsUnit(sqrtf, step);
    GyroStepNorm(q, k, gyro);
    CorrectedSplits(q, k, Rate(q, gyro), gains.beta, unit, b);
    var raised := Raised(k, VecNorm2(gyro));
    BetweenAfter(sqrtf, Add(q, Scale(k, Rate(q, gyro))), raised, b, unit, next, Norm2(next));
    RootOfBetween(sqrtf, sqrtf(raised), b, Norm2(next));
  }

  lemma BetweenAfter(sqrtf: real -> real, u: Quat, n: real, b: real, unit: Quat, next: Quat, n2: real)
    requires IsSqrt(sqrtf) && 1.0 <= n == Norm2(u) && 0.0 < b < 1.0 && IsUnit(unit) && next == Add(u, Scale(-b, unit))
    requires n2 == Norm2(next)
    ensures 1.0 <= sqrtf(n) && Between(sqrtf(n), b, n2) && 0.0 <= n2
  {
    RootOfOneOrMore(sqrtf, n);
    TriangleBounds(u, sqrtf(n), b, unit);
    Norm2Sign(next);
  }

  lemma RootOfOneOrMore(sqrtf: real -> real, n: real)
    requires IsSqrt(sqrtf) && 1.0 <= n
    ensures 1.0 <= sqrtf(n) && sqrtf(n) * sqrtf(n) == n
  {
    assert IsRoot(sqrtf, n);
    RootAtLeastOne(sqrtf(n), n);
  }

  lemma RootOfBetween(sqrtf: real -> real, root: real, b: real, n2: real)
    requires IsSqrt(sqrtf) && Between(root, b, n2) && 1.0 <= root && 0.0 < b < 1.0 && 0.0 <= n2
    ensures NormWithin(sqrtf(n2), n2, root, b)
  {
    assert IsRoot(sqrtf, n2);
    RootBetween(root, b, n2, sqrtf(n2));
  }

  lemma RootAtLeastOne(root: real, n: real)
    requires 0.0 <= root && root * root == n && 1.0 <= n
    ensures 1.0 <= root
  {
    OrderedBySquare(1.0, root);
  }

  lemma RootBetween(root: real, b: real, n2: real, norm: real)
    requires Between(root, b, n2) && 1.0 <= root && 0.0 < b < 1.0
    requires 0.0 <= norm && norm * norm == n2
    ensures 0.0 < n2 && 1.0 - b <= root - b <= norm <= root + b
  {
    OrderedBySquare(root - b, norm);
    OrderedBySquare(norm, root + b);
    ProductPositive(norm, norm, n2);
  }

  /** A step without feedback has the gyroscope norm exactly. */
  lemma UncorrectedNorm(gains: Gains, q: Quat, gyro: Vec)
    requires gains.Valid() && IsUnit(q)
    ensures 1.0 <= Norm2(Integrated(gains, q, Rate(q, gyro)))
                == Raised(1.0 / gains.sampleFreq, VecNorm2(gyro))
  {
    GyroStepNorm(q, 1.0 / gains.sampleFreq, gyro);
  }

  // ----- updates and runs

  /** The corrective step of an update whose accelerometer reading is not zero. */
  function StepOf(sqrtf: real -> real, q: Quat, s: Sample): Quat
    requires IsSqrt(sqrtf) && s.accel != ZERO_VEC
  {
    if s.mag == ZERO_VEC then GravityStep(q, Unit(sqrtf, s.accel))
    else NineAxisStep(sqrtf, q, Unit(sqrtf, s.accel), Unit(sqrtf, s.mag))
  }

  /** The update divides by the norm of a zero step. */
  predicate StepVanishes(sqrtf: real -> real, q: Quat, s: Sample)
    requires IsSqrt(sqrtf)
  {
    s.accel != ZERO_VEC && Norm2(StepOf(sqrtf, q, s)) == 0.0
  }

  lemma UpdateStaysUnit(sqrtf: real -> real, gains: Gains, q: Quat, s: Sample)
    requires IsSqrt(sqrtf) && gains.Valid() && IsUnit(q)
    ensures FullUpdate(sqrtf, gains, Attitude(q), s).NotANumber? <==> StepVanishes(sqrtf, q, s)
    ensures FullUpdate(sqrtf, gains, Attitude(q), s).Attitude? ==>
              IsUnit(FullUpdate(sqrtf, gains, Attitude(q), s).q)
  {
    var rate := Rate(q, s.gyro);
    if s.accel == ZERO_VEC {
      UncorrectedNorm(gains, q, s.gyro);
      NormalisedIsUnit(sqrtf, Integrated(gains, q, rate));
    } else if !StepVanishes(sqrtf, q, s) {
      var step := StepOf(sqrtf, q, s);
      var next := Integrated(gains, q, Corrected(sqrtf, gains, rate, step));
      CorrectedNorm(sqrtf, gains, q, s.gyro, step, next);
      NormalisedIsUnit(sqrtf, next);
    }
  }

  /** The run is already lost before sample k, or its step at sample k does not vanish. */
  ghost predicate StepStands(sqrtf: real -> real, gains: Gains, e: Estimate, samples: seq<Sample>, k: nat)
    requires IsSqrt(sqrtf) && gains.Valid() && k < |samples|
  {
    var before := Run(sqrtf, gains, e, samples[..k]);
    before.Attitude? ==> !StepVanishes(sqrtf, before.q, samples[k])
  }

  /** No step on the way vanishes. */
  ghost predicate AllStand(sqrtf: real -> real, gains: Gains, e: Estimate, samples: seq<Sample>)
    requires IsSqrt(sqrtf) && gains.Valid()
  {
    forall k: nat | k < |samples| :: StepStands(sqrtf, gains, e, samples, k)
  }

  lemma AllStandLast(sqrtf: real -> real, gains: Gains, e: Estimate, samples: seq<Sample>, n: nat)
    requires IsSqrt(sqrtf) && gains.Valid() && |samples| == n + 1
    ensures AllStand(sqrtf, gains, e, samples)
       <==> AllStand(sqrtf, gains, e, samples[..n]) && StepStands(sqrtf, gains, e, samples, n)
  {
    forall k: nat | k < n
      ensures StepStands(sqrtf, gains, e, samples[..n], k) == StepStands(sqrtf, gains, e, samples, k)
    {
      assert samples[..n][..k] == samples[..k];
    }
  }

  lemma {:induction false} RunIsUnit(sqrtf: real -> real, gains: Gains, q: Quat, samples: seq<Sample>)
    requires IsSqrt(sqrtf) && gains.Valid() && IsUnit(q)
    ensures Run(sqrtf, gains, Attitude(q), samples).Attitude? ==>
              IsUnit(Run(sqrtf, gains, Attitude(q), samples).q)
  {
    if samples != [] {
      var n := |samples| - 1;
      RunIsUnit(sqrtf, gains, q, samples[..n]);
      var before := Run(sqrtf, gains, Attitude(q), samples[..n]);
      if before.Attitude? {
        UpdateStaysUnit(sqrtf, gains, before.q, samples[n]);
      }
    }
  }

  /** The last sample keeps the run a number exactly if it still was one and the step stands. */
  lemma LastStep(sqrtf: real -> real, gains: Gains, q: Quat, samples: seq<Sample>, n: nat)
    requires IsSqrt(sqrtf) && gains.Valid() && IsUnit(q) && |samples| == n + 1
    ensures Run(sqrtf, gains, Attitude(q), samples).Attitude?
       <==> Run(sqrtf, gains, Attitude(q), samples[..n]).Attitude? && StepStands(sqrtf, gains, Attitude(q), samples, n)
  {
    RunIsUnit(sqrtf, gains, q, samples[..n]);
    var before := Run(sqrtf, gains, Attitude(q), samples[..n]);
    if before.Attitude? {
      UpdateStaysUnit(sqrtf, gains, before.q, samples[n]);
    }
  }

  /**
  A run of either filter from a unit attitude stays a number if and only if no step on the way vanishes,
  and its state is then a unit attitude.
  */
  lemma {:induction false} RunStaysUnit(sqrtf: real -> real, gains: Gains, q: Quat, samples: seq<Sample>)
    requires IsSqrt(sqrtf) && gains.Valid() && IsUnit(q)
    ensures Run(sqrtf, gains, Attitude(q), samples).Attitude?
       <==> AllStand(sqrtf, gains, Attitude(q), samples)
    ensures Run(sqrtf, gains, Attitude(q), samples).Attitude? ==>
              IsUnit(Run(sqrtf, gains, Attitude(q), samples).q)
  {
    RunIsUnit(sqrtf, gains, q, samples);
    if samples != [] {
      var n := |samples| - 1;
      RunStaysUnit(sqrtf, gains, q, samples[..n]);
      AllStandLast(sqrtf, gains, Attitude(q), samples, n);
      LastStep(sqrtf, gains, q, samples, n);
    }
  }

  /** A lost estimate stays lost. */
  lemma {:induction false} LostForGood(sqrtf: real -> real, gains: Gains, e: Estimate, samples: seq<Sample>, k: nat)
    requires IsSqrt(sqrtf) && gains.Valid() && k <= |samples|
    requires Run(sqrtf, gains, e, samples[..k]) == NotANumber
    ensures Run(sqrtf, gains, e, samples) == NotANumber
    decreases |samples|
  {
    if k == |samples| {
      assert samples[..k] == samples;
    } else {
      var init := samples[..|samples| - 1];
      assert init[..k] == samples[..k];
      LostForGood(sqrtf, gains, e, init, k);
    }
  }
}
