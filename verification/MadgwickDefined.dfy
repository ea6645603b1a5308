/** Exactly which updates and runs stay defined, and what happens at start-up on a level surface. */
module MadgwickDefined {
  import opened SquareRoot
  import opened Quaternions
  import opened Madgwick
  import opened MadgwickGradient
  import opened MadgwickVanishing
  import opened MadgwickBalance
  import opened MadgwickRuns
  import opened MadgwickField

  /**
  With the accelerometer alone: it reads exactly the gravity the attitude predicts, or a vertical reading
  meets an attitude without tilt. With the magnetometer: the two readings balance at the attitude. All of it
  can be tested before the update is called.
  */
  predicate Undefined(sqrtf: real -> real, q: Quat, s: Sample)
    requires IsSqrt(sqrtf)
  {
    s.accel != ZERO_VEC
    && if s.mag == ZERO_VEC then
         || Unit(sqrtf, s.accel) == Gravity(q)
         || (q.x == 0.0 && q.y == 0.0 && s.accel.x == 0.0 && s.accel.y == 0.0)
       else
         Balanced(sqrtf, q, Unit(sqrtf, s.accel), Unit(sqrtf, s.mag))
  }

  /** The step of an update vanishes exactly when the sample is undefined for the attitude. */
  lemma StepVanishesIff(sqrtf: real -> real, q: Quat, s: Sample)
    requires IsSqrt(sqrtf) && IsUnit(q)
    ensures StepVanishes(sqrtf, q, s) <==> Undefined(sqrtf, q, s)
  {
    if s.accel != ZERO_VEC {
      if s.mag == ZERO_VEC {
        GravityStepVanishes(q, Unit(sqrtf, s.accel));
        UnitKeepsSigns(sqrtf, s.accel);
      } else {
        NineAxisStepVanishes(sqrtf, q, Unit(sqrtf, s.accel), Unit(sqrtf, s.mag));
      }
    }
  }

  /** The source guards only against zero readings; it divides zero by zero exactly when `Undefined` holds. */
  lemma UpdateDefined(sqrtf: real -> real, gains: Gains, q: Quat, s: Sample)
    requires IsSqrt(sqrtf) && gains.Valid() && IsUnit(q)
    ensures FullUpdate(sqrtf, gains, Attitude(q), s).NotANumber? <==> Undefined(sqrtf, q, s)
  {
    UpdateStaysUnit(sqrtf, gains, q, s);
    StepVanishesIff(sqrtf, q, s);
  }

  lemma UnitKeepsSigns(sqrtf: real -> real, v: Vec)
    requires IsSqrt(sqrtf) && v != ZERO_VEC
    ensures Unit(sqrtf, v).x == 0.0 <==> v.x == 0.0
    ensures Unit(sqrtf, v).y == 0.0 <==> v.y == 0.0
    ensures Unit(sqrtf, v).z == 0.0 <==> v.z == 0.0
    ensures 0.0 <= Unit(sqrtf, v).x <==> 0.0 <= v.x
  {
    VecNorm2Sign(v);
    InvSqrtSquared(sqrtf, VecNorm2(v));
    var r := InvSqrt(sqrtf, VecNorm2(v));
    SignOfProduct(r, v.x);
    SignOfProduct(r, v.y);
    SignOfProduct(r, v.z);
  }

  lemma SignOfProduct(r: real, x: real)
    requires 0.0 < r
    ensures r * x == 0.0 <==> x == 0.0
    ensures 0.0 <= r * x <==> 0.0 <= x
  {
  }

  /** The estimate before sample k is a number for which the sample is defined, or already lost. */
  ghost predicate DefinedAt(sqrtf: real -> real, gains: Gains, e: Estimate, samples: seq<Sample>, k: nat)
    requires IsSqrt(sqrtf) && gains.Valid() && k < |samples|
  {
    var before := Run(sqrtf, gains, e, samples[..k]);
    before.Attitude? ==> !Undefined(sqrtf, before.q, samples[k])
  }

  /** A run of either filter stays a number, hence a unit attitude, if and only if no sample on the way is undefined. */
  lemma RunDefined(sqrtf: real -> real, gains: Gains, q: Quat, samples: seq<Sample>)
    requires IsSqrt(sqrtf) && gains.Valid() && IsUnit(q)
    ensures Run(sqrtf, gains, Attitude(q), samples).Attitude?
       <==> forall k: nat | k < |samples| :: DefinedAt(sqrtf, gains, Attitude(q), samples, k)
  {
    RunStaysUnit(sqrtf, gains, q, samples);
    forall k: nat | k < |samples|
      ensures DefinedAt(sqrtf, gains, Attitude(q), samples, k) == StepStands(sqrtf, gains, Attitude(q), samples, k)
    {
      var before := Run(sqrtf, gains, Attitude(q), samples[..k]);
      RunStaysUnit(sqrtf, gains, q, samples[..k]);
      if before.Attitude? {
        StepVanishesIff(sqrtf, before.q, samples[k]);
      }
    }
  }

  // ----- a level start

  predicate Vertical(v: Vec) {
    v != ZERO_VEC && v.x == 0.0 && v.y == 0.0
  }

  /**
  The magnetometer readings with which a level first sample is lost: none at all; a field in the plane of
  the forward and vertical axes with its horizontal part forward; and a horizontal field along the forward
  axis either way.
  */
  predicate LosesLevel(m: Vec) {
    m.y == 0.0 && (0.0 <= m.x || m.z == 0.0)
  }

  /** The attitude's sensor axes are the Earth's. */
  ghost predicate Aligned(q: Quat) {
    LevelUnit(q) && KeepsVectors(q) && KeepsField(q)
  }

  predicate LevelUnit(q: Quat) {
    IsUnit(q) && q.x == 0.0 && q.y == 0.0 && Gravity(q) == UP
  }

  predicate Kept(q: Quat, m: Vec) {
    EarthX(q, m) == m.x && EarthY(q, m) == m.y && EarthZ(q, m) == m.z
  }

  ghost predicate KeepsVectors(q: Quat) {
    forall m: Vec :: Kept(q, m)
  }

  ghost predicate KeepsField(q: Quat) {
    forall bx: real, bz: real :: Field(q, bx, bz) == Vec(bx, 0.0, bz)
  }

  lemma IdentityKeepsVectors()
    ensures KeepsVectors(IDENTITY)
  {
    forall m: Vec
      ensures Kept(IDENTITY, m)
    {
      EarthXAtIdentity(m);
      EarthYAtIdentity(m);
      EarthZAtIdentity(m);
    }
  }

  lemma IdentityKeepsField()
    ensures KeepsField(IDENTITY)
  {
    forall bx: real, bz: real
      ensures Field(IDENTITY, bx, bz) == Vec(bx, 0.0, bz)
    {
      FieldAtIdentity(bx, bz);
    }
  }

  lemma IdentityIsLevel()
    ensures LevelUnit(IDENTITY)
  {
  }

  lemma IdentityIsAligned()
    ensures Aligned(IDENTITY)
  {
    IdentityIsLevel();
    IdentityKeepsVectors();
    IdentityKeepsField();
  }

  lemma LevelUndefined(sqrtf: real -> real, q: Quat, s: Sample)
    requires IsSqrt(sqrtf) && Vertical(s.accel) && Aligned(q)
    ensures Undefined(sqrtf, q, s) <==> LosesLevel(s.mag)
  {
    if s.mag != ZERO_VEC {
      UnitKeepsSigns(sqrtf, s.accel);
      UnitKeepsSigns(sqrtf, s.mag);
      assert Kept(q, Unit(sqrtf, s.mag));
      KeptInEarthFrame(q, Unit(sqrtf, s.mag));
      LevelBalanceAgainst(sqrtf, q, Unit(sqrtf, s.accel), Unit(sqrtf, s.mag), Pure(Unit(sqrtf, s.mag)));
    }
  }

  lemma LevelUpdate(sqrtf: real -> real, gains: Gains, q: Quat, s: Sample)
    requires IsSqrt(sqrtf) && gains.Valid() && Vertical(s.accel) && Aligned(q)
    ensures FullUpdate(sqrtf, gains, Attitude(q), s).NotANumber? <==> LosesLevel(s.mag)
  {
    UpdateDefined(sqrtf, gains, q, s);
    LevelUndefined(sqrtf, q, s);
  }

  /** A first sample with a vertical accelerometer reading is lost exactly with these magnetometer readings. */
  lemma LevelStartIff(sqrtf: real -> real, gains: Gains, s: Sample)
    requires IsSqrt(sqrtf) && gains.Valid() && Vertical(s.accel)
    ensures FullUpdate(sqrtf, gains, Attitude(IDENTITY), s).NotANumber? <==> LosesLevel(s.mag)
  {
    IdentityIsAligned();
    LevelUpdate(sqrtf, gains, IDENTITY, s);
  }

  lemma LevelBalanceAgainst(sqrtf: real -> real, q: Quat, a: Vec, m: Vec, h: Quat)
    requires IsSqrt(sqrtf) && a.x == 0.0 && a.y == 0.0 && h == Pure(m) && Gravity(q) == UP
    requires Field(q, Horizontal(sqrtf, m.x, m.y), m.z) == Vec(Horizontal(sqrtf, m.x, m.y), 0.0, m.z)
    ensures BalancedAgainst(sqrtf, q, a, m, h) <==> LosesLevel(m)
  {
    var bx := Horizontal(sqrtf, m.x, m.y);
    HorizontalSquared(sqrtf, m.x, m.y);
    ForwardTorque(m, bx, Vec(bx, 0.0, m.z));
    LevelAtRest(q, a, m, bx, Vec(bx, 0.0, m.z));
  }

  lemma LevelAtRest(q: Quat, a: Vec, m: Vec, bx: real, b: Vec)
    requires a.x == 0.0 && a.y == 0.0 && b == Vec(bx, 0.0, m.z) && Gravity(q) == UP && Field(q, bx, m.z) == b
    ensures AtRest(q, a, m, bx, m.z) <==> Cross(m, b) == ZERO_VEC
  {
    LevelCancels(a, UP, m, b);
  }

  lemma LevelCancels(a: Vec, up: Vec, m: Vec, b: Vec)
    requires a.x == 0.0 && a.y == 0.0 && up == UP
    ensures Cancels(a, up, up, m, b, b) <==> Cross(m, b) == ZERO_VEC
  {
    VerticalCross(a);
    NoStretch(up, a);
    NoStretch(b, m);
    OnlyTorque(Cross(m, b));
  }

  lemma OnlyTorque(t: Vec)
    ensures Cancel(ZERO_VEC, t, 0.0, 0.0) <==> t == ZERO_VEC
  {
  }

  lemma NoStretch(v: Vec, m: Vec)
    ensures Stretch(v, m, v) == 0.0
  {
    assert VecSub(v, v) == ZERO_VEC;
  }

  lemma VerticalCross(a: Vec)
    requires a.x == 0.0 && a.y == 0.0
    ensures Cross(a, UP) == ZERO_VEC
  {
  }

  lemma ForwardTorque(m: Vec, bx: real, b: Vec)
    requires 0.0 <= bx && bx * bx == m.x * m.x + m.y * m.y && b == Vec(bx, 0.0, m.z)
    ensures Cross(m, b) == ZERO_VEC <==> LosesLevel(m)
  {
    ForwardCross(m, bx, b);
    LevelTorque(m, bx);
  }

  lemma ForwardCross(m: Vec, bx: real, b: Vec)
    requires b == Vec(bx, 0.0, m.z)
    ensures Cross(m, b) == Vec(m.y * m.z, m.z * (bx - m.x), -(m.y * bx))
  {
  }

  lemma LevelTorque(m: Vec, bx: real)
    requires 0.0 <= bx && bx * bx == m.x * m.x + m.y * m.y
    ensures m.y * m.z == 0.0 && m.z * (bx - m.x) == 0.0 && m.y * bx == 0.0 <==> LosesLevel(m)
  {
    SquareSign(m.x);
    SquareSign(m.y);
    SquareSign(bx);
    if m.y == 0.0 && 0.0 <= m.x {
      SquaresDetermine(bx, m.x);
    }
  }

  lemma FieldAtIdentity(bx: real, bz: real)
    ensures Field(IDENTITY, bx, bz) == Vec(bx, 0.0, bz)
  {
  }

  lemma KeptInEarthFrame(q: Quat, m: Vec)
    requires Kept(q, m)
    ensures EarthFrame(q, m) == Pure(m)
  {
    EarthFrameExpanded(q, m);
  }

  lemma EarthXAtIdentity(m: Vec)
    ensures EarthX(IDENTITY, m) == m.x
  {
  }

  lemma EarthYAtIdentity(m: Vec)
    ensures EarthY(IDENTITY, m) == m.y
  {
  }

  lemma EarthZAtIdentity(m: Vec)
    ensures EarthZ(IDENTITY, m) == m.z
  {
  }

  /** A level first sample of that kind loses the whole run, whatever comes after it. */
  lemma LevelStartIsLost(sqrtf: real -> real, gains: Gains, samples: seq<Sample>)
    requires IsSqrt(sqrtf) && gains.Valid() && samples != []
    requires Vertical(samples[0].accel) && LosesLevel(samples[0].mag)
    ensures Run(sqrtf, gains, Attitude(IDENTITY), samples) == NotANumber
  {
    LevelStartIff(sqrtf, gains, samples[0]);
    assert samples[..1][..0] == [];
    LostForGood(sqrtf, gains, Attitude(IDENTITY), samples, 1);
  }

  /** So a level sensor in a horizontal field is lost when it points south as when it points north, upside down too. */
  lemma SouthStartIsLost(sqrtf: real -> real, gains: Gains, samples: seq<Sample>, az: real, mx: real)
    requires IsSqrt(sqrtf) && gains.Valid() && samples != [] && az != 0.0
    requires samples[0].accel == Vec(0.0, 0.0, az) && samples[0].mag == Vec(mx, 0.0, 0.0)
    ensures Run(sqrtf, gains, Attitude(IDENTITY), samples) == NotANumber
  {
    LevelStartIsLost(sqrtf, gains, samples);
  }
}
