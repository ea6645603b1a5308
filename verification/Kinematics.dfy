/**
Skid-steer kinematics with per-wheel saturation (apps/rover_controller/src/app/kinematics.c), for any
wheel radius, track width, wheel speed limit and direction signs.
*/
module Kinematics {

  const FRONT_LEFT := 0
  const FRONT_RIGHT := 1
  const REAR_LEFT := 2
  const REAR_RIGHT := 3
  const NUM_MOTORS := 4

  datatype Twist = Twist(linear: real, angular: real)

  /** The physical configuration of the base. */
  datatype Geometry = Geometry(radius: real, track: real, maxWheel: real, signs: seq<real>) {
    predicate Valid() {
      && 0.0 < radius && 0.0 < track && 0.0 < maxWheel
      && |signs| == NUM_MOTORS && forall i | 0 <= i < NUM_MOTORS :: signs[i] == 1.0 || signs[i] == -1.0
    }
  }

  const ROVER := Geometry(0.05, 0.30, 20.0, [1.0, -1.0, 1.0, -1.0])

  // The limits robot_command_set applies to a stored command.
  const MAX_LINEAR := 1.0
  const MAX_ANGULAR := 2.0

  function Clamp(x: real, limit: real): real {
    if limit < x then limit else if x < -limit then -limit else x
  }

  function Abs(x: real): real { if x < 0.0 then -x else x }

  /** Clamping picks the nearest value within the limit. */
  lemma ClampIsNearest(x: real, limit: real, y: real)
    requires 0.0 <= limit && Abs(y) <= limit
    ensures Abs(Clamp(x, limit)) <= limit && Abs(Clamp(x, limit) - x) <= Abs(y - x)
  {
  }

  // ----- the two maps

  /** The speed each side gains or loses when turning. */
  function Spread(track: real, angular: real): real { angular * track / 2.0 }

  /** Ground speed of the left side. */
  function LeftSpeed(g: Geometry, t: Twist): real { t.linear - Spread(g.track, t.angular) }

  /** Ground speed of the right side. */
  function RightSpeed(g: Geometry, t: Twist): real { t.linear + Spread(g.track, t.angular) }

  /** The velocity of one motor whose side is to move at the given ground speed, before saturation. */
  function MotorSpeed(g: Geometry, sign: real, speed: real): real
    requires g.Valid()
  {
    sign * (speed / g.radius)
  }

  /** The ground speed of a side, from the velocity of one of its motors. */
  function GroundSpeed(g: Geometry, sign: real, velocity: real): real
    requires sign != 0.0
  {
    velocity / sign * g.radius
  }

  /** The saturated velocity of one motor. */
  function WheelVelocity(g: Geometry, sign: real, speed: real): real
    requires g.Valid()
  {
    Clamp(MotorSpeed(g, sign, speed), g.maxWheel)
  }

  /** The velocities sent to the motors, indexed by motor. */
  function WheelVelocities(g: Geometry, t: Twist): seq<real>
    requires g.Valid()
  {
    var left, right := LeftSpeed(g, t), RightSpeed(g, t);
    [WheelVelocity(g, g.signs[FRONT_LEFT], left), WheelVelocity(g, g.signs[FRONT_RIGHT], right),
     WheelVelocity(g, g.signs[REAR_LEFT], left), WheelVelocity(g, g.signs[REAR_RIGHT], right)]
  }

  /** The twist recovered from one left and one right motor. */
  function TwistOf(g: Geometry, wheels: seq<real>, left: nat, right: nat): Twist
    requires g.Valid() && |wheels| == NUM_MOTORS && left < NUM_MOTORS && right < NUM_MOTORS
  {
    TwistFrom(g, GroundSpeed(g, g.signs[left], wheels[left]), GroundSpeed(g, g.signs[right], wheels[right]))
  }

  /** The twist of a base whose sides move at the given ground speeds. */
  function TwistFrom(g: Geometry, vLeft: real, vRight: real): Twist
    requires g.Valid()
  {
    Twist((vRight + vLeft) / 2.0, (vRight - vLeft) / g.track)
  }

  /** kinematics_compute_twist uses the front wheels. */
  function FrontTwist(g: Geometry, wheels: seq<real>): Twist
    requires g.Valid() && |wheels| == NUM_MOTORS
  {
    TwistOf(g, wheels, FRONT_LEFT, FRONT_RIGHT)
  }

  method ComputeWheelVelocities(g: Geometry, t: Twist, wheels: array<real>)
    requires g.Valid() && wheels.Length == NUM_MOTORS
    modifies wheels
    ensures wheels[..] == WheelVelocities(g, t)
  {
    var vLeft := LeftSpeed(g, t);
    var vRight := RightSpeed(g, t);

    wheels[FRONT_LEFT] := MotorSpeed(g, g.signs[FRONT_LEFT], vLeft);
    wheels[REAR_LEFT] := MotorSpeed(g, g.signs[REAR_LEFT], vLeft);

    wheels[FRONT_RIGHT] := MotorSpeed(g, g.signs[FRONT_RIGHT], vRight);
    wheels[REAR_RIGHT] := MotorSpeed(g, g.signs[REAR_RIGHT], vRight);

    ghost var raw := wheels[..];
    assert forall k: nat | k < NUM_MOTORS :: Clamp(raw[k], g.maxWheel) == WheelVelocities(g, t)[k];
    var i := 0;
    while i < NUM_MOTORS
      invariant 0 <= i <= NUM_MOTORS
      invariant forall k | 0 <= k < i :: wheels[k] == Clamp(raw[k], g.maxWheel)
      invariant forall k | i <= k < NUM_MOTORS :: wheels[k] == raw[k]
    {
      if wheels[i] > g.maxWheel {
        wheels[i] := g.maxWheel;
      } else if wheels[i] < -g.maxWheel {
        wheels[i] := -g.maxWheel;
      }
      i := i + 1;
    }
  }

  method ComputeTwist(g: Geometry, wheels: array<real>) returns (t: Twist)
    requires g.Valid() && wheels.Length == NUM_MOTORS
    ensures t == FrontTwist(g, wheels[..])
    ensures LeftSpeed(g, t) == GroundSpeed(g, g.signs[FRONT_LEFT], wheels[FRONT_LEFT])
    ensures RightSpeed(g, t) == GroundSpeed(g, g.signs[FRONT_RIGHT], wheels[FRONT_RIGHT])
  {
    var vLeft := GroundSpeed(g, g.signs[FRONT_LEFT], wheels[FRONT_LEFT]);
    var vRight := GroundSpeed(g, g.signs[FRONT_RIGHT], wheels[FRONT_RIGHT]);
    t := TwistFrom(g, vLeft, vRight);
    SidesRecovered(g, vLeft, vRight);
  }

  // ----- saturation, seen at the ground

  /** The ground speed at which a wheel reaches its limit. */
  function SpeedLimit(g: Geometry): real { g.radius * g.maxWheel }

  /** Whatever its direction sign, a saturated wheel moves its side at the clamped ground speed. */
  lemma WheelMovesGround(g: Geometry, sign: real, speed: real)
    requires g.Valid() && (sign == 1.0 || sign == -1.0)
    ensures GroundSpeed(g, sign, WheelVelocity(g, sign, speed)) == Clamp(speed, SpeedLimit(g))
  {
    var w := speed / g.radius;
    SignCancels(sign, w, g.maxWheel, WheelVelocity(g, sign, speed));
    ClampScales(w, g.maxWheel, g.radius, speed);
  }

  lemma SignCancels(sign: real, w: real, limit: real, velocity: real)
    requires (sign == 1.0 || sign == -1.0) && 0.0 < limit && velocity == Clamp(sign * w, limit)
    ensures velocity / sign == Clamp(w, limit)
  {
  }

  lemma ClampScales(x: real, limit: real, k: real, product: real)
    requires 0.0 < limit && 0.0 < k && x == product / k
    ensures Clamp(x, limit) * k == Clamp(product, k * limit)
  {
  }

  /** The twist left after both sides are clamped, with no reference to signs or motor order. */
  function Saturated(g: Geometry, t: Twist): Twist
    requires g.Valid()
  {
    TwistFrom(g, Clamp(LeftSpeed(g, t), SpeedLimit(g)), Clamp(RightSpeed(g, t), SpeedLimit(g)))
  }

  /** Forward then inverse clamps the ground speed of each side; the rear wheels say the same as the front ones. */
  lemma RecoveredTwist(g: Geometry, t: Twist)
    requires g.Valid()
    ensures FrontTwist(g, WheelVelocities(g, t)) == Saturated(g, t)
    ensures TwistOf(g, WheelVelocities(g, t), REAR_LEFT, REAR_RIGHT) == Saturated(g, t)
  {
    var left, right := LeftSpeed(g, t), RightSpeed(g, t);
    WheelMovesGround(g, g.signs[FRONT_LEFT], left);
    WheelMovesGround(g, g.signs[FRONT_RIGHT], right);
    WheelMovesGround(g, g.signs[REAR_LEFT], left);
    WheelMovesGround(g, g.signs[REAR_RIGHT], right);
  }

  /** |v| + (W/2) |w| <= R * wmax. */
  predicate WithinLimits(g: Geometry, t: Twist) {
    Abs(t.linear) + Spread(g.track, Abs(t.angular)) <= SpeedLimit(g)
  }

  /** The round trip is exact if and only if no wheel saturates. */
  lemma RoundTripExactIff(g: Geometry, t: Twist)
    requires g.Valid()
    ensures FrontTwist(g, WheelVelocities(g, t)) == t <==> WithinLimits(g, t)
  {
    RecoveredTwist(g, t);
    ExactSaturated(g, t);
  }

  lemma ExactSaturated(g: Geometry, t: Twist)
    requires g.Valid()
    ensures Saturated(g, t) == t <==> WithinLimits(g, t)
  {
    var m, h := SpeedLimit(g), Spread(g.track, t.angular);
    Positive(g.radius, g.maxWheel);
    SpreadAbs(g.track, t.angular);
    ExactIff(t.linear, t.angular, h, g.track, m, Clamp(LeftSpeed(g, t), m), Clamp(RightSpeed(g, t), m));
  }

  lemma SpreadAbs(track: real, w: real)
    requires 0.0 < track
    ensures Spread(track, Abs(w)) == Abs(Spread(track, w)) && w * track == 2.0 * Spread(track, w)
  {
  }

  lemma ExactIff(v: real, w: real, h: real, track: real, m: real, l: real, r: real)
    requires 0.0 < track && 0.0 < m && w * track == 2.0 * h
    requires l == Clamp(v - h, m) && r == Clamp(v + h, m)
    ensures (r + l) / 2.0 == v && (r - l) / track == w <==> Abs(v) + Abs(h) <= m
  {
  }

  lemma Positive(a: real, b: real)
    requires 0.0 < a && 0.0 < b
    ensures 0.0 < a * b
  {
  }

  /** A motor turning at this velocity moves its side over the ground at this speed, in the direction of its sign. */
  predicate Rolls(g: Geometry, sign: real, velocity: real, speed: real) {
    velocity * g.radius == sign * speed
  }

  /** Ground speed of the side motor i is on: on a turn to the left, slower on the left. */
  function SideSpeed(g: Geometry, t: Twist, i: nat): real {
    if i == FRONT_LEFT || i == REAR_LEFT then t.linear - t.angular * g.track / 2.0
    else t.linear + t.angular * g.track / 2.0
  }

  /** While no wheel saturates each motor rolls at the speed of its side, in the direction of its sign. */
  lemma UnsaturatedWheels(g: Geometry, t: Twist, i: nat)
    requires g.Valid() && WithinLimits(g, t) && i < NUM_MOTORS
    ensures Rolls(g, g.signs[i], WheelVelocities(g, t)[i], SideSpeed(g, t, i))
  {
    SidesWithin(g, t);
    UnsaturatedWheel(g, g.signs[i], SideSpeed(g, t, i));
    WheelOfSide(g, t, i);
  }

  lemma WheelOfSide(g: Geometry, t: Twist, i: nat)
    requires g.Valid() && i < NUM_MOTORS
    ensures WheelVelocities(g, t)[i] == WheelVelocity(g, g.signs[i], SideSpeed(g, t, i))
  {
    assert LeftSpeed(g, t) == SideSpeed(g, t, FRONT_LEFT) && RightSpeed(g, t) == SideSpeed(g, t, FRONT_RIGHT);
    if i == FRONT_LEFT || i == REAR_LEFT {
      assert SideSpeed(g, t, i) == LeftSpeed(g, t);
    } else {
      assert SideSpeed(g, t, i) == RightSpeed(g, t);
    }
  }

  lemma SidesWithin(g: Geometry, t: Twist)
    requires g.Valid() && WithinLimits(g, t)
    ensures Abs(LeftSpeed(g, t)) <= SpeedLimit(g) && Abs(RightSpeed(g, t)) <= SpeedLimit(g)
  {
    SpreadAbs(g.track, t.angular);
  }

  lemma UnsaturatedWheel(g: Geometry, sign: real, speed: real)
    requires g.Valid() && (sign == 1.0 || sign == -1.0) && Abs(speed) <= SpeedLimit(g)
    ensures Rolls(g, sign, WheelVelocity(g, sign, speed), speed)
  {
    QuotientWithin(speed / g.radius, speed, g.radius, g.maxWheel);
    SignedClamp(sign, speed / g.radius, g.maxWheel, speed, g.radius, WheelVelocity(g, sign, speed));
  }

  lemma QuotientWithin(w: real, speed: real, k: real, limit: real)
    requires 0.0 < k && w == speed / k && Abs(speed) <= k * limit
    ensures w * k == speed && Abs(w) <= limit
  {
    assert w * k == speed;
    if limit < w {
      Positive(w - limit, k);
    } else if w < -limit {
      Positive(-limit - w, k);
    }
  }

  lemma SignedClamp(sign: real, w: real, limit: real, speed: real, k: real, velocity: real)
    requires (sign == 1.0 || sign == -1.0) && Abs(w) <= limit && w * k == speed && velocity == Clamp(sign * w, limit)
    ensures velocity * k == sign * speed
  {
  }

  // ----- no command is reversed or amplified

  /** x lies between zero and y. */
  predicate SameDirectionNoLarger(x: real, y: real) {
    (0.0 <= x <= y) || (y <= x <= 0.0)
  }

  /** For every command and geometry, each recovered component lies between zero and the commanded one. */
  lemma NeverReversedNorAmplified(g: Geometry, t: Twist)
    requires g.Valid()
    ensures var back := FrontTwist(g, WheelVelocities(g, t));
            SameDirectionNoLarger(back.linear, t.linear) && SameDirectionNoLarger(back.angular, t.angular)
  {
    RecoveredTwist(g, t);
    SaturatedShrinks(g, t);
  }

  lemma SaturatedShrinks(g: Geometry, t: Twist)
    requires g.Valid()
    ensures SameDirectionNoLarger(Saturated(g, t).linear, t.linear)
    ensures SameDirectionNoLarger(Saturated(g, t).angular, t.angular)
  {
    Positive(g.radius, g.maxWheel);
    SpreadAbs(g.track, t.angular);
    var m := SpeedLimit(g);
    SaturationShrinks(g, t.linear, Spread(g.track, t.angular), m, t.angular,
                      Clamp(LeftSpeed(g, t), m), Clamp(RightSpeed(g, t), m));
  }

  lemma SaturationShrinks(g: Geometry, v: real, h: real, m: real, w: real, l: real, r: real)
    requires g.Valid() && 0.0 < m && w * g.track == 2.0 * h && l == Clamp(v - h, m) && r == Clamp(v + h, m)
    ensures SameDirectionNoLarger(TwistFrom(g, l, r).linear, v)
    ensures SameDirectionNoLarger(TwistFrom(g, l, r).angular, w)
  {
    assert SameDirectionNoLarger(r - l, 2.0 * h);
    DivideBoth(r - l, w, 2.0 * h, g.track);
  }

  lemma DivideBoth(d: real, w: real, e: real, track: real)
    requires 0.0 < track && w * track == e && SameDirectionNoLarger(d, e)
    ensures SameDirectionNoLarger(d / track, w)
  {
    var q := d / track;
    assert q * track == d;
    SignOf(q, track);
    SignOf(w - q, track);
    assert (w - q) * track == e - d;
  }

  lemma SignOf(a: real, k: real)
    requires 0.0 < k
    ensures 0.0 <= a * k <==> 0.0 <= a
    ensures a * k <= 0.0 <==> a <= 0.0
  {
    if 0.0 < a {
      Positive(a, k);
    } else if a < 0.0 {
      Positive(-a, k);
    }
  }

  /** Forward after inverse after forward is forward: what the wheels do is a command they can carry out. */
  lemma ForwardInverseForward(g: Geometry, t: Twist)
    requires g.Valid()
    ensures WheelVelocities(g, FrontTwist(g, WheelVelocities(g, t))) == WheelVelocities(g, t)
  {
    RecoveredTwist(g, t);
    var m := SpeedLimit(g);
    Positive(g.radius, g.maxWheel);
    var vl, vr := Clamp(LeftSpeed(g, t), m), Clamp(RightSpeed(g, t), m);
    SidesRecovered(g, vl, vr);
    ClampedWheel(g, g.signs[FRONT_LEFT], LeftSpeed(g, t));
    ClampedWheel(g, g.signs[FRONT_RIGHT], RightSpeed(g, t));
    ClampedWheel(g, g.signs[REAR_LEFT], LeftSpeed(g, t));
    ClampedWheel(g, g.signs[REAR_RIGHT], RightSpeed(g, t));
  }

  lemma SidesRecovered(g: Geometry, vl: real, vr: real)
    requires g.Valid()
    ensures LeftSpeed(g, TwistFrom(g, vl, vr)) == vl && RightSpeed(g, TwistFrom(g, vl, vr)) == vr
  {
  }

  lemma ClampedWheel(g: Geometry, sign: real, speed: real)
    requires g.Valid() && (sign == 1.0 || sign == -1.0)
    ensures WheelVelocity(g, sign, Clamp(speed, SpeedLimit(g))) == WheelVelocity(g, sign, speed)
  {
    var w, c := speed / g.radius, Clamp(speed, SpeedLimit(g)) / g.radius;
    ClampScales(w, g.maxWheel, g.radius, speed);
    Cancel(c, Clamp(w, g.maxWheel), g.radius, Clamp(speed, SpeedLimit(g)));
    ClampTwice(sign, w, g.maxWheel);
  }

  lemma Cancel(a: real, b: real, k: real, product: real)
    requires 0.0 < k && a == product / k && b * k == product
    ensures a == b
  {
    assert (a - b) * k == 0.0;
  }

  lemma ClampTwice(sign: real, w: real, limit: real)
    requires (sign == 1.0 || sign == -1.0) && 0.0 < limit
    ensures Clamp(sign * Clamp(w, limit), limit) == Clamp(sign * w, limit)
  {
  }

  // ----- the commands the firmware stores

  /** The limits every stored command satisfies. */
  predicate Accepted(t: Twist) {
    Abs(t.linear) <= MAX_LINEAR && Abs(t.angular) <= MAX_ANGULAR
  }

  /** On the rover 1 m/s is 20 rad/s, 1 rad/s is 3 rad/s from a side to the middle, and right motors run reversed. */
  lemma RoverDrives(t: Twist)
    requires WithinLimits(ROVER, t)
    ensures WheelVelocities(ROVER, t)
         == [20.0 * t.linear - 3.0 * t.angular, -20.0 * t.linear - 3.0 * t.angular,
             20.0 * t.linear - 3.0 * t.angular, -20.0 * t.linear - 3.0 * t.angular]
  {
    RoverWheel(t, FRONT_LEFT);
    RoverWheel(t, FRONT_RIGHT);
    RoverWheel(t, REAR_LEFT);
    RoverWheel(t, REAR_RIGHT);
  }

  lemma RoverWheel(t: Twist, i: nat)
    requires WithinLimits(ROVER, t) && i < NUM_MOTORS
    ensures WheelVelocities(ROVER, t)[i]
         == (if i == FRONT_LEFT || i == REAR_LEFT then 20.0 * t.linear else -20.0 * t.linear) - 3.0 * t.angular
  {
    UnsaturatedWheels(ROVER, t, i);
    RoverRolls(ROVER.signs[i], WheelVelocities(ROVER, t)[i], SideSpeed(ROVER, t, i));
  }

  lemma RoverRolls(sign: real, velocity: real, speed: real)
    requires Rolls(ROVER, sign, velocity, speed)
    ensures velocity == 20.0 * (sign * speed)
  {
  }

  predicate LeftSaturates(g: Geometry, t: Twist) { SpeedLimit(g) < Abs(LeftSpeed(g, t)) }

  predicate RightSaturates(g: Geometry, t: Twist) { SpeedLimit(g) < Abs(RightSpeed(g, t)) }

  /** At most one side of the rover saturates, and the recovered twist is within 0.15 m/s and 1 rad/s. */
  lemma SaturationBound(t: Twist)
    requires Accepted(t)
    ensures !(LeftSaturates(ROVER, t) && RightSaturates(ROVER, t))
    ensures var back := FrontTwist(ROVER, WheelVelocities(ROVER, t));
            Abs(back.linear - t.linear) <= 0.15 && Abs(back.angular - t.angular) <= 1.0
  {
    RecoveredTwist(ROVER, t);
  }

  /** Both bounds are attained, by the largest accepted command. */
  lemma SaturationBoundAttained()
    ensures var t := Twist(MAX_LINEAR, MAX_ANGULAR);
            var back := FrontTwist(ROVER, WheelVelocities(ROVER, t));
            Accepted(t) && t.linear - back.linear == 0.15 && t.angular - back.angular == 1.0
  {
  }

  /** A zero command sends zero to every motor. */
  lemma ZeroCommandStops(g: Geometry, i: nat)
    requires g.Valid() && i < NUM_MOTORS
    ensures WheelVelocities(g, Twist(0.0, 0.0))[i] == 0.0
  {
  }
}
