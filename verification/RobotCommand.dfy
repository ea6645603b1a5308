/** The shared command target (apps/rover_controller/src/app/robot_command.c). */
module RobotCommand {
  import opened Kinematics

  /** The latest velocity target, the time it was written and whether it came from a message. */
  datatype Command = Command(twist: Twist, stamp: int, valid: bool)

  const NO_COMMAND := Command(Twist(0.0, 0.0), 0, false)

  /** What a message with the given velocities stores at time `now`. */
  function Stored(linear: real, angular: real, now: int): Command {
    Command(Twist(Clamp(linear, MAX_LINEAR), Clamp(angular, MAX_ANGULAR)), now, true)
  }

  /** What zeroing stores at time `now`. */
  function Zeroed(now: int): Command {
    Command(Twist(0.0, 0.0), now, false)
  }

  /** A stored command is within limits, and a command within limits is stored unchanged. */
  lemma StoredIsAccepted(linear: real, angular: real, now: int)
    ensures Accepted(Stored(linear, angular, now).twist)
    ensures Accepted(Twist(linear, angular)) ==> Stored(linear, angular, now).twist == Twist(linear, angular)
    ensures SameDirectionNoLarger(Stored(linear, angular, now).twist.linear, linear)
    ensures SameDirectionNoLarger(Stored(linear, angular, now).twist.angular, angular)
  {
  }

  /** What is stored is the accepted command nearest the message, component by component. */
  lemma StoredIsNearest(linear: real, angular: real, now: int, t: Twist)
    requires Accepted(t)
    ensures Abs(Stored(linear, angular, now).twist.linear - linear) <= Abs(t.linear - linear)
    ensures Abs(Stored(linear, angular, now).twist.angular - angular) <= Abs(t.angular - angular)
  {
    ClampIsNearest(linear, MAX_LINEAR, t.linear);
    ClampIsNearest(angular, MAX_ANGULAR, t.angular);
  }

  class CommandCell {
    var linear: real
    var angular: real
    var stamp: int
    var valid: bool

    ghost function Value(): Command
      reads this
    {
      Command(Twist(linear, angular), stamp, valid)
    }

    constructor ()
      ensures Value() == NO_COMMAND
    {
      linear, angular, stamp, valid := 0.0, 0.0, 0, false;
    }

    method Set(newLinear: real, newAngular: real, now: int)
      modifies this
      ensures Value() == Stored(newLinear, newAngular, now)
      ensures valid && stamp == now && Abs(linear) <= MAX_LINEAR && Abs(angular) <= MAX_ANGULAR
    {
      linear := newLinear;
      if linear > MAX_LINEAR {
        linear := MAX_LINEAR;
      } else if linear < -MAX_LINEAR {
        linear := -MAX_LINEAR;
      }
      angular := newAngular;
      if angular > MAX_ANGULAR {
        angular := MAX_ANGULAR;
      } else if angular < -MAX_ANGULAR {
        angular := -MAX_ANGULAR;
      }
      stamp := now;
      valid := true;
    }

    method Get() returns (c: Command)
      ensures c == Value()
    {
      c := Command(Twist(linear, angular), stamp, valid);
    }

    method Zero(now: int)
      modifies this
      ensures Value() == Zeroed(now)
      ensures linear == 0.0 && angular == 0.0 && stamp == now && !valid
    {
      linear := 0.0;
      angular := 0.0;
      stamp := now;
      valid := false;
    }
  }
}
