/** The control loop (apps/rover_controller/src/app/control_loop.c), run without interruption. */
module ControlLoop {
  import opened Fault
  import opened Kinematics
  import opened Odometry
  import opened RobotCommand
  import opened SafetyMonitor
  import opened StateMachine
  import opened Watchdog

  /** What the motor drive answers when asked for a motor's feedback. */
  datatype Report = Delivered(feedback: Feedback) | Failed(rc: int)

  /** A failed request leaves the caller's variable as it was. */
  function Received(report: Report, before: Feedback): Feedback {
    if report.Delivered? then report.feedback else before
  }

  /** The motor drive: the velocity each motor was sent last, and what it would report. */
  class MotorDrive {
    const velocities: array<real>
    const reports: seq<Report>

    ghost predicate Valid() {
      velocities.Length == NUM_MOTORS && |reports| == NUM_MOTORS
    }

    constructor (reports: seq<Report>)
      requires |reports| == NUM_MOTORS
      ensures Valid() && fresh(velocities) && this.reports == reports
    {
      velocities := new real[NUM_MOTORS](_ => 0.0);
      this.reports := reports;
    }

    method SetVelocity(motor: nat, velocity: real)
      requires Valid() && motor < NUM_MOTORS
      modifies velocities
      ensures velocities[..] == old(velocities[..])[motor := velocity]
    {
      velocities[motor] := velocity;
    }

    method GetFeedback(motor: nat, feedback: array<Feedback>) returns (rc: int)
      requires Valid() && motor < NUM_MOTORS == feedback.Length
      modifies feedback
      ensures feedback[..] == old(feedback[..])[motor := Received(reports[motor], old(feedback[motor]))]
      ensures feedback[motor] == match reports[motor] case Delivered(f) => f case Failed(_) => old(feedback[motor])
      ensures rc == if reports[motor].Failed? then reports[motor].rc else 0
    {
      rc := 0;
      match reports[motor]
      case Delivered(f) => feedback[motor] := f;
      case Failed(code) => rc := code;
    }
  }

  /** Whether a pass lets the command through. */
  predicate Permitted(life: Lifecycle, faults: set<FaultBit>) {
    life == Active && faults * MOTION_FAULTS == {}
  }

  /** The target a pass drives the motors to. */
  function Target(life: Lifecycle, faults: set<FaultBit>, c: Command): Twist {
    if Permitted(life, faults) then c.twist else Twist(0.0, 0.0)
  }

  /** The position kept for a motor: the reported one if the report is valid. */
  function Position(kept: real, f: Feedback): real {
    if f.valid then f.position else kept
  }

  class Loop {
    const geometry: Geometry
    const command: CommandCell
    const machine: Machine
    const monitor: Monitor
    const drive: MotorDrive?
    const odometry: Tracker
    // latest_wheel_state
    const velocity: array<real>
    const position: array<real>
    var stamp: int
    var valid: bool

    ghost predicate Valid() {
      && geometry.Valid() && monitor.Valid() && monitor.command == command && monitor.faults == machine.faults
      && velocity.Length == NUM_MOTORS && position.Length == NUM_MOTORS && velocity != position
      && (drive != null ==>
            drive.Valid() && drive.velocities != velocity && drive.velocities != position)
    }

    constructor (geometry: Geometry, command: CommandCell, machine: Machine, monitor: Monitor,
                 drive: MotorDrive?, odometry: Tracker)
      requires geometry.Valid()
      requires monitor.Valid() && monitor.command == command && monitor.faults == machine.faults
      requires drive != null ==> drive.Valid()
      ensures Valid() && !valid && fresh(velocity) && fresh(position)
      ensures this.geometry == geometry && this.command == command && this.machine == machine
      ensures this.monitor == monitor && this.drive == drive && this.odometry == odometry
    {
      this.geometry, this.command, this.machine, this.monitor, this.drive := geometry, command, machine, monitor, drive;
      this.odometry := odometry;
      velocity, position := new real[NUM_MOTORS](_ => 0.0), new real[NUM_MOTORS](_ => 0.0);
      stamp, valid := 0, false;
    }

    /** Reads the command, and zeroes both it and the shared cell unless motion is permitted. */
    method ReadCommand(now: int) returns (cmd: Command)
      requires Valid()
      modifies command
      ensures cmd.twist == Target(machine.current, machine.faults.Active(), old(command.Value()))
      ensures command.Value()
           == if Permitted(machine.current, machine.faults.Active()) then old(command.Value()) else Zeroed(now)
    {
      cmd := command.Get();
      var allowed := machine.MotionAllowed();
      if allowed {
        allowed := monitor.MotionPermitted();
      }
      if !allowed {
        command.Zero(now);
        cmd := cmd.(twist := Twist(0.0, 0.0));
      }
    }

    /** Sends one velocity to each motor. */
    method SendVelocities(wheels: array<real>)
      requires Valid() && wheels.Length == NUM_MOTORS && drive != null && wheels != drive.velocities
      modifies drive.velocities
      ensures drive.velocities[..] == wheels[..]
    {
      var i := 0;
      while i < NUM_MOTORS
        invariant 0 <= i <= NUM_MOTORS
        invariant drive.velocities[..i] == wheels[..i]
      {
        drive.SetVelocity(i, wheels[i]);
        i := i + 1;
      }
    }

    /** The feedback after asking for every motor's, over a variable that held `before`. */
    function Feedbacks(before: seq<Feedback>): seq<Feedback>
      requires drive != null && |drive.reports| == |before|
    {
      seq(|before|, i requires 0 <= i < |before| => Received(drive.reports[i], before[i]))
    }

    /** Reads every motor's report and hands a copy to the safety monitor. */
    method ReadFeedback(feedback: array<Feedback>)
      requires Valid() && feedback.Length == NUM_MOTORS && drive != null && feedback != monitor.feedbackCache
      modifies feedback, monitor.feedbackCache
      ensures feedback[..] == Feedbacks(old(feedback[..])) == monitor.feedbackCache[..]
    {
      var i := 0;
      while i < NUM_MOTORS
        invariant 0 <= i <= NUM_MOTORS
        invariant feedback[..i] == Feedbacks(old(feedback[..]))[..i] && feedback[i..] == old(feedback[i..])
      {
        var _ := drive.GetFeedback(i, feedback);
        i := i + 1;
      }
      monitor.SetMotorFeedback(feedback);
    }

    /** Publishes the wheel state: the commanded velocities, and the positions reported as valid. */
    method UpdateWheelState(wheels: array<real>, feedback: array<Feedback>, now: int)
      requires Valid() && wheels.Length == NUM_MOTORS && feedback.Length == NUM_MOTORS
      requires wheels != velocity && wheels != position
      modifies this, velocity, position
      ensures velocity[..] == wheels[..] && stamp == now && valid
      ensures forall i | 0 <= i < NUM_MOTORS ::
                position[i] == if drive != null then Position(old(position[i]), feedback[i]) else old(position[i])
    {
      var i := 0;
      while i < NUM_MOTORS
        invariant 0 <= i <= NUM_MOTORS
        invariant velocity[..i] == wheels[..i]
        invariant forall k | 0 <= k < i ::
                    position[k] == if drive != null then Position(old(position[k]), feedback[k]) else old(position[k])
        invariant forall k | i <= k < NUM_MOTORS :: position[k] == old(position[k])
      {
        velocity[i] := wheels[i];
        if drive != null && feedback[i].valid {
          position[i] := feedback[i].position;
        }
        i := i + 1;
      }
      stamp := now;
      valid := true;
    }

    /** The wheel velocities of the last pass are those of the target. */
    ghost predicate Commands(t: Twist)
      requires geometry.Valid()
      reads velocity
    {
      velocity[..] == WheelVelocities(geometry, t)
    }

    /** What a pass that found `before` on its stack tells the safety monitor and adds to the wheel positions. */
    ghost predicate Reported(before: seq<Feedback>, positions: seq<real>, cache: seq<Feedback>)
      requires Valid() && |before| == |positions| == NUM_MOTORS
      reads position, monitor.feedbackCache
    {
      if drive == null then
        position[..] == positions && monitor.feedbackCache[..] == cache
      else
        && monitor.feedbackCache[..] == Feedbacks(before)
        && forall i | 0 <= i < NUM_MOTORS :: position[i] == Position(positions[i], Feedbacks(before)[i])
    }

    /**
    The rest of a pass: sends the wheel velocities, reads the feedback into a local variable that holds
    `before`, publishes the wheel state, updates the odometry and checks in.
    */
    method DriveTo(cmd: Command, stampTime: int, before: seq<Feedback>)
      requires Valid() && |before| == NUM_MOTORS
      modifies this, velocity, position, monitor.feedbackCache, monitor.checkins.checkins, odometry
      modifies if drive == null then {} else {drive.velocities}
      ensures Commands(cmd.twist) && (drive != null ==> drive.velocities[..] == velocity[..])
      ensures Reported(before, old(position[..]), old(monitor.feedbackCache[..]))
      ensures stamp == odometry.stamp == stampTime && valid && odometry.valid
      ensures odometry.x == old(odometry.x) && odometry.y == old(odometry.y) && odometry.theta == old(odometry.theta)
      ensures odometry.linear == odometry.angular == 0.0
      ensures monitor.checkins.checkins[CONTROL]
           && monitor.checkins.checkins[SAFETY] == old(monitor.checkins.checkins[SAFETY])
    {
      var wheels := new real[NUM_MOTORS];
      ComputeWheelVelocities(geometry, cmd.twist, wheels);
      var feedback := new Feedback[NUM_MOTORS](i requires 0 <= i < NUM_MOTORS => before[i]);
      assert feedback[..] == before;
      if drive != null {
        SendVelocities(wheels);
        ReadFeedback(feedback);
      }
      UpdateWheelState(wheels, feedback, stampTime);
      odometry.Update(stamp, valid);
      monitor.checkins.CheckIn(CONTROL);
    }

    /** One turn of the control thread, reading the clock as `zeroTime` if it zeroes and `stampTime` at the end. */
    method RunOnce(zeroTime: int, stampTime: int, before: seq<Feedback>)
      requires Valid() && |before| == NUM_MOTORS
      modifies this, command, velocity, position, monitor.feedbackCache, monitor.checkins.checkins, odometry
      modifies if drive == null then {} else {drive.velocities}
      ensures command.Value()
           == if Permitted(machine.current, machine.faults.Active()) then old(command.Value()) else Zeroed(zeroTime)
      ensures Commands(Target(machine.current, machine.faults.Active(), old(command.Value())))
      ensures var permitted := machine.current == Active && machine.faults.Active() <= {Overcurrent, MotorFeedback};
              && Commands(if permitted then old(command.Value()).twist else Twist(0.0, 0.0))
              && (permitted ==> command.Value() == old(command.Value()))
              && (!permitted ==> command.Value() == Command(Twist(0.0, 0.0), zeroTime, false))
      ensures drive != null ==> drive.velocities[..] == velocity[..]
      ensures Reported(before, old(position[..]), old(monitor.feedbackCache[..]))
      ensures drive != null ==> forall i | 0 <= i < NUM_MOTORS ::
                var f := match drive.reports[i] case Delivered(answer) => answer case Failed(_) => before[i];
                monitor.feedbackCache[i] == f && position[i] == if f.valid then f.position else old(position[i])
      ensures stamp == odometry.stamp == stampTime && valid && odometry.valid
      ensures odometry.x == old(odometry.x) && odometry.y == old(odometry.y) && odometry.theta == old(odometry.theta)
      ensures odometry.linear == odometry.angular == 0.0
      ensures monitor.checkins.checkins[CONTROL]
           && monitor.checkins.checkins[SAFETY] == old(monitor.checkins.checkins[SAFETY])
    {
      OnlyOtherFaults(machine.faults.Active());
      var cmd := ReadCommand(zeroTime);
      DriveTo(cmd, stampTime, before);
    }
  }
}
