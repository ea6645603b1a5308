/**
The command-to-motor safety protocol: the /cmd_vel callback, the safety monitor thread and the control
loop thread, interleaved at every lock-protected access, together with the clock and the rest of the
firmware. Each thread has a program counter that carries the local variables it still needs.
*/
module Protocol {
  import opened Fault
  import opened Kinematics
  import opened RobotCommand
  import opened StateMachine
  import opened TimeUtils

  const CMD_TIMEOUT_MS := 500
  const UNDERVOLTAGE_V := 10.5

  /** cmd_vel_callback (apps/rover_controller/src/ros/subscribers/cmd_vel_sub.c). */
  datatype CallbackPc = CallbackIdle | CommandStored | SawIdle | Permitted

  /** safety_monitor_evaluate and the feed (apps/rover_controller/src/safety/safety_monitor.c). */
  datatype MonitorPc =
    | MonitorAsleep
    | Judging(read: Command)
    | PostingTimeout(expired: bool)
    | ReadingInputs
    | PostingAgent(connected: bool, volts: real)
    | PostingVoltage(low: bool)
    | CheckingIn
    | Feeding

  /** control_loop_run_once (apps/rover_controller/src/app/control_loop.c). */
  datatype ControlPc =
    | ControlAsleep
    | GotCommand(target: Twist)
    | SawActive(target: Twist)
    | Denied
    | Sending(target: Twist, next: nat)

  /**
  Everything the threads share, and the program counters. A motor is known by the target whose wheel
  velocity it was sent last (`driven`); `MotorVelocity` is that velocity.
  */
  datatype State = State(
    clock: int,
    cell: Command,
    faults: set<FaultBit>,
    life: Lifecycle,
    agent: bool,
    battery: real,
    safetyIn: bool,
    controlIn: bool,
    driven: seq<Twist>,
    callback: CallbackPc,
    monitor: MonitorPc,
    control: ControlPc)

  const STOP := Twist(0.0, 0.0)

  /** The velocity motor i was sent last. */
  function MotorVelocity(s: State, i: nat): real
    requires i < NUM_MOTORS == |s.driven|
  {
    WheelVelocities(ROVER, s.driven[i])[i]
  }

  /** The velocity a send step puts on its motor: one entry of the array computed from the pass's target. */
  function Velocity(s: State): real
    requires s.control.Sending? && s.control.next < NUM_MOTORS
  {
    WheelVelocities(ROVER, s.control.target)[s.control.next]
  }

  /** After initialisation: BOOT, a zero fault word, an invalid command, every thread at its start. */
  predicate Initial(s: State) {
    && s.cell == NO_COMMAND && s.faults == {} && s.life == Boot && !s.agent && s.battery == 0.0
    && !s.safetyIn && !s.controlIn && s.driven == [STOP, STOP, STOP, STOP]
    && s.callback == CallbackIdle && s.monitor == MonitorAsleep && s.control == ControlAsleep
    && 0 <= s.clock
  }

  datatype Event =
    // the environment
    | Tick
    | SetAgent(connected: bool)
    | SetBattery(volts: real)
    | Request(target: Lifecycle)
    | RaiseFaults(bits: set<FaultBit>)
    // the callback
    | CallbackStore(linear: real, angular: real)
    | CallbackReadState
    | CallbackReadFaults
    | CallbackActivate
    // the monitor
    | MonitorGet
    | MonitorJudge
    | MonitorPostTimeout
    | MonitorReadInputs
    | MonitorPostAgent
    | MonitorPostVoltage
    | MonitorCheckIn
    | MonitorFeed
    // the control loop
    | ControlGet
    | ControlReadState
    | ControlReadFaults
    | ControlZero
    | ControlSend
    | ControlCheckIn

  predicate Inhibited(s: State) {
    s.faults * MOTION_FAULTS != {}
  }

  predicate Enabled(s: State, e: Event) {
    match e
    case Tick => true
    case SetAgent(_) => true
    case SetBattery(_) => true
    case Request(_) => true
    case RaiseFaults(_) => true
    case CallbackStore(_, _) => s.callback == CallbackIdle
    case CallbackReadState => s.callback == CommandStored
    case CallbackReadFaults => s.callback == SawIdle
    case CallbackActivate => s.callback == Permitted
    case MonitorGet => s.monitor == MonitorAsleep
    case MonitorJudge => s.monitor.Judging?
    case MonitorPostTimeout => s.monitor.PostingTimeout?
    case MonitorReadInputs => s.monitor == ReadingInputs
    case MonitorPostAgent => s.monitor.PostingAgent?
    case MonitorPostVoltage => s.monitor.PostingVoltage?
    case MonitorCheckIn => s.monitor == CheckingIn
    case MonitorFeed => s.monitor == Feeding
    case ControlGet => s.control == ControlAsleep
    case ControlReadState => s.control.GotCommand?
    case ControlReadFaults => s.control.SawActive?
    case ControlZero => s.control == Denied
    case ControlSend => s.control.Sending? && s.control.next < NUM_MOTORS == |s.driven|
    case ControlCheckIn => s.control.Sending? && s.control.next == NUM_MOTORS
  }

  /** fault_set or fault_clear of one fault. */
  function Post(faults: set<FaultBit>, b: FaultBit, raise: bool): set<FaultBit> {
    if raise then faults + {b} else faults - {b}
  }

  function Requested(s: State, target: Lifecycle): State {
    s.(life := After(s.life, target), faults := FaultsAfter(s.life, target, s.faults))
  }

  function Expired(c: Command, now: int): bool {
    !c.valid || IsExpired(now, c.stamp, CMD_TIMEOUT_MS)
  }

  predicate LowVoltage(volts: real) {
    0.0 < volts < UNDERVOLTAGE_V
  }

  function Next(s: State, e: Event): State
    requires Enabled(s, e)
  {
    match e
    case Tick => s.(clock := s.clock + 1)
    case SetAgent(c) => s.(agent := c)
    case SetBattery(v) => s.(battery := v)
    case Request(t) => Requested(s, t)
    case RaiseFaults(bits) => s.(faults := s.faults + bits)

    case CallbackStore(l, a) => s.(cell := Stored(l, a, s.clock), callback := CommandStored)
    case CallbackReadState => s.(callback := if s.life == Idle then SawIdle else CallbackIdle)
    case CallbackReadFaults => s.(callback := if Inhibited(s) then CallbackIdle else Permitted)
    case CallbackActivate => Requested(s, Active).(callback := CallbackIdle)

    case MonitorGet => s.(monitor := Judging(s.cell))
    case MonitorJudge => s.(monitor := PostingTimeout(Expired(s.monitor.read, s.clock)))
    case MonitorPostTimeout => s.(faults := Post(s.faults, CmdTimeout, s.monitor.expired), monitor := ReadingInputs)
    case MonitorReadInputs => s.(monitor := PostingAgent(s.agent, s.battery))
    case MonitorPostAgent =>
      s.(faults := Post(s.faults, AgentLost, !s.monitor.connected),
         monitor := PostingVoltage(LowVoltage(s.monitor.volts)))
    case MonitorPostVoltage => s.(faults := Post(s.faults, Undervoltage, s.monitor.low), monitor := CheckingIn)
    case MonitorCheckIn => s.(safetyIn := true, monitor := Feeding)
    case MonitorFeed => s.(safetyIn := false, controlIn := false, monitor := MonitorAsleep)

    case ControlGet => s.(control := GotCommand(s.cell.twist))
    case ControlReadState => s.(control := if s.life == Active then SawActive(s.control.target) else Denied)
    case ControlReadFaults =>
      s.(control := if Inhibited(s) then Denied else Sending(s.control.target, 0))
    case ControlZero => s.(cell := Zeroed(s.clock), control := Sending(STOP, 0))
    case ControlSend =>
      s.(driven := s.driven[s.control.next := s.control.target],
         control := Sending(s.control.target, s.control.next + 1))
    case ControlCheckIn => s.(controlIn := true, control := ControlAsleep)
  }

  // ----- runs

  datatype Run = Run(states: seq<State>, events: seq<Event>)

  /** Event i is possible where it happens, and leads to the next state. */
  ghost predicate Follows(r: Run, i: nat)
    requires i < |r.events| && |r.states| == |r.events| + 1
  {
    Enabled(r.states[i], r.events[i]) && r.states[i + 1] == Next(r.states[i], r.events[i])
  }

  /** The states follow each other by the events; the first one is arbitrary. */
  ghost predicate IsRun(r: Run) {
    |r.states| == |r.events| + 1 && forall i: nat | i < |r.events| :: Follows(r, i)
  }

  lemma StepAt(r: Run, k: nat)
    requires IsRun(r) && k < |r.events|
    ensures Enabled(r.states[k], r.events[k]) && r.states[k + 1] == Next(r.states[k], r.events[k])
  {
    assert Follows(r, k);
  }

  /** The event takes the lifecycle out of FAULT or ESTOP and clears the fault word. */
  predicate Resets(s: State, e: Event) {
    e.Request? && IsReset(s.life, e.target)
  }
}
