/** No motor moves without a permission read in the same control pass, under every interleaving. */
module ProtocolGating {
  import opened Fault
  import opened Kinematics
  import opened RobotCommand
  import opened StateMachine
  import opened Protocol

  // ----- what every reachable state satisfies

  /** Targets are accepted commands, an invalid one is zero, the send counter is in range, no stamp is in the future. */
  predicate WellFormed(s: State) {
    && Accepted(s.cell.twist) && |s.driven| == NUM_MOTORS
    && (s.control.GotCommand? || s.control.SawActive? ==> Accepted(s.control.target))
    && (s.control.Sending? ==> Accepted(s.control.target) && s.control.next <= NUM_MOTORS)
    && s.cell.stamp <= s.clock && (!s.cell.valid ==> s.cell.twist == Twist(0.0, 0.0))
    && (s.monitor.Judging? ==> s.monitor.read.stamp <= s.clock)
  }

  lemma NextWellFormed(s: State, e: Event)
    requires WellFormed(s) && Enabled(s, e)
    ensures WellFormed(Next(s, e))
  {
    if e.CallbackStore? {
      StoredIsAccepted(e.linear, e.angular, s.clock);
    }
  }

  /** Every state of every run satisfies it. */
  lemma {:induction false} RunWellFormed(r: Run, k: nat)
    requires IsRun(r) && Initial(r.states[0]) && k < |r.states|
    ensures WellFormed(r.states[k])
  {
    if k > 0 {
      RunWellFormed(r, k - 1);
      StepAt(r, k - 1);
      NextWellFormed(r.states[k - 1], r.events[k - 1]);
    }
  }

  /** Every velocity a motor ever holds is within the motor limits. */
  lemma VelocityBounded(r: Run, k: nat, i: nat)
    requires IsRun(r) && Initial(r.states[0]) && k < |r.states| && i < NUM_MOTORS
    ensures |r.states[k].driven| == NUM_MOTORS && Abs(MotorVelocity(r.states[k], i)) <= ROVER.maxWheel
  {
    RunWellFormed(r, k);
  }

  // ----- the command cell

  predicate WritesCell(e: Event) {
    e.CallbackStore? || e == ControlZero
  }

  /** A valid command was stored by a callback, and nothing has overwritten it since. */
  lemma {:induction false} CellHistory(r: Run, k: nat) returns (c: nat)
    requires IsRun(r) && Initial(r.states[0]) && k < |r.states| && r.states[k].cell.valid
    ensures c < k && r.events[c].CallbackStore?
    ensures r.states[k].cell == Stored(r.events[c].linear, r.events[c].angular, r.states[c].clock)
    ensures forall j | c < j < k :: !WritesCell(r.events[j])
  {
    StepAt(r, k - 1);
    if r.events[k - 1].CallbackStore? {
      c := k - 1;
    } else {
      c := CellHistory(r, k - 1);
    }
  }

  // ----- what a motor holds

  /** A send step changes one motor, to the pass's target. */
  lemma SendDrivesOneMotor(s: State, next: State, i: nat)
    requires Enabled(s, ControlSend) && next == Next(s, ControlSend) && i < NUM_MOTORS
    ensures |next.driven| == NUM_MOTORS
    ensures next.driven[i] == if i == s.control.next then s.control.target else s.driven[i]
  {
  }

  lemma OthersDriveNothing(s: State, e: Event, next: State)
    requires Enabled(s, e) && next == Next(s, e) && e != ControlSend
    ensures next.driven == s.driven
  {
  }

  /** Event k sends motor i a velocity. */
  ghost predicate SendsTo(r: Run, k: nat, i: nat)
    requires IsRun(r)
  {
    k < |r.events| && r.events[k] == ControlSend && r.states[k].control.Sending? && r.states[k].control.next == i
  }

  /** A motor that is not stopped is driven to the target of the last send to it. */
  lemma {:induction false} LastSend(r: Run, k: nat, i: nat) returns (j: nat)
    requires IsRun(r) && Initial(r.states[0]) && k < |r.states| && i < NUM_MOTORS
    requires |r.states[k].driven| == NUM_MOTORS && r.states[k].driven[i] != STOP
    ensures j < k && SendsTo(r, j, i) && r.states[k].driven[i] == r.states[j].control.target
    ensures forall l | j < l < k :: !SendsTo(r, l, i)
  {
    j := 0;
    if k > 0 {
      StepAt(r, k - 1);
      var s := r.states[k - 1];
      if r.events[k - 1] == ControlSend {
        SendDrivesOneMotor(s, r.states[k], i);
        if s.control.next == i {
          j := k - 1;
        } else {
          j := LastSend(r, k - 1, i);
        }
      } else {
        OthersDriveNothing(s, r.events[k - 1], r.states[k]);
        j := LastSend(r, k - 1, i);
      }
    }
  }

  lemma TurningIsDriven(s: State, i: nat)
    requires i < NUM_MOTORS == |s.driven| && MotorVelocity(s, i) != 0.0
    ensures s.driven[i] != STOP
  {
    ZeroCommandStops(ROVER, i);
  }

  /** The step a control pass takes next. */
  function ControlStep(s: State): Event {
    match s.control
    case ControlAsleep => ControlGet
    case GotCommand(_) => ControlReadState
    case SawActive(_) => ControlReadFaults
    case Denied => ControlZero
    case Sending(_, n) => if n == NUM_MOTORS then ControlCheckIn else ControlSend
  }

  predicate IsControl(e: Event) {
    || e.ControlGet? || e.ControlReadState? || e.ControlReadFaults?
    || e.ControlZero? || e.ControlSend? || e.ControlCheckIn?
  }

  /** The control thread can always take exactly one step: it never blocks, whatever the others do. */
  lemma ControlNeverBlocks(r: Run, k: nat, e: Event)
    requires IsRun(r) && Initial(r.states[0]) && k < |r.states| && IsControl(e)
    ensures Enabled(r.states[k], e) <==> e == ControlStep(r.states[k])
  {
    RunWellFormed(r, k);
  }

  // ----- the history of a control pass

  /** A control pass read the command at g, ACTIVE at a, no motion fault at f, and is still the current one at k. */
  ghost predicate PermittedPass(r: Run, g: nat, a: nat, f: nat, k: nat)
    requires IsRun(r)
  {
    && g < a < f < k < |r.states|
    && r.events[g] == ControlGet
    && r.events[a] == ControlReadState && r.states[a].life == Active
    && r.events[f] == ControlReadFaults && !Inhibited(r.states[f])
    && forall j | g < j < k :: r.events[j] != ControlGet
  }

  lemma {:induction false} GotCommandHistory(r: Run, k: nat) returns (g: nat)
    requires IsRun(r) && r.states[0].control == ControlAsleep
    requires k < |r.states| && r.states[k].control.GotCommand?
    ensures g < k && r.events[g] == ControlGet && (forall j | g < j < k :: r.events[j] != ControlGet)
    ensures r.states[k].control.target == r.states[g].cell.twist
  {
    var e := r.events[k - 1];
    StepAt(r, k - 1);
    if e == ControlGet {
      g := k - 1;
    } else {
      g := GotCommandHistory(r, k - 1);
    }
  }

  lemma {:induction false} SawActiveHistory(r: Run, k: nat) returns (g: nat, a: nat)
    requires IsRun(r) && r.states[0].control == ControlAsleep
    requires k < |r.states| && r.states[k].control.SawActive?
    ensures g < a < k && r.events[g] == ControlGet && (forall j | g < j < k :: r.events[j] != ControlGet)
    ensures r.events[a] == ControlReadState && r.states[a].life == Active
    ensures r.states[k].control.target == r.states[g].cell.twist
  {
    var e := r.events[k - 1];
    StepAt(r, k - 1);
    if e == ControlReadState {
      g := GotCommandHistory(r, k - 1);
      a := k - 1;
    } else {
      g, a := SawActiveHistory(r, k - 1);
    }
  }

  /** A pass that is sending is sending zeros, or it was permitted and sends the command it read. */
  lemma {:induction false} SendingHistory(r: Run, k: nat) returns (g: nat, a: nat, f: nat)
    requires IsRun(r) && r.states[0].control == ControlAsleep
    requires k < |r.states| && r.states[k].control.Sending?
    ensures r.states[k].control.target == STOP
         || (PermittedPass(r, g, a, f, k) && r.states[k].control.target == r.states[g].cell.twist)
  {
    var e := r.events[k - 1];
    StepAt(r, k - 1);
    g, a, f := 0, 0, 0;
    if e == ControlReadFaults {
      g, a := SawActiveHistory(r, k - 1);
      f := k - 1;
    } else if e != ControlZero {
      g, a, f := SendingHistory(r, k - 1);
    }
  }

  /** The next send puts a nonzero velocity on its motor. */
  predicate Moves(s: State) {
    s.control.Sending? && s.control.next < NUM_MOTORS && Velocity(s) != 0.0
  }

  /** Event k sends a nonzero velocity. */
  ghost predicate MovesAt(r: Run, k: nat)
    requires IsRun(r)
  {
    k < |r.events| && r.events[k] == ControlSend && Moves(r.states[k])
  }

  /**
  Every nonzero velocity belongs to a control pass that itself read ACTIVE and afterwards read a fault
  word without any motion fault, and the pass sends the wheel velocities of the command it read.
  */
  lemma SendsAreGated(r: Run, k: nat) returns (g: nat, a: nat, f: nat)
    requires IsRun(r) && r.states[0].control == ControlAsleep && MovesAt(r, k)
    ensures PermittedPass(r, g, a, f, k)
    ensures r.states[k].control.target == r.states[g].cell.twist
  {
    MovingIsSending(r.states[k]);
    g, a, f := SendingHistory(r, k);
  }

  /**
  A wheel that turns was last sent its velocity by a pass that had read ACTIVE and then no motion fault, and
  turns as that pass's command demands: one that a callback stored and nothing overwrote before the pass read it.
  */
  lemma TurningWheelWasPermitted(r: Run, k: nat, i: nat) returns (c: nat, g: nat, a: nat, f: nat, j: nat)
    requires IsRun(r) && Initial(r.states[0]) && k < |r.states| && i < NUM_MOTORS
    requires |r.states[k].driven| == NUM_MOTORS && MotorVelocity(r.states[k], i) != 0.0
    ensures j < k && SendsTo(r, j, i) && (forall l | j < l < k :: !SendsTo(r, l, i))
    ensures PermittedPass(r, g, a, f, j)
    ensures c < g && r.events[c].CallbackStore? && (forall l | c < l < g :: !WritesCell(r.events[l]))
    ensures r.states[k].driven[i] == Stored(r.events[c].linear, r.events[c].angular, r.states[c].clock).twist
  {
    TurningIsDriven(r.states[k], i);
    j := LastSend(r, k, i);
    g, a, f := SendingHistory(r, j);
    RunWellFormed(r, g);
    c := CellHistory(r, g);
  }

  lemma StopIsZero(s: State)
    requires s.control.Sending? && s.control.target == STOP
    ensures !Moves(s)
  {
    if s.control.next < NUM_MOTORS {
      ZeroCommandStops(ROVER, s.control.next);
    }
  }

  lemma MovingIsSending(s: State)
    requires Moves(s)
    ensures s.control.Sending? && s.control.target != STOP
  {
    if s.control.target == STOP {
      StopIsZero(s);
    }
  }

  /** Motion fault b is set in every state from n to m. */
  ghost predicate FaultHolds(r: Run, b: FaultBit, n: nat, m: nat)
    requires IsRun(r) && n <= m < |r.states|
  {
    && b in {CmdTimeout, AgentLost, Undervoltage, EstopInput, WatchdogExpired}
    && forall j | n <= j <= m :: b in r.states[j].faults
  }

  lemma FaultInhibits(s: State, b: FaultBit)
    requires b in MOTION_FAULTS && b in s.faults
    ensures Inhibited(s)
  {
    assert b in s.faults * MOTION_FAULTS;
  }

  /** Once a motion fault is set and kept, a pass that starts afterwards moves no motor. */
  lemma FaultStopsLaterPasses(r: Run, b: FaultBit, n: nat, m: nat, p: nat, k: nat)
    requires IsRun(r) && Initial(r.states[0]) && n <= p <= k <= m < |r.states|
    requires FaultHolds(r, b, n, m) && p < |r.events| && r.events[p] == ControlGet
    ensures !MovesAt(r, k)
  {
    forall j | n <= j <= m
      ensures Inhibited(r.states[j])
    {
      FaultInhibits(r.states[j], b);
    }
    if MovesAt(r, k) {
      var g, a, f := SendsAreGated(r, k);
    }
  }

  /** At most one pass, the one in flight when the fault was set, still moves a motor. */
  lemma AtMostOnePassInFlight(r: Run, b: FaultBit, n: nat, m: nat, k: nat, k': nat)
    requires IsRun(r) && Initial(r.states[0]) && n <= k <= k' <= m < |r.states|
    requires FaultHolds(r, b, n, m) && MovesAt(r, k) && MovesAt(r, k')
    ensures forall j | n <= j <= k' :: r.events[j] != ControlGet
  {
    forall j | n <= j <= k'
      ensures r.events[j] != ControlGet
    {
      if r.events[j] == ControlGet {
        FaultStopsLaterPasses(r, b, n, m, j, k');
      }
    }
  }

  /** Outside ACTIVE the same holds: a pass that starts while the lifecycle stays out of ACTIVE moves no motor. */
  lemma InactiveStopsPasses(r: Run, n: nat, m: nat, p: nat, k: nat)
    requires IsRun(r) && Initial(r.states[0]) && n <= p <= k <= m < |r.states|
    requires p < |r.events| && r.events[p] == ControlGet
    requires forall j | n <= j <= m :: r.states[j].life != Active
    ensures !MovesAt(r, k)
  {
    if MovesAt(r, k) {
      var g, a, f := SendsAreGated(r, k);
    }
  }
}
