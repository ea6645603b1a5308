/**
The steps of each thread, taken without interruption, do what the thread's method does: the state machine
of the protocol refines the sequential code.
*/
module ProtocolPasses {
  import opened Fault
  import opened Kinematics
  import opened RobotCommand
  import opened StateMachine
  import opened Protocol
  import SafetyMonitor
  import ControlLoop
  import CmdVel

  /** The events can be taken one after the other from s, and lead to t. */
  predicate Leads(s: State, events: seq<Event>, t: State)
    decreases |events|
  {
    if events == [] then s == t else Enabled(s, events[0]) && Leads(Next(s, events[0]), events[1..], t)
  }

  lemma Then(s: State, e: Event, mid: State, rest: seq<Event>, t: State)
    requires Enabled(s, e) && mid == Next(s, e) && Leads(mid, rest, t)
    ensures Leads(s, [e] + rest, t)
  {
    assert ([e] + rest)[1..] == rest;
  }

  lemma Last(s: State, e: Event, t: State)
    requires Enabled(s, e) && t == Next(s, e)
    ensures Leads(s, [e], t)
  {
    assert [e][1..] == [];
  }

  lemma {:induction false} LeadsOn(s: State, first: seq<Event>, mid: State, second: seq<Event>, t: State)
    requires Leads(s, first, mid) && Leads(mid, second, t)
    ensures Leads(s, first + second, t)
    decreases |first|
  {
    if first == [] {
      assert first + second == second;
    } else {
      LeadsOn(Next(s, first[0]), first[1..], mid, second, t);
      assert (first + second)[1..] == first[1..] + second;
    }
  }

  // ----- the monitor

  const MONITOR_TAIL := [MonitorReadInputs] + ([MonitorPostAgent] + ([MonitorPostVoltage] + [MonitorCheckIn]))

  const MONITOR_REST := [MonitorJudge] + ([MonitorPostTimeout] + MONITOR_TAIL)

  const MONITOR_PASS := [MonitorGet] + MONITOR_REST

  lemma MonitorTail(s: State, t: State)
    requires s.monitor == ReadingInputs
    requires t == s.(faults := Post(Post(s.faults, AgentLost, !s.agent), Undervoltage, LowVoltage(s.battery)),
                     safetyIn := true, monitor := Feeding)
    ensures Leads(s, MONITOR_TAIL, t)
  {
    var a := Next(s, MonitorReadInputs);
    var b := Next(a, MonitorPostAgent);
    var c := Next(b, MonitorPostVoltage);
    Last(c, MonitorCheckIn, t);
    Then(b, MonitorPostVoltage, c, [MonitorCheckIn], t);
    Then(a, MonitorPostAgent, b, [MonitorPostVoltage] + [MonitorCheckIn], t);
    Then(s, MonitorReadInputs, a, [MonitorPostAgent] + ([MonitorPostVoltage] + [MonitorCheckIn]), t);
  }

  /** The part of a monitor pass after the command was read. */
  lemma MonitorRest(s: State, c: Command, t: State)
    requires s.monitor == Judging(c)
    requires t == s.(faults := SafetyMonitor.Evaluated(s.faults, c, s.clock, s.agent, s.battery),
                     safetyIn := true, monitor := Feeding)
    ensures Leads(s, MONITOR_REST, t)
  {
    var a := Next(s, MonitorJudge);
    var b := Next(a, MonitorPostTimeout);
    MonitorTail(b, t);
    Then(a, MonitorPostTimeout, b, MONITOR_TAIL, t);
    Then(s, MonitorJudge, a, [MonitorPostTimeout] + MONITOR_TAIL, t);
  }

  /** An uninterrupted monitor pass posts the three verdicts of `Evaluated` and checks in. */
  lemma MonitorPassEvaluates(s: State, t: State)
    requires s.monitor == MonitorAsleep
    requires t == s.(faults := SafetyMonitor.Evaluated(s.faults, s.cell, s.clock, s.agent, s.battery),
                     safetyIn := true, monitor := Feeding)
    ensures Leads(s, MONITOR_PASS, t)
  {
    var a := Next(s, MonitorGet);
    MonitorRest(a, s.cell, t);
    Then(s, MonitorGet, a, MONITOR_REST, t);
  }

  /** With the feed that follows it, the turn leaves both check-ins cleared. */
  lemma MonitorTurnFeeds(s: State, t: State)
    requires s.monitor == MonitorAsleep
    requires t == s.(faults := SafetyMonitor.Evaluated(s.faults, s.cell, s.clock, s.agent, s.battery),
                     safetyIn := false, controlIn := false)
    ensures Leads(s, MONITOR_PASS + [MonitorFeed], t)
  {
    var mid := s.(faults := SafetyMonitor.Evaluated(s.faults, s.cell, s.clock, s.agent, s.battery),
                  safetyIn := true, monitor := Feeding);
    MonitorPassEvaluates(s, mid);
    Last(mid, MonitorFeed, t);
    LeadsOn(s, MONITOR_PASS, mid, [MonitorFeed], t);
  }

  // ----- the control loop

  const CONTROL_TAIL := [ControlSend] + ([ControlSend] + ([ControlSend] + ([ControlSend] + [ControlCheckIn])))

  /** The steps of a pass depend on what it reads: the second test is made only if the first succeeds. */
  function ControlPass(s: State): seq<Event> {
    [ControlGet] + ([ControlReadState] +
      if s.life != Active then [ControlZero] + CONTROL_TAIL
      else [ControlReadFaults] + if Inhibited(s) then [ControlZero] + CONTROL_TAIL else CONTROL_TAIL)
  }

  lemma ControlTail(s: State, target: Twist, t: State)
    requires s.control == Sending(target, 0) && |s.driven| == NUM_MOTORS
    requires t == s.(driven := [target, target, target, target], controlIn := true, control := ControlAsleep)
    ensures Leads(s, CONTROL_TAIL, t)
  {
    var a := Next(s, ControlSend);
    var b := Next(a, ControlSend);
    var c := Next(b, ControlSend);
    var d := Next(c, ControlSend);
    assert d.driven == [target, target, target, target];
    Last(d, ControlCheckIn, t);
    Then(c, ControlSend, d, [ControlCheckIn], t);
    Then(b, ControlSend, c, [ControlSend] + [ControlCheckIn], t);
    Then(a, ControlSend, b, [ControlSend] + ([ControlSend] + [ControlCheckIn]), t);
    Then(s, ControlSend, a, [ControlSend] + ([ControlSend] + ([ControlSend] + [ControlCheckIn])), t);
  }

  /** The state in which the pass has decided: it sends the command, or it has zeroed it. */
  function Decided(s: State): State {
    if ControlLoop.Permitted(s.life, s.faults) then s.(control := Sending(s.cell.twist, 0))
    else s.(cell := Zeroed(s.clock), control := Sending(STOP, 0))
  }

  /** An uninterrupted control pass drives every motor to its target and keeps the command exactly if permitted. */
  lemma ControlPassDrives(s: State, t: State)
    requires s.control == ControlAsleep && |s.driven| == NUM_MOTORS
    requires var permitted := s.life == Active && s.faults <= {Overcurrent, MotorFeedback};
             var target := if permitted then s.cell.twist else Twist(0.0, 0.0);
             var kept := if permitted then s.cell else Command(Twist(0.0, 0.0), s.clock, false);
             t == s.(cell := kept, driven := [target, target, target, target], controlIn := true)
    ensures Leads(s, ControlPass(s), t)
  {
    OnlyOtherFaults(s.faults);
    var target := ControlLoop.Target(s.life, s.faults, s.cell);
    var d := Decided(s);
    ControlTail(d, target, t);
    var a := Next(s, ControlGet);
    var b := Next(a, ControlReadState);
    if s.life != Active {
      Then(b, ControlZero, d, CONTROL_TAIL, t);
      Then(a, ControlReadState, b, [ControlZero] + CONTROL_TAIL, t);
      Then(s, ControlGet, a, [ControlReadState] + ([ControlZero] + CONTROL_TAIL), t);
    } else {
      ControlActive(s, a, b, d, t);
    }
  }

  lemma ControlActive(s: State, a: State, b: State, d: State, t: State)
    requires s.control == ControlAsleep && s.life == Active && d == Decided(s) && Leads(d, CONTROL_TAIL, t)
    requires a == Next(s, ControlGet) && Enabled(a, ControlReadState) && b == Next(a, ControlReadState)
    ensures Leads(s, ControlPass(s), t)
  {
    var rest := if Inhibited(s) then [ControlZero] + CONTROL_TAIL else CONTROL_TAIL;
    var c := Next(b, ControlReadFaults);
    if Inhibited(s) {
      Then(c, ControlZero, d, CONTROL_TAIL, t);
    }
    Then(b, ControlReadFaults, c, rest, t);
    Then(a, ControlReadState, b, [ControlReadFaults] + rest, t);
    Then(s, ControlGet, a, [ControlReadState] + ([ControlReadFaults] + rest), t);
  }

  // ----- the callback

  /** The steps of a callback depend on what it reads. */
  function CallbackPass(s: State, linear: real, angular: real): seq<Event> {
    [CallbackStore(linear, angular)] + ([CallbackReadState] +
      if s.life != Idle then []
      else [CallbackReadFaults] + if Inhibited(s) then [] else [CallbackActivate])
  }

  /** An uninterrupted callback stores its command and wakes an idle robot that has no motion fault. */
  lemma CallbackPassStores(s: State, linear: real, angular: real, t: State)
    requires s.callback == CallbackIdle
    requires t == s.(cell := Stored(linear, angular, s.clock), life := CmdVel.Woken(s.life, s.faults))
    ensures Leads(s, CallbackPass(s, linear, angular), t)
  {
    var store := CallbackStore(linear, angular);
    var a := Next(s, store);
    var b := Next(a, CallbackReadState);
    if s.life != Idle {
      Last(a, CallbackReadState, t);
      Then(s, store, a, [CallbackReadState] + [], t);
    } else {
      var c := Next(b, CallbackReadFaults);
      var rest := if Inhibited(s) then [] else [CallbackActivate];
      if !Inhibited(s) {
        Last(c, CallbackActivate, t);
      }
      Then(b, CallbackReadFaults, c, rest, t);
      Then(a, CallbackReadState, b, [CallbackReadFaults] + rest, t);
      Then(s, store, a, [CallbackReadState] + ([CallbackReadFaults] + rest), t);
    }
  }
}
