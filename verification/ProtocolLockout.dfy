/**
Recovery from a command timeout is not guaranteed: for any number of messages, however frequent, there is
a run of the protocol in which the robot is ACTIVE, connected and well powered, and never moves.
*/
module ProtocolLockout {
  import opened Fault
  import opened Kinematics
  import opened RobotCommand
  import opened StateMachine
  import opened Protocol
  import opened ProtocolGating
  import opened ProtocolPasses
  import opened ProtocolRecovery
  import SafetyMonitor

  // ----- event sequences as runs

  /** The timeout fault is set in s and in every state the events lead through, and the lifecycle is ACTIVE. */
  predicate TimeoutThroughout(s: State, events: seq<Event>)
    decreases |events|
  {
    && CmdTimeout in s.faults && s.life == Active
    && (events == [] || (Enabled(s, events[0]) && TimeoutThroughout(Next(s, events[0]), events[1..])))
  }

  lemma {:induction false} ThroughoutOn(s: State, first: seq<Event>, mid: State, second: seq<Event>)
    requires Leads(s, first, mid) && TimeoutThroughout(s, first) && TimeoutThroughout(mid, second)
    ensures TimeoutThroughout(s, first + second)
    decreases |first|
  {
    if first == [] {
      assert first + second == second;
    } else {
      ThroughoutOn(Next(s, first[0]), first[1..], mid, second);
      assert (first + second)[1..] == first[1..] + second;
    }
  }

  /** The event neither starts a monitor pass nor requests a transition. */
  predicate Mild(e: Event) {
    e != MonitorGet && !e.Request? && e != CallbackActivate
  }

  predicate Harmless(events: seq<Event>) {
    forall i | 0 <= i < |events| :: Mild(events[i])
  }

  lemma {:induction false} HarmlessKeepsTimeout(s: State, events: seq<Event>, t: State)
    requires Locked(s) && s.life == Active && Leads(s, events, t) && Harmless(events)
    ensures TimeoutThroughout(s, events)
    decreases |events|
  {
    if events != [] {
      var e, next := events[0], Next(s, events[0]);
      HarmlessStep(s, e, next);
      HarmlessKeepsTimeout(next, events[1..], t);
    }
  }

  lemma HarmlessStep(s: State, e: Event, next: State)
    requires Enabled(s, e) && next == Next(s, e) && Locked(s) && s.life == Active
    requires Mild(e)
    ensures Locked(next) && next.life == Active
  {
    NextLocked(s, e, next);
  }

  /** The run of a sequence of events. */
  lemma {:induction false} RunOf(s: State, events: seq<Event>, t: State) returns (r: Run)
    requires Leads(s, events, t)
    ensures IsRun(r) && r.events == events && r.states[0] == s && r.states[|events|] == t
    ensures TimeoutThroughout(s, events) ==>
              forall k | 0 <= k <= |events| :: CmdTimeout in r.states[k].faults && r.states[k].life == Active
    decreases |events|
  {
    if events == [] {
      r := Run([s], []);
    } else {
      var tail := RunOf(Next(s, events[0]), events[1..], t);
      r := Run([s] + tail.states, [events[0]] + tail.events);
      forall i: nat | i < |r.events|
        ensures Follows(r, i)
      {
        if i > 0 {
          StepAt(tail, i - 1);
        }
      }
    }
  }

  // ----- one round

  function Ticks(d: nat): seq<Event> {
    if d == 0 then [] else [Tick] + Ticks(d - 1)
  }

  lemma {:induction false} TicksPass(s: State, d: nat)
    ensures Leads(s, Ticks(d), s.(clock := s.clock + d)) && Harmless(Ticks(d))
    decreases d
  {
    if d > 0 {
      TicksPass(Next(s, Tick), d - 1);
      Then(s, Tick, Next(s, Tick), Ticks(d - 1), s.(clock := s.clock + d));
    }
  }

  /** A message arrives, control runs, the monitor runs, the watchdog is served, and d milliseconds pass. */
  function Round(linear: real, angular: real, d: nat): seq<Event> {
    Refusal(linear, angular) + (MONITOR_PASS + ([MonitorFeed] + Ticks(d)))
  }

  const REFUSED_PASS := [ControlGet] + ([ControlReadState] + ([ControlReadFaults] + ([ControlZero] + CONTROL_TAIL)))

  function Message(linear: real, angular: real): seq<Event> {
    [CallbackStore(linear, angular)] + [CallbackReadState]
  }

  function Refusal(linear: real, angular: real): seq<Event> {
    Message(linear, angular) + REFUSED_PASS
  }

  /** The robot is ACTIVE, connected and powered; only the command timeout is set; every thread is at rest. */
  predicate Stuck(s: State) {
    && s.faults == {CmdTimeout} && s.life == Active && s.agent && s.battery == 12.0 && !s.cell.valid
    && |s.driven| == NUM_MOTORS
    && s.callback == CallbackIdle && s.monitor == MonitorAsleep && s.control == ControlAsleep
  }

  lemma MessageSticks(s: State, linear: real, angular: real) returns (t: State)
    requires Stuck(s)
    ensures t == s.(cell := Stored(linear, angular, s.clock)) && Leads(s, Message(linear, angular), t)
  {
    t := s.(cell := Stored(linear, angular, s.clock));
    var a := Next(s, CallbackStore(linear, angular));
    Last(a, CallbackReadState, t);
    Then(s, CallbackStore(linear, angular), a, [CallbackReadState], t);
  }

  lemma RefusedPass(s: State) returns (t: State)
    requires s.faults == {CmdTimeout} && s.life == Active && s.control == ControlAsleep && |s.driven| == NUM_MOTORS
    ensures t == s.(cell := Zeroed(s.clock), driven := [STOP, STOP, STOP, STOP], controlIn := true)
    ensures Leads(s, REFUSED_PASS, t)
  {
    FaultInhibits(s, CmdTimeout);
    t := s.(cell := Zeroed(s.clock), driven := [STOP, STOP, STOP, STOP], controlIn := true);
    ControlPassDrives(s, t);
  }

  lemma RefusalIsHarmless(linear: real, angular: real)
    ensures Harmless(Refusal(linear, angular))
  {
  }

  lemma RefusedIsStuck(s: State, linear: real, angular: real, m: State, t: State)
    requires Stuck(s) && m == s.(cell := Stored(linear, angular, s.clock))
    requires t == m.(cell := Zeroed(m.clock), driven := [STOP, STOP, STOP, STOP], controlIn := true)
    ensures Stuck(t) && t.clock == s.clock && Locked(s)
  {
  }

  /** The message and the refused control pass. */
  lemma RefusalSticks(s: State, linear: real, angular: real) returns (t: State)
    requires Stuck(s)
    ensures Leads(s, Refusal(linear, angular), t) && TimeoutThroughout(s, Refusal(linear, angular))
    ensures Stuck(t) && t.clock == s.clock
  {
    var m := MessageSticks(s, linear, angular);
    t := RefusedPass(m);
    LeadsOn(s, Message(linear, angular), m, REFUSED_PASS, t);
    RefusedIsStuck(s, linear, angular, m, t);
    RefusalIsHarmless(linear, angular);
    HarmlessKeepsTimeout(s, Refusal(linear, angular), t);
  }

  lemma MonitorPassSets(s: State) returns (m: State, t: State)
    requires Stuck(s)
    ensures Enabled(s, MonitorGet) && m == Next(s, MonitorGet) && Leads(m, MONITOR_REST, t)
    ensures Locked(m) && m.life == Active
    ensures t == s.(safetyIn := true, monitor := Feeding)
  {
    m := Next(s, MonitorGet);
    var faults := SafetyMonitor.Evaluated(s.faults, s.cell, s.clock, s.agent, s.battery);
    assert faults == {CmdTimeout};
    t := s.(safetyIn := true, monitor := Feeding);
    MonitorRest(m, s.cell, t);
  }

  /** A monitor pass over a zeroed command. */
  lemma MonitorSticks(s: State) returns (t: State)
    requires Stuck(s)
    ensures Leads(s, MONITOR_PASS, t) && TimeoutThroughout(s, MONITOR_PASS)
    ensures t == s.(safetyIn := true, monitor := Feeding)
  {
    var m: State;
    m, t := MonitorPassSets(s);
    HarmlessKeepsTimeout(m, MONITOR_REST, t);
    Then(s, MonitorGet, m, MONITOR_REST, t);
    assert MONITOR_PASS[1..] == MONITOR_REST;
  }

  /** A round leaves the robot stuck as before, d milliseconds later. */
  lemma RoundSticks(s: State, linear: real, angular: real, d: nat) returns (t: State)
    requires Stuck(s)
    ensures Leads(s, Round(linear, angular, d), t) && TimeoutThroughout(s, Round(linear, angular, d))
    ensures Stuck(t) && t.clock == s.clock + d
  {
    var a := RefusalSticks(s, linear, angular);
    var b := MonitorSticks(a);
    var c := Next(b, MonitorFeed);
    t := c.(clock := c.clock + d);
    TicksPass(c, d);
    Then(b, MonitorFeed, c, Ticks(d), t);
    HarmlessKeepsTimeout(b, [MonitorFeed] + Ticks(d), t);
    LeadsOn(a, MONITOR_PASS, b, [MonitorFeed] + Ticks(d), t);
    ThroughoutOn(a, MONITOR_PASS, b, [MonitorFeed] + Ticks(d));
    LeadsOn(s, Refusal(linear, angular), a, MONITOR_PASS + ([MonitorFeed] + Ticks(d)), t);
    ThroughoutOn(s, Refusal(linear, angular), a, MONITOR_PASS + ([MonitorFeed] + Ticks(d)));
  }

  // ----- arbitrarily many rounds

  function Rounds(linear: real, angular: real, d: nat, n: nat): seq<Event> {
    if n == 0 then [] else Round(linear, angular, d) + Rounds(linear, angular, d, n - 1)
  }

  lemma {:induction false} RoundsStick(s: State, linear: real, angular: real, d: nat, n: nat) returns (t: State)
    requires Stuck(s)
    ensures Leads(s, Rounds(linear, angular, d, n), t) && TimeoutThroughout(s, Rounds(linear, angular, d, n))
    ensures t.clock == s.clock + n * d
    decreases n
  {
    if n == 0 {
      t := s;
    } else {
      var mid := RoundSticks(s, linear, angular, d);
      t := RoundsStick(mid, linear, angular, d, n - 1);
      LeadsOn(s, Round(linear, angular, d), mid, Rounds(linear, angular, d, n - 1), t);
      ThroughoutOn(s, Round(linear, angular, d), mid, Rounds(linear, angular, d, n - 1));
    }
  }

  // ----- from power-up

  /** The agent connects and the robot becomes idle. */
  const START_UP := [SetAgent(true)] + ([SetBattery(12.0)] + ([Request(WaitAgent)] + [Request(Idle)]))

  /** A control pass outside ACTIVE. */
  const IDLE_PASS := [ControlGet] + ([ControlReadState] + ([ControlZero] + CONTROL_TAIL))

  /** What the first message's callback does after storing: it finds the robot idle and without faults, and wakes it. */
  const WAKE := [CallbackReadState] + ([CallbackReadFaults] + [CallbackActivate])

  /** The first message: a control pass zeroes its command before the callback goes on. */
  function FirstMessage(linear: real, angular: real): seq<Event> {
    [CallbackStore(linear, angular)] + (IDLE_PASS + WAKE)
  }

  /** Start-up and the first message, with the first monitor pass finding no valid command. */
  function LeadIn(linear: real, angular: real): seq<Event> {
    START_UP + (FirstMessage(linear, angular) + (MONITOR_PASS + [MonitorFeed]))
  }

  const POWER_UP: State := State(0, NO_COMMAND, {}, Boot, false, 0.0, false, false, [STOP, STOP, STOP, STOP],
                                 CallbackIdle, MonitorAsleep, ControlAsleep)

  lemma StartUp(t: State)
    requires t == POWER_UP.(agent := true, battery := 12.0, life := Idle)
    ensures Leads(POWER_UP, START_UP, t)
  {
    var a := POWER_UP.(agent := true);
    var b := a.(battery := 12.0);
    var c := b.(life := WaitAgent);
    Last(c, Request(Idle), t);
    Then(b, Request(WaitAgent), c, [Request(Idle)], t);
    Then(a, SetBattery(12.0), b, [Request(WaitAgent)] + [Request(Idle)], t);
    Then(POWER_UP, SetAgent(true), a, [SetBattery(12.0)] + ([Request(WaitAgent)] + [Request(Idle)]), t);
  }

  lemma Wakes(s: State, t: State)
    requires s.callback == CommandStored && s.life == Idle && s.faults == {}
    requires t == s.(life := Active, callback := CallbackIdle)
    ensures Leads(s, WAKE, t)
  {
    var a := Next(s, CallbackReadState);
    var b := Next(a, CallbackReadFaults);
    Last(b, CallbackActivate, t);
    Then(a, CallbackReadFaults, b, [CallbackActivate], t);
    Then(s, CallbackReadState, a, [CallbackReadFaults] + [CallbackActivate], t);
  }

  lemma IdlePass(s: State, t: State)
    requires s.life == Idle && s.control == ControlAsleep && |s.driven| == NUM_MOTORS
    requires t == s.(cell := Zeroed(s.clock), driven := [STOP, STOP, STOP, STOP], controlIn := true)
    ensures Leads(s, IDLE_PASS, t)
  {
    ControlPassDrives(s, t);
  }

  lemma FirstMessageWakes(s: State, linear: real, angular: real) returns (t: State)
    requires s.life == Idle && s.faults == {} && s.callback == CallbackIdle
    requires s.control == ControlAsleep && |s.driven| == NUM_MOTORS
    ensures t == s.(cell := Zeroed(s.clock), driven := [STOP, STOP, STOP, STOP], controlIn := true, life := Active)
    ensures Leads(s, FirstMessage(linear, angular), t)
  {
    var a := Next(s, CallbackStore(linear, angular));
    var b := a.(cell := Zeroed(a.clock), driven := [STOP, STOP, STOP, STOP], controlIn := true);
    t := b.(life := Active, callback := CallbackIdle);
    IdlePass(a, b);
    Wakes(b, t);
    LeadsOn(a, IDLE_PASS, b, WAKE, t);
    Then(s, CallbackStore(linear, angular), a, IDLE_PASS + WAKE, t);
  }

  lemma FirstPassTimesOut(s: State) returns (t: State)
    requires s.life == Active && s.faults == {} && s.agent && s.battery == 12.0 && !s.cell.valid
    requires |s.driven| == NUM_MOTORS
    requires s.callback == CallbackIdle && s.monitor == MonitorAsleep && s.control == ControlAsleep
    ensures Leads(s, MONITOR_PASS + [MonitorFeed], t) && Stuck(t) && t.clock == s.clock
  {
    var faults := SafetyMonitor.Evaluated(s.faults, s.cell, s.clock, s.agent, s.battery);
    assert faults == {CmdTimeout};
    var b := s.(faults := faults, safetyIn := true, monitor := Feeding);
    MonitorPassEvaluates(s, b);
    t := Next(b, MonitorFeed);
    Last(b, MonitorFeed, t);
    LeadsOn(s, MONITOR_PASS, b, [MonitorFeed], t);
  }

  lemma LeadsIn(linear: real, angular: real) returns (t: State)
    ensures Leads(POWER_UP, LeadIn(linear, angular), t) && Stuck(t) && t.clock == 0
  {
    var a := POWER_UP.(agent := true, battery := 12.0, life := Idle);
    StartUp(a);
    var b := FirstMessageWakes(a, linear, angular);
    t := FirstPassTimesOut(b);
    LeadsOn(a, FirstMessage(linear, angular), b, MONITOR_PASS + [MonitorFeed], t);
    LeadsOn(POWER_UP, START_UP, a, FirstMessage(linear, angular) + (MONITOR_PASS + [MonitorFeed]), t);
  }

  // ----- what the events are

  /** Nothing but a callback asks for ACTIVE. */
  predicate Unasked(events: seq<Event>) {
    forall i | 0 <= i < |events| :: events[i] != Request(Active)
  }

  lemma LeadInEvents(linear: real, angular: real)
    ensures Unasked(LeadIn(linear, angular))
    ensures forall i | 0 <= i < |LeadIn(linear, angular)| :: LeadIn(linear, angular)[i] != ControlReadFaults
  {
  }

  lemma UnaskedOn(first: seq<Event>, second: seq<Event>)
    requires Unasked(first) && Unasked(second)
    ensures Unasked(first + second)
  {
  }

  lemma HarmlessIsUnasked(events: seq<Event>)
    requires Harmless(events)
    ensures Unasked(events)
  {
  }

  lemma MonitorPassUnasked()
    ensures Unasked(MONITOR_PASS)
  {
  }

  lemma RoundEvents(linear: real, angular: real, d: nat)
    ensures Unasked(Round(linear, angular, d))
  {
    RefusalIsHarmless(linear, angular);
    HarmlessIsUnasked(Refusal(linear, angular));
    TicksPass(POWER_UP, d);
    HarmlessIsUnasked(Ticks(d));
    UnaskedOn([MonitorFeed], Ticks(d));
    MonitorPassUnasked();
    UnaskedOn(MONITOR_PASS, [MonitorFeed] + Ticks(d));
    UnaskedOn(Refusal(linear, angular), MONITOR_PASS + ([MonitorFeed] + Ticks(d)));
  }

  lemma {:induction false} RoundsEvents(linear: real, angular: real, d: nat, n: nat)
    ensures Unasked(Rounds(linear, angular, d, n))
    decreases n
  {
    if n > 0 {
      RoundEvents(linear, angular, d);
      RoundsEvents(linear, angular, d, n - 1);
      UnaskedOn(Round(linear, angular, d), Rounds(linear, angular, d, n - 1));
    }
  }

  function Stores(events: seq<Event>): nat {
    if events == [] then 0 else (if events[0].CallbackStore? then 1 else 0) + Stores(events[1..])
  }

  lemma {:induction false} StoresOn(first: seq<Event>, second: seq<Event>)
    ensures Stores(first + second) == Stores(first) + Stores(second)
    decreases |first|
  {
    if first == [] {
      assert first + second == second;
    } else {
      StoresOn(first[1..], second);
      assert (first + second)[1..] == first[1..] + second;
    }
  }

  lemma {:induction false} NoStores(events: seq<Event>)
    requires forall i | 0 <= i < |events| :: !events[i].CallbackStore?
    ensures Stores(events) == 0
    decreases |events|
  {
    if events != [] {
      NoStores(events[1..]);
    }
  }

  lemma {:induction false} TicksStoreNothing(d: nat)
    ensures Stores(Ticks(d)) == 0
  {
    if d > 0 {
      TicksStoreNothing(d - 1);
      StoresOn([Tick], Ticks(d - 1));
    }
  }

  lemma MessageStoresOnce(linear: real, angular: real)
    ensures Stores(Message(linear, angular)) == 1
  {
    NoStores([CallbackReadState]);
    StoresOn([CallbackStore(linear, angular)], [CallbackReadState]);
  }

  lemma RefusedPassStoresNothing()
    ensures Stores(REFUSED_PASS) == 0
  {
    NoStores(REFUSED_PASS);
  }

  lemma RefusalStoresOnce(linear: real, angular: real)
    ensures Stores(Refusal(linear, angular)) == 1
  {
    MessageStoresOnce(linear, angular);
    RefusedPassStoresNothing();
    StoresOn(Message(linear, angular), REFUSED_PASS);
  }

  lemma RestStoresNothing(d: nat)
    ensures Stores(MONITOR_PASS + ([MonitorFeed] + Ticks(d))) == 0
  {
    TicksStoreNothing(d);
    StoresOn([MonitorFeed], Ticks(d));
    NoStores(MONITOR_PASS);
    StoresOn(MONITOR_PASS, [MonitorFeed] + Ticks(d));
  }

  lemma RoundStoresOnce(linear: real, angular: real, d: nat)
    ensures Stores(Round(linear, angular, d)) == 1
  {
    RefusalStoresOnce(linear, angular);
    RestStoresNothing(d);
    StoresOn(Refusal(linear, angular), MONITOR_PASS + ([MonitorFeed] + Ticks(d)));
  }

  lemma {:induction false} RoundsStoreOften(linear: real, angular: real, d: nat, n: nat)
    ensures Stores(Rounds(linear, angular, d, n)) == n
    decreases n
  {
    if n > 0 {
      RoundsStoreOften(linear, angular, d, n - 1);
      StoresOn(Round(linear, angular, d), Rounds(linear, angular, d, n - 1));
      RoundStoresOnce(linear, angular, d);
    }
  }

  lemma Joined(first: Run, second: Run) returns (r: Run)
    requires IsRun(first) && IsRun(second) && first.states[|first.events|] == second.states[0]
    ensures IsRun(r) && r.events == first.events + second.events && r.states[0] == first.states[0]
    ensures forall k | 0 <= k < |first.events| :: r.states[k] == first.states[k]
    ensures forall k | |first.events| <= k < |r.states| :: r.states[k] == second.states[k - |first.events|]
  {
    var n := |first.events|;
    r := Run(first.states + second.states[1..], first.events + second.events);
    forall i: nat | i < |r.events|
      ensures Follows(r, i)
    {
      if i < n {
        StepAt(first, i);
      } else {
        StepAt(second, i - n);
      }
    }
  }

  lemma NeverMoves(r: Run, k: nat)
    requires IsRun(r) && r.states[0].control == ControlAsleep
    requires forall j | 0 <= j < |r.states| :: CmdTimeout in r.states[j].faults
    ensures !MovesAt(r, k)
  {
    forall j | 0 <= j < |r.states|
      ensures Inhibited(r.states[j])
    {
      FaultInhibits(r.states[j], CmdTimeout);
    }
    if MovesAt(r, k) {
      var g, a, f := SendsAreGated(r, k);
    }
  }

  lemma LeadInNeverMoves(r: Run, linear: real, angular: real, k: nat)
    requires IsRun(r) && r.states[0].control == ControlAsleep && r.events == LeadIn(linear, angular)
    ensures !MovesAt(r, k)
  {
    LeadInEvents(linear, angular);
    if MovesAt(r, k) {
      var g, a, f := SendsAreGated(r, k);
    }
  }

  /**
  For any velocities, any number n of messages and any spacing of d milliseconds there is a run from power-up
  in which ACTIVE is requested only by the callback of a first message, n more messages are all stored, the
  lifecycle is ACTIVE from `start` on, and the command timeout, found after the first message's command was
  zeroed, is never cleared: no motor ever moves.
  */
  lemma LockoutLasts(linear: real, angular: real, d: nat, n: nat) returns (r: Run, start: nat)
    ensures IsRun(r) && Initial(r.states[0]) && start < |r.states| && Unasked(r.events)
    ensures Stores(r.events[start..]) == n && r.states[|r.events|].clock - r.states[start].clock == n * d
    ensures forall k | start <= k < |r.states| :: CmdTimeout in r.states[k].faults && r.states[k].life == Active
    ensures forall k: nat :: !MovesAt(r, k)
  {
    var s := LeadsIn(linear, angular);
    var t := RoundsStick(s, linear, angular, d, n);
    var lead := RunOf(POWER_UP, LeadIn(linear, angular), s);
    var rounds := RunOf(s, Rounds(linear, angular, d, n), t);
    RoundsStoreOften(linear, angular, d, n);
    LeadInEvents(linear, angular);
    RoundsEvents(linear, angular, d, n);
    UnaskedOn(lead.events, rounds.events);
    r := Joined(lead, rounds);
    start := |lead.events|;
    assert r.events[start..] == rounds.events;
    forall k: nat
      ensures !MovesAt(r, k)
    {
      if k < start {
        LeadInNeverMoves(lead, linear, angular, k);
      } else {
        NeverMoves(rounds, k - start);
      }
    }
  }
}
