/**
The stop deadline: when messages stop arriving, every wheel is at zero within the command timeout plus
one monitor pass plus one control pass, and stays there.
*/
module ProtocolDeadline {
  import opened Fault
  import opened Kinematics
  import opened RobotCommand
  import opened Protocol
  import opened ProtocolGating

  // ----- timing assumptions on a run

  /** Event e occurs at an index from i up to but not including k. */
  ghost predicate Occurs(r: Run, e: Event, i: nat, k: nat)
    requires k <= |r.events|
  {
    exists a | i <= a < k :: r.events[a] == e
  }

  /** Consecutive occurrences of `start` are at most `period` ms apart, up to the end of the run. */
  ghost predicate AtMostApart(r: Run, start: Event, period: int)
    requires |r.states| == |r.events| + 1
  {
    forall i: nat, k: nat {:trigger Occurs(r, start, i, k)}
      | i <= k < |r.states| && r.states[i].clock + period < r.states[k].clock :: Occurs(r, start, i, k)
  }

  /** Every occurrence of `start` is followed by `finish` within `bound` ms, if the run lasts that long. */
  ghost predicate FinishedWithin(r: Run, start: Event, finish: Event, bound: int)
    requires |r.states| == |r.events| + 1
  {
    forall a: nat, k: nat {:trigger Occurs(r, finish, a, k)}
      | a < k < |r.states| && r.events[a] == start && r.states[a].clock + bound < r.states[k].clock ::
        Occurs(r, finish, a, k)
  }

  /** From index n on no message arrives and no reset clears the fault word. */
  ghost predicate QuietFrom(r: Run, n: nat)
    requires IsRun(r)
  {
    forall i | n <= i < |r.events| :: !r.events[i].CallbackStore? && !Resets(r.states[i], r.events[i])
  }

  // ----- the command has expired

  /** A command no newer than t0. */
  predicate Old(c: Command, t0: int) {
    !c.valid || c.stamp <= t0
  }

  /** Every command the monitor can still act on is no newer than t0. */
  predicate AllOld(s: State, t0: int) {
    Old(s.cell, t0) && (s.monitor.Judging? ==> Old(s.monitor.read, t0))
  }

  lemma NextAllOld(s: State, e: Event, next: State, t0: int)
    requires Enabled(s, e) && next == Next(s, e) && AllOld(s, t0) && !e.CallbackStore?
    ensures AllOld(next, t0)
  {
  }

  lemma StampsArePast(r: Run, n: nat)
    requires IsRun(r) && Initial(r.states[0]) && n < |r.states|
    ensures AllOld(r.states[n], r.states[n].clock)
  {
    RunWellFormed(r, n);
  }

  lemma {:induction false} StayOld(r: Run, n: nat, k: nat, t0: int)
    requires IsRun(r) && n <= k < |r.states| && QuietFrom(r, n) && AllOld(r.states[n], t0)
    ensures AllOld(r.states[k], t0)
    decreases k
  {
    if n < k {
      StayOld(r, n, k - 1, t0);
      QuietStep(r, n, k - 1);
      NextAllOld(r.states[k - 1], r.events[k - 1], r.states[k], t0);
    }
  }

  lemma QuietStep(r: Run, n: nat, k: nat)
    requires IsRun(r) && QuietFrom(r, n) && n <= k < |r.events|
    ensures Enabled(r.states[k], r.events[k]) && r.states[k + 1] == Next(r.states[k], r.events[k])
    ensures !r.events[k].CallbackStore? && !Resets(r.states[k], r.events[k])
  {
    StepAt(r, k);
  }

  /** The timeout has passed and the monitor's pass in progress, if any, cannot clear the fault. */
  predicate TimedOut(s: State, t0: int) {
    && AllOld(s, t0) && t0 + CMD_TIMEOUT_MS <= s.clock
    && (s.monitor.PostingTimeout? ==> s.monitor.expired)
  }

  /** ... and the fault has been posted. */
  predicate Latched(s: State, t0: int) {
    TimedOut(s, t0) && CmdTimeout in s.faults
  }

  lemma NextTimedOut(s: State, e: Event, next: State, t0: int)
    requires Enabled(s, e) && next == Next(s, e) && TimedOut(s, t0) && !e.CallbackStore?
    ensures TimedOut(next, t0)
  {
    NextAllOld(s, e, next, t0);
  }

  lemma NextLatched(s: State, e: Event, next: State, t0: int)
    requires Enabled(s, e) && next == Next(s, e) && TimedOut(s, t0) && !e.CallbackStore? && !Resets(s, e)
    ensures Latched(s, t0) || e == MonitorPostTimeout ==> Latched(next, t0)
  {
    NextTimedOut(s, e, next, t0);
  }

  lemma GetTimedOut(s: State, next: State, t0: int)
    requires Enabled(s, MonitorGet) && next == Next(s, MonitorGet)
    requires AllOld(s, t0) && t0 + CMD_TIMEOUT_MS <= s.clock
    ensures TimedOut(next, t0)
  {
  }

  lemma {:induction false} StayTimedOut(r: Run, n: nat, i: nat, k: nat, t0: int)
    requires IsRun(r) && n <= i <= k < |r.states| && QuietFrom(r, n) && TimedOut(r.states[i], t0)
    ensures TimedOut(r.states[k], t0)
    decreases k
  {
    if i < k {
      StayTimedOut(r, n, i, k - 1, t0);
      QuietStep(r, n, k - 1);
      NextTimedOut(r.states[k - 1], r.events[k - 1], r.states[k], t0);
    }
  }

  lemma {:induction false} StayLatched(r: Run, n: nat, i: nat, k: nat, t0: int)
    requires IsRun(r) && n <= i <= k < |r.states| && QuietFrom(r, n) && Latched(r.states[i], t0)
    ensures Latched(r.states[k], t0)
    decreases k
  {
    if i < k {
      StayLatched(r, n, i, k - 1, t0);
      QuietStep(r, n, k - 1);
      NextLatched(r.states[k - 1], r.events[k - 1], r.states[k], t0);
    }
  }

  lemma StartTimedOut(r: Run, n: nat, a: nat, t0: int)
    requires IsRun(r) && n <= a < |r.events| && QuietFrom(r, n) && AllOld(r.states[n], t0)
    requires r.events[a] == MonitorGet && t0 + CMD_TIMEOUT_MS <= r.states[a].clock
    ensures TimedOut(r.states[a + 1], t0)
  {
    StayOld(r, n, a, t0);
    QuietStep(r, n, a);
    GetTimedOut(r.states[a], r.states[a + 1], t0);
  }

  lemma PostLatches(r: Run, n: nat, b: nat, t0: int)
    requires IsRun(r) && n <= b < |r.events| && QuietFrom(r, n) && TimedOut(r.states[b], t0)
    requires r.events[b] == MonitorPostTimeout
    ensures Latched(r.states[b + 1], t0)
  {
    QuietStep(r, n, b);
    NextLatched(r.states[b], r.events[b], r.states[b + 1], t0);
  }

  /** Once a pass that started after the timeout has posted its verdict the fault is set and stays. */
  lemma PostedLatches(r: Run, n: nat, a: nat, b: nat, k: nat)
    requires IsRun(r) && Initial(r.states[0]) && n <= a < b < k < |r.states| && QuietFrom(r, n)
    requires r.events[a] == MonitorGet && r.states[n].clock + CMD_TIMEOUT_MS <= r.states[a].clock
    requires r.events[b] == MonitorPostTimeout
    ensures Latched(r.states[k], r.states[n].clock)
  {
    var t0 := r.states[n].clock;
    StampsArePast(r, n);
    StartTimedOut(r, n, a, t0);
    StayTimedOut(r, n, a + 1, b, t0);
    PostLatches(r, n, b, t0);
    StayLatched(r, n, b + 1, k, t0);
  }

  // ----- time passes one millisecond at a time

  /** The clock of each state equals the one before it or is one later. */
  ghost predicate Ticking(r: Run) {
    && |r.states| == |r.events| + 1
    && forall i {:trigger r.events[i]} | 0 <= i < |r.events| ::
         r.states[i].clock <= r.states[i + 1].clock <= r.states[i].clock + 1
  }

  lemma RunTicks(r: Run)
    requires IsRun(r)
    ensures Ticking(r)
  {
    forall i | 0 <= i < |r.events|
      ensures r.states[i].clock <= r.states[i + 1].clock <= r.states[i].clock + 1
    {
      StepAt(r, i);
    }
  }

  lemma {:induction false} ClockRises(r: Run, i: nat, k: nat)
    requires Ticking(r) && i <= k < |r.states|
    ensures r.states[i].clock <= r.states[k].clock
    decreases k
  {
    if i < k {
      ClockRises(r, i, k - 1);
      assert r.events[k - 1] == r.events[k - 1];
    }
  }

  /** The clock shows every time between two of its readings. */
  lemma {:induction false} ClockCrosses(r: Run, i: nat, k: nat, time: int) returns (j: nat)
    requires Ticking(r) && i <= k < |r.states| && r.states[i].clock <= time < r.states[k].clock
    ensures i <= j < k && r.states[j].clock == time && r.states[j + 1].clock == time + 1
    decreases k
  {
    var e := r.events[k - 1];
    if r.states[k - 1].clock == time {
      j := k - 1;
    } else {
      j := ClockCrosses(r, i, k - 1, time);
    }
  }

  /** When the clock is past time + period + bound, `start` and then `finish` have occurred, not before `time`. */
  lemma Served(r: Run, n: nat, k: nat, start: Event, finish: Event, period: nat, bound: nat, time: int)
    returns (a: nat, b: nat)
    requires Ticking(r) && n <= k < |r.states| && start != finish
    requires AtMostApart(r, start, period) && FinishedWithin(r, start, finish, bound)
    requires r.states[n].clock <= time && time + period + bound < r.states[k].clock
    ensures n <= a < b < k && r.events[a] == start && r.events[b] == finish
    ensures time <= r.states[a].clock <= time + period
  {
    var i := ClockCrosses(r, n, k, time);
    var j := ClockCrosses(r, i, k, time + period);
    assert Occurs(r, start, i, j + 1);
    a :| i <= a < j + 1 && r.events[a] == start;
    ClockRises(r, i, a);
    ClockRises(r, a, j);
    assert Occurs(r, finish, a, k);
    b :| a <= b < k && r.events[b] == finish;
  }

  /** When the monitor's deadline is past, the timeout fault is set, and it stays set. */
  lemma TimeoutIsPosted(r: Run, n: nat, k: nat, period: nat, bound: nat)
    requires IsRun(r) && Initial(r.states[0]) && n <= k < |r.states| && QuietFrom(r, n)
    requires AtMostApart(r, MonitorGet, period) && FinishedWithin(r, MonitorGet, MonitorPostTimeout, bound)
    requires r.states[n].clock + CMD_TIMEOUT_MS + period + bound < r.states[k].clock
    ensures Latched(r.states[k], r.states[n].clock)
  {
    RunTicks(r);
    var a, b := Served(r, n, k, MonitorGet, MonitorPostTimeout, period, bound,
                       r.states[n].clock + CMD_TIMEOUT_MS);
    PostedLatches(r, n, a, b, k);
  }

  // ----- the control loop stops the motors

  /** The control pass in progress was denied, or has not been permitted yet. */
  predicate Halting(s: State) {
    s.control.Sending? ==> s.control.target == STOP
  }

  lemma NextHalting(s: State, e: Event, next: State)
    requires Enabled(s, e) && next == Next(s, e) && Halting(s) && CmdTimeout in s.faults
    ensures Halting(next)
  {
    if e == ControlReadFaults {
      FaultInhibits(s, CmdTimeout);
    }
  }

  /** A pass that starts after the deadline, and every later one, sends only zeros. */
  lemma {:induction false} RunHalting(r: Run, p: nat, k: nat)
    requires IsRun(r) && p < k < |r.states| && r.events[p] == ControlGet
    requires forall i | p <= i <= k :: CmdTimeout in r.states[i].faults
    ensures Halting(r.states[k])
    decreases k
  {
    StepAt(r, k - 1);
    if k > p + 1 {
      RunHalting(r, p, k - 1);
      NextHalting(r.states[k - 1], r.events[k - 1], r.states[k]);
    }
  }

  /** The first n motors were last driven by a stop. */
  predicate StoppedUpTo(s: State, n: nat) {
    |s.driven| == NUM_MOTORS && n <= NUM_MOTORS && forall i | 0 <= i < n :: s.driven[i] == STOP
  }

  lemma StoppedIsZero(s: State, i: nat)
    requires StoppedUpTo(s, NUM_MOTORS) && i < NUM_MOTORS
    ensures MotorVelocity(s, i) == 0.0
  {
    ZeroCommandStops(ROVER, i);
  }

  lemma NextStopped(s: State, e: Event, next: State, n: nat)
    requires Enabled(s, e) && next == Next(s, e) && Halting(s) && StoppedUpTo(s, n)
    ensures StoppedUpTo(next, n)
    ensures e == ControlSend && s.control.next == n ==> StoppedUpTo(next, n + 1)
  {
  }

  /** Where a halting pass that started after index p has got to: the motors it has been through are stopped. */
  predicate PassProgress(s: State) {
    s.control != ControlAsleep && (s.control.Sending? ==> StoppedUpTo(s, s.control.next))
  }

  lemma NextProgress(s: State, e: Event, next: State)
    requires WellFormed(s) && Enabled(s, e) && next == Next(s, e)
    requires Halting(s) && PassProgress(s) && e != ControlCheckIn
    ensures PassProgress(next)
  {
    if s.control.Sending? {
      NextStopped(s, e, next, s.control.next);
    }
  }

  lemma ProgressStep(r: Run, k: nat)
    requires IsRun(r) && Initial(r.states[0]) && k < |r.events| && Halting(r.states[k])
    requires PassProgress(r.states[k]) && r.events[k] != ControlCheckIn
    ensures PassProgress(r.states[k + 1])
  {
    RunWellFormed(r, k);
    StepAt(r, k);
    NextProgress(r.states[k], r.events[k], r.states[k + 1]);
  }

  /** During a halting pass the motors already written are stopped. */
  lemma {:induction false} PassStops(r: Run, p: nat, k: nat)
    requires IsRun(r) && Initial(r.states[0]) && p < k < |r.states| && r.events[p] == ControlGet
    requires forall i | p < i <= k :: Halting(r.states[i])
    requires forall i | p < i < k :: r.events[i] != ControlCheckIn
    ensures PassProgress(r.states[k])
    decreases k
  {
    if k == p + 1 {
      StepAt(r, p);
    } else {
      PassStops(r, p, k - 1);
      ProgressStep(r, k - 1);
    }
  }

  /** Once stopped while every pass is halting, the motors stay stopped. */
  lemma {:induction false} StayStopped(r: Run, i: nat, k: nat)
    requires IsRun(r) && i <= k < |r.states| && StoppedUpTo(r.states[i], NUM_MOTORS)
    requires forall j | i <= j <= k :: Halting(r.states[j])
    ensures StoppedUpTo(r.states[k], NUM_MOTORS)
    decreases k
  {
    if i < k {
      StayStopped(r, i, k - 1);
      StepAt(r, k - 1);
      NextStopped(r.states[k - 1], r.events[k - 1], r.states[k], NUM_MOTORS);
    }
  }

  // ----- the deadline

  /** How the threads are scheduled: monitor and control passes start and finish in time. */
  ghost predicate OnSchedule(r: Run, pm: nat, dm: nat, pc: nat, dc: nat)
    requires |r.states| == |r.events| + 1
  {
    && AtMostApart(r, MonitorGet, pm) && FinishedWithin(r, MonitorGet, MonitorPostTimeout, dm)
    && AtMostApart(r, ControlGet, pc) && FinishedWithin(r, ControlGet, ControlCheckIn, dc)
  }

  /** From the monitor's deadline on, every control pass that starts sends zero to every motor. */
  lemma StopDeadline(r: Run, n: nat, pm: nat, dm: nat, p: nat, k: nat)
    requires IsRun(r) && Initial(r.states[0]) && QuietFrom(r, n) && n <= p <= k < |r.states|
    requires AtMostApart(r, MonitorGet, pm) && FinishedWithin(r, MonitorGet, MonitorPostTimeout, dm)
    requires p < |r.events| && r.events[p] == ControlGet
    requires r.states[n].clock + CMD_TIMEOUT_MS + pm + dm < r.states[p].clock
    ensures !MovesAt(r, k)
  {
    DeadlineHolds(r, n, pm, dm, p, k);
    FaultStopsLaterPasses(r, CmdTimeout, p, k, p, k);
  }

  /** The timeout fault holds in every state from one past the monitor's deadline on. */
  lemma DeadlineHolds(r: Run, n: nat, pm: nat, dm: nat, p: nat, k: nat)
    requires IsRun(r) && Initial(r.states[0]) && QuietFrom(r, n) && n <= p <= k < |r.states|
    requires AtMostApart(r, MonitorGet, pm) && FinishedWithin(r, MonitorGet, MonitorPostTimeout, dm)
    requires r.states[n].clock + CMD_TIMEOUT_MS + pm + dm < r.states[p].clock
    ensures FaultHolds(r, CmdTimeout, p, k)
  {
    var t0 := r.states[n].clock;
    TimeoutIsPosted(r, n, p, pm, dm);
    forall j | p <= j <= k
      ensures CmdTimeout in r.states[j].faults
    {
      StayLatched(r, n, p, j, t0);
    }
  }

  /** All wheels are at zero one control pass after that, and at every later state. */
  lemma StandstillDeadline(r: Run, n: nat, pm: nat, dm: nat, pc: nat, dc: nat, k: nat, i: nat)
    requires IsRun(r) && Initial(r.states[0]) && QuietFrom(r, n) && n <= k < |r.states| && i < NUM_MOTORS
    requires OnSchedule(r, pm, dm, pc, dc)
    requires r.states[n].clock + CMD_TIMEOUT_MS + pm + dm + 1 + pc + dc < r.states[k].clock
    ensures |r.states[k].driven| == NUM_MOTORS && MotorVelocity(r.states[k], i) == 0.0
  {
    RunTicks(r);
    var p, c := Served(r, n, k, ControlGet, ControlCheckIn, pc, dc,
                       r.states[n].clock + CMD_TIMEOUT_MS + pm + dm + 1);
    DeadlineHolds(r, n, pm, dm, p, k);
    StopsAtCheckIn(r, p, c, k);
    StoppedIsZero(r.states[k], i);
  }

  /** A pass that starts with the timeout fault set and runs to its check-in stops every motor for good. */
  lemma StopsAtCheckIn(r: Run, p: nat, c: nat, k: nat)
    requires IsRun(r) && Initial(r.states[0]) && p < c < k < |r.states|
    requires r.events[p] == ControlGet && r.events[c] == ControlCheckIn
    requires FaultHolds(r, CmdTimeout, p, k)
    ensures StoppedUpTo(r.states[k], NUM_MOTORS)
  {
    forall j | p < j <= k
      ensures Halting(r.states[j])
    {
      RunHalting(r, p, j);
    }
    var first := FirstCheckIn(r, p, c);
    PassStops(r, p, first);
    StepAt(r, first);
    StayStopped(r, first, k);
  }

  lemma {:induction false} FirstCheckIn(r: Run, p: nat, c: nat) returns (first: nat)
    requires p < c < |r.events| && r.events[c] == ControlCheckIn
    ensures p < first <= c && r.events[first] == ControlCheckIn
    ensures forall i | p < i < first :: r.events[i] != ControlCheckIn
    decreases c
  {
    if i :| p < i < c && r.events[i] == ControlCheckIn {
      first := FirstCheckIn(r, p, i);
    } else {
      first := c;
    }
  }
}
