/** Which faults clear themselves, and which stay until the lifecycle is reset. */
module ProtocolLatching {
  import opened Fault
  import opened Protocol
  import opened ProtocolGating

  /** The faults no thread ever clears. */
  const LATCHING: set<FaultBit> := {Overcurrent, MotorFeedback, EstopInput, WatchdogExpired}

  /** The one step, apart from a reset, that can take fault b out of the word: the monitor's own verdict on it. */
  predicate Acquits(s: State, e: Event, b: FaultBit)
    requires Enabled(s, e)
  {
    match b
    case CmdTimeout => e == MonitorPostTimeout && !s.monitor.expired
    case AgentLost => e == MonitorPostAgent && s.monitor.connected
    case Undervoltage => e == MonitorPostVoltage && !s.monitor.low
    case _ => false
  }

  lemma MonitorClears(s: State, e: Event, next: State, b: FaultBit)
    requires Enabled(s, e) && next == Next(s, e) && b in s.faults
    requires e.MonitorPostTimeout? || e.MonitorPostAgent? || e.MonitorPostVoltage?
    ensures b !in next.faults <==> Acquits(s, e, b)
  {
  }

  lemma OthersClear(s: State, e: Event, next: State, b: FaultBit)
    requires Enabled(s, e) && next == Next(s, e) && b in s.faults
    requires !e.MonitorPostTimeout? && !e.MonitorPostAgent? && !e.MonitorPostVoltage?
    ensures b !in next.faults <==> Resets(s, e)
  {
  }

  /** A set fault leaves the word exactly when it is acquitted or the lifecycle is reset. */
  lemma FaultCleared(s: State, e: Event, next: State, b: FaultBit)
    requires Enabled(s, e) && next == Next(s, e) && b in s.faults
    ensures b !in next.faults <==> Acquits(s, e, b) || Resets(s, e)
  {
    if e.MonitorPostTimeout? || e.MonitorPostAgent? || e.MonitorPostVoltage? {
      MonitorClears(s, e, next, b);
    } else {
      OthersClear(s, e, next, b);
    }
  }

  /** No reset happens at an index from n up to but not including m. */
  ghost predicate NoReset(r: Run, n: nat, m: nat)
    requires IsRun(r) && m < |r.states|
  {
    forall i | n <= i < m :: !Resets(r.states[i], r.events[i])
  }

  /** A latching fault, however it was raised, survives every step of every thread until a reset. */
  lemma {:induction false} LatchSurvives(r: Run, b: FaultBit, n: nat, k: nat)
    requires IsRun(r) && n <= k < |r.states| && NoReset(r, n, k)
    requires b in LATCHING && b in r.states[n].faults
    ensures b in r.states[k].faults
    decreases k
  {
    if n < k {
      LatchSurvives(r, b, n, k - 1);
      StepAt(r, k - 1);
      FaultCleared(r.states[k - 1], r.events[k - 1], r.states[k], b);
    }
  }

  /** While an emergency stop or watchdog fault is latched, every control pass that starts sends zero. */
  lemma LatchStopsMotors(r: Run, b: FaultBit, n: nat, p: nat, k: nat)
    requires IsRun(r) && Initial(r.states[0]) && n <= p <= k < |r.states| && NoReset(r, n, k)
    requires b in {EstopInput, WatchdogExpired} && b in r.states[n].faults
    requires p < |r.events| && r.events[p] == ControlGet
    ensures !MovesAt(r, k)
  {
    forall j | n <= j <= k
      ensures b in r.states[j].faults
    {
      LatchSurvives(r, b, n, j);
    }
    FaultStopsLaterPasses(r, b, n, k, p, k);
  }
}
