/** The monitor's verdicts on its inputs, the emergency stop, and what they do to the control passes that follow. */
module ProtocolVerdicts {
  import opened Fault
  import opened StateMachine
  import opened Protocol
  import opened ProtocolGating
  import opened ProtocolLatching

  // ----- agent and battery

  /** The inputs a pass is judging were read at i, and no other pass has read any since. */
  ghost predicate InputsRead(r: Run, i: nat, k: nat)
    requires IsRun(r)
  {
    i < k < |r.states| && r.events[i] == MonitorReadInputs && forall l | i < l < k :: r.events[l] != MonitorReadInputs
  }

  lemma {:induction false} AgentHistory(r: Run, k: nat) returns (i: nat)
    requires IsRun(r) && Initial(r.states[0]) && k < |r.states| && r.states[k].monitor.PostingAgent?
    ensures InputsRead(r, i, k)
    ensures r.states[k].monitor == PostingAgent(r.states[i].agent, r.states[i].battery)
  {
    StepAt(r, k - 1);
    if r.events[k - 1] == MonitorReadInputs {
      i := k - 1;
    } else {
      i := AgentHistory(r, k - 1);
    }
  }

  lemma {:induction false} VoltageHistory(r: Run, k: nat) returns (i: nat)
    requires IsRun(r) && Initial(r.states[0]) && k < |r.states| && r.states[k].monitor.PostingVoltage?
    ensures InputsRead(r, i, k)
    ensures r.states[k].monitor.low <==> 0.0 < r.states[i].battery < 10.5
  {
    StepAt(r, k - 1);
    if r.events[k - 1] == MonitorPostAgent {
      i := AgentHistory(r, k - 1);
    } else {
      i := VoltageHistory(r, k - 1);
    }
  }

  /** Posting leaves the agent fault set exactly if the agent was not connected when the pass read its inputs. */
  lemma AgentVerdict(r: Run, k: nat) returns (i: nat)
    requires IsRun(r) && Initial(r.states[0]) && k < |r.events| && r.events[k] == MonitorPostAgent
    ensures InputsRead(r, i, k)
    ensures AgentLost in r.states[k + 1].faults <==> !r.states[i].agent
  {
    StepAt(r, k);
    i := AgentHistory(r, k);
  }

  /** ... and the undervoltage fault exactly if the voltage read then was strictly between 0 and 10.5 V. */
  lemma VoltageVerdict(r: Run, k: nat) returns (i: nat)
    requires IsRun(r) && Initial(r.states[0]) && k < |r.events| && r.events[k] == MonitorPostVoltage
    ensures InputsRead(r, i, k)
    ensures Undervoltage in r.states[k + 1].faults <==> 0.0 < r.states[i].battery < 10.5
  {
    StepAt(r, k);
    i := VoltageHistory(r, k);
  }

  // ----- a fault stands until it is acquitted

  /** At no index from n up to m is fault b acquitted or the lifecycle reset. */
  ghost predicate Stands(r: Run, b: FaultBit, n: nat, m: nat)
    requires IsRun(r) && m < |r.states|
  {
    forall i: nat | n <= i < m :: NotCleared(r, b, i)
  }

  ghost predicate NotCleared(r: Run, b: FaultBit, i: nat)
    requires IsRun(r) && i < |r.events|
  {
    Enabled(r.states[i], r.events[i]) && !Acquits(r.states[i], r.events[i], b) && !Resets(r.states[i], r.events[i])
  }

  lemma {:induction false} FaultStands(r: Run, b: FaultBit, n: nat, k: nat, m: nat)
    requires IsRun(r) && n <= k <= m < |r.states| && Stands(r, b, n, m) && b in r.states[n].faults
    ensures b in r.states[k].faults
    decreases k
  {
    if n < k {
      FaultStands(r, b, n, k - 1, m);
      StepAt(r, k - 1);
      assert NotCleared(r, b, k - 1);
      FaultCleared(r.states[k - 1], r.events[k - 1], r.states[k], b);
    }
  }

  /** From a lost agent, a low battery or any other motion fault to its acquittal, no pass that starts moves a motor. */
  lemma StandingFaultStopsPasses(r: Run, b: FaultBit, n: nat, m: nat, p: nat, k: nat)
    requires IsRun(r) && Initial(r.states[0]) && n <= p <= k <= m < |r.states|
    requires b in {CmdTimeout, AgentLost, Undervoltage, EstopInput, WatchdogExpired} && b in r.states[n].faults
    requires Stands(r, b, n, m) && p < |r.events| && r.events[p] == ControlGet
    ensures !MovesAt(r, k)
  {
    forall j | n <= j <= m
      ensures b in r.states[j].faults
    {
      FaultStands(r, b, n, j, m);
    }
    FaultStopsLaterPasses(r, b, n, m, p, k);
  }

  // ----- the emergency stop

  /** A request for ESTOP succeeds in every state. */
  lemma EstopSucceeds(s: State, next: State)
    requires Enabled(s, Request(Estop)) && next == Next(s, Request(Estop))
    ensures next.life == Estop && next.faults == s.faults
  {
  }

  lemma NextKeepsEstop(s: State, e: Event, next: State)
    requires Enabled(s, e) && next == Next(s, e) && s.life == Estop && !Resets(s, e)
    ensures next.life == Estop
  {
  }

  /** After the request the robot is in ESTOP until a reset. */
  lemma {:induction false} EstopHolds(r: Run, n: nat, k: nat)
    requires IsRun(r) && n < k < |r.states| && r.events[n] == Request(Estop) && NoReset(r, n + 1, k)
    ensures r.states[k].life == Estop
    decreases k
  {
    StepAt(r, k - 1);
    if k == n + 1 {
      EstopSucceeds(r.states[n], r.states[k]);
    } else {
      EstopHolds(r, n, k - 1);
      NextKeepsEstop(r.states[k - 1], r.events[k - 1], r.states[k]);
    }
  }

  /** Until then every control pass that starts sends zero. */
  lemma EstopStopsPasses(r: Run, n: nat, p: nat, k: nat)
    requires IsRun(r) && Initial(r.states[0]) && n < p <= k < |r.states|
    requires r.events[n] == Request(Estop) && NoReset(r, n + 1, k)
    requires p < |r.events| && r.events[p] == ControlGet
    ensures !MovesAt(r, k)
  {
    forall j | p <= j <= k
      ensures r.states[j].life != Active
    {
      EstopHolds(r, n, j);
    }
    InactiveStopsPasses(r, p, k, p, k);
  }
}
