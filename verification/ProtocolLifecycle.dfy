/** The way into ACTIVE, and the way back to it after a fault, with callbacks running concurrently. */
module ProtocolLifecycle {
  import opened Fault
  import opened StateMachine
  import opened Protocol

  /** How far start-up has come. */
  function Level(l: Lifecycle): nat {
    match l
    case Faulted => 0
    case Estop => 0
    case Boot => 1
    case WaitAgent => 2
    case Idle => 3
    case Active => 4
  }

  /** No step, whichever thread takes it, skips a level on the way up. */
  lemma LevelRisesByOne(s: State, e: Event, next: State)
    requires Enabled(s, e) && next == Next(s, e)
    ensures Level(next.life) <= Level(s.life) + 1
  {
  }

  /** ACTIVE is entered only from IDLE, even if the state changed between the callback's check and its request. */
  lemma ActiveOnlyFromIdle(r: Run, k: nat)
    requires IsRun(r) && k < |r.events|
    requires r.states[k].life != Active && r.states[k + 1].life == Active
    ensures r.states[k].life == Idle && (r.events[k] == Request(Active) || r.events[k] == CallbackActivate)
  {
    StepAt(r, k);
  }

  /** A callback that requests ACTIVE had stored its command, then read IDLE, then read no motion fault. */
  lemma {:induction false} ActivationHistory(r: Run, k: nat) returns (c: nat, i: nat, f: nat)
    requires IsRun(r) && Initial(r.states[0]) && k < |r.states| && r.states[k].callback == Permitted
    ensures c < i < f < k && r.events[c].CallbackStore?
    ensures r.events[i] == CallbackReadState && r.states[i].life == Idle
    ensures r.events[f] == CallbackReadFaults && !Inhibited(r.states[f])
    ensures forall j | c < j < k :: !r.events[j].CallbackStore?
  {
    StepAt(r, k - 1);
    if r.events[k - 1] == CallbackReadFaults {
      c, i := IdleHistory(r, k - 1);
      f := k - 1;
    } else {
      c, i, f := ActivationHistory(r, k - 1);
    }
  }

  lemma {:induction false} IdleHistory(r: Run, k: nat) returns (c: nat, i: nat)
    requires IsRun(r) && Initial(r.states[0]) && k < |r.states| && r.states[k].callback == SawIdle
    ensures c < i < k && r.events[c].CallbackStore?
    ensures r.events[i] == CallbackReadState && r.states[i].life == Idle
    ensures forall j | c < j < k :: !r.events[j].CallbackStore?
  {
    StepAt(r, k - 1);
    if r.events[k - 1] == CallbackReadState {
      c := StoreHistory(r, k - 1);
      i := k - 1;
    } else {
      c, i := IdleHistory(r, k - 1);
    }
  }

  lemma {:induction false} StoreHistory(r: Run, k: nat) returns (c: nat)
    requires IsRun(r) && Initial(r.states[0]) && k < |r.states| && r.states[k].callback == CommandStored
    ensures c < k && r.events[c].CallbackStore?
    ensures forall j | c < j < k :: !r.events[j].CallbackStore?
  {
    StepAt(r, k - 1);
    if r.events[k - 1].CallbackStore? {
      c := k - 1;
    } else {
      c := StoreHistory(r, k - 1);
    }
  }

  /** Level v is reached at j from the level below, and is not lost again up to k. */
  ghost predicate ReachedForGood(r: Run, v: nat, j: nat, k: nat)
    requires k < |r.states|
  {
    && 0 < j <= k && 0 < v && Level(r.states[j - 1].life) == v - 1 && Level(r.states[j].life) == v
    && forall x | j <= x <= k :: v <= Level(r.states[x].life)
  }

  /** A run that rises past level v reaches it one last time. */
  lemma {:induction false} LastRise(r: Run, i: nat, k: nat, v: nat) returns (j: nat)
    requires IsRun(r) && i <= k < |r.states| && Level(r.states[i].life) < v <= Level(r.states[k].life)
    ensures i < j && ReachedForGood(r, v, j, k)
    decreases k
  {
    StepAt(r, k - 1);
    LevelRisesByOne(r.states[k - 1], r.events[k - 1], r.states[k]);
    if Level(r.states[k - 1].life) < v {
      j := k;
    } else {
      j := LastRise(r, i, k - 1, v);
    }
  }

  lemma RisesInOrder(r: Run, v: nat, w: nat, j: nat, l: nat, k: nat)
    requires k < |r.states| && v < w && ReachedForGood(r, v, j, k) && ReachedForGood(r, w, l, k)
    ensures j < l
  {
  }

  /** The step into BOOT from FAULT or ESTOP is a reset, and the fault word is empty after it. */
  lemma BootIsReset(s: State, e: Event, next: State)
    requires Enabled(s, e) && next == Next(s, e) && Level(s.life) == 0 && next.life == Boot
    ensures Resets(s, e) && next.faults == {}
  {
  }

  /** Between FAULT or ESTOP and ACTIVE a robot is reset, and then is in BOOT, WAIT_AGENT and IDLE in order. */
  lemma RestartsInOrder(r: Run, i: nat, k: nat) returns (b: nat, w: nat, d: nat, a: nat)
    requires IsRun(r) && i <= k < |r.states|
    requires r.states[i].life in {Faulted, Estop} && r.states[k].life == Active
    ensures i < b < w < d < a <= k
    ensures Resets(r.states[b - 1], r.events[b - 1]) && r.states[b].faults == {}
    ensures r.states[b].life == Boot && r.states[w].life == WaitAgent
    ensures r.states[d].life == Idle && r.states[a].life == Active
    ensures forall x | b <= x <= k :: r.states[x].life !in {Faulted, Estop}
  {
    b := LastRise(r, i, k, 1);
    w := LastRise(r, i, k, 2);
    d := LastRise(r, i, k, 3);
    a := LastRise(r, i, k, 4);
    RisesInOrder(r, 1, 2, b, w, k);
    RisesInOrder(r, 2, 3, w, d, k);
    RisesInOrder(r, 3, 4, d, a, k);
    StepAt(r, b - 1);
    BootIsReset(r.states[b - 1], r.events[b - 1], r.states[b]);
  }
}
