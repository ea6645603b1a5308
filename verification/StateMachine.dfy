/** The robot lifecycle (apps/rover_controller/src/app/state_machine.c). */
module StateMachine {
  import opened Fault

  datatype Lifecycle = Boot | WaitAgent | Idle | Active | Faulted | Estop

  /** The requests the lifecycle accepts. */
  predicate Accepts(current: Lifecycle, target: Lifecycle) {
    target == Estop ||
    match current
    case Boot => target == WaitAgent
    case WaitAgent => target == Idle || target == Faulted
    case Idle => target == Active || target == Faulted || target == WaitAgent
    case Active => target == Idle || target == Faulted
    case Faulted => target == Boot
    case Estop => target == Boot
  }

  function After(current: Lifecycle, target: Lifecycle): Lifecycle {
    if Accepts(current, target) then target else current
  }

  /** The request is a reset, which also clears the fault word. */
  predicate IsReset(current: Lifecycle, target: Lifecycle) {
    target == Boot && (current == Faulted || current == Estop)
  }

  function FaultsAfter(current: Lifecycle, target: Lifecycle, faults: set<FaultBit>): set<FaultBit> {
    if IsReset(current, target) then {} else faults
  }

  const EPERM := 1

  class Machine {
    var current: Lifecycle
    const faults: FaultWord

    constructor (faults: FaultWord)
      ensures current == Boot && this.faults == faults
    {
      current := Boot;
      this.faults := faults;
    }

    /** Requests a transition: 0 on success, -EPERM if it is not allowed. */
    method Transition(target: Lifecycle) returns (rc: int)
      modifies this, faults
      ensures current == After(old(current), target)
      ensures faults.Active() == FaultsAfter(old(current), target, old(faults.Active()))
      ensures rc == if Accepts(old(current), target) then 0 else -EPERM
      ensures rc == 0 <==> || target == Estop
                           || (old(current), target) in {(Boot, WaitAgent), (WaitAgent, Idle), (WaitAgent, Faulted),
                                                         (Idle, Active), (Idle, Faulted), (Idle, WaitAgent),
                                                         (Active, Idle), (Active, Faulted),
                                                         (Faulted, Boot), (Estop, Boot)}
      ensures current == if rc == 0 then target else old(current)
      ensures faults.Active() == if old(current) in {Faulted, Estop} && target == Boot then {} else old(faults.Active())
    {
      rc := 0;
      if target == Estop {
        current := Estop;
        return;
      }
      match current {
        case Boot =>
          if target == WaitAgent { current := target; } else { rc := -EPERM; }
        case WaitAgent =>
          if target == Idle || target == Faulted { current := target; } else { rc := -EPERM; }
        case Idle =>
          if target == Active || target == Faulted || target == WaitAgent { current := target; } else { rc := -EPERM; }
        case Active =>
          if target == Idle || target == Faulted { current := target; } else { rc := -EPERM; }
        case Faulted =>
          if target == Boot { current := target; faults.Init(); } else { rc := -EPERM; }
        case Estop =>
          if target == Boot { current := target; faults.Init(); } else { rc := -EPERM; }
      }
    }

    method MotionAllowed() returns (r: bool)
      ensures r <==> current == Active
    {
      r := current == Active;
    }
  }
}
