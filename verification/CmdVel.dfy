/** The /cmd_vel callback (apps/rover_controller/src/ros/subscribers/cmd_vel_sub.c), run without interruption. */
module CmdVel {
  import opened Fault
  import opened RobotCommand
  import opened SafetyMonitor
  import opened StateMachine

  /** The lifecycle after a message arrives. */
  function Woken(life: Lifecycle, faults: set<FaultBit>): Lifecycle {
    if life == Idle && faults * MOTION_FAULTS == {} then Active else life
  }

  class Subscriber {
    const command: CommandCell
    const machine: Machine
    const monitor: Monitor

    constructor (command: CommandCell, machine: Machine, monitor: Monitor)
      requires monitor.faults == machine.faults
      ensures this.command == command && this.machine == machine && this.monitor == monitor
    {
      this.command, this.machine, this.monitor := command, machine, monitor;
    }

    /** Stores the message, then wakes an idle robot unless a motion fault is set; the fault word is untouched. */
    method OnMessage(linear: real, angular: real, now: int)
      requires monitor.faults == machine.faults
      modifies command, machine, machine.faults
      ensures command.Value() == Stored(linear, angular, now)
      ensures machine.current == Woken(old(machine.current), old(machine.faults.Active()))
      ensures machine.current
           == if old(machine.current == Idle && machine.faults.Active() <= {Overcurrent, MotorFeedback}) then Active
              else old(machine.current)
      ensures machine.faults.Active() == old(machine.faults.Active())
    {
      command.Set(linear, angular, now);
      if machine.current == Idle {
        var permitted := monitor.MotionPermitted();
        if permitted {
          var _ := machine.Transition(Active);
        }
      }
    }
  }
}
