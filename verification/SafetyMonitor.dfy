/** The safety monitor (apps/rover_controller/src/safety/safety_monitor.c), run without interruption. */
module SafetyMonitor {
  import opened Fault
  import opened Kinematics
  import opened RobotCommand
  import opened TimeUtils
  import opened Watchdog
  import P = Protocol

  /** What the motor drive reports about one motor. */
  datatype Feedback = Feedback(position: real, velocity: real, current: real, flags: bv32, valid: bool)

  const NO_FEEDBACK := Feedback(0.0, 0.0, 0.0, 0, false)

  /** The fault word after one evaluation: three verdicts, each deciding its own bit. */
  function Evaluated(faults: set<FaultBit>, c: Command, now: int, connected: bool, volts: real): (r: set<FaultBit>)
    ensures CmdTimeout in r <==> P.Expired(c, now)
    ensures AgentLost in r <==> !connected
    ensures Undervoltage in r <==> P.LowVoltage(volts)
    ensures forall b | b !in {CmdTimeout, AgentLost, Undervoltage} :: b in r <==> b in faults
  {
    P.Post(P.Post(P.Post(faults, CmdTimeout, P.Expired(c, now)), AgentLost, !connected),
           Undervoltage, P.LowVoltage(volts))
  }

  /** The verdicts in numbers: 500 ms, and strictly between 0 and 10.5 V. */
  lemma EvaluatedInNumbers(faults: set<FaultBit>, c: Command, now: int, connected: bool, volts: real)
    ensures var r := Evaluated(faults, c, now, connected, volts);
            && (CmdTimeout in r <==> !c.valid || c.stamp <= 0 || 500 <= now - c.stamp)
            && (AgentLost in r <==> !connected)
            && (Undervoltage in r <==> 0.0 < volts < 10.5)
            && forall b | b in {Overcurrent, MotorFeedback, EstopInput, WatchdogExpired} :: b in r <==> b in faults
  {
  }

  class Monitor {
    var agentConnected: bool
    var batteryVoltage: real
    const feedbackCache: array<Feedback>
    const command: CommandCell
    const faults: FaultWord
    const checkins: Checkins

    ghost predicate Valid() {
      feedbackCache.Length == NUM_MOTORS && checkins.Valid()
    }

    constructor (command: CommandCell, faults: FaultWord, checkins: Checkins)
      requires checkins.Valid()
      ensures Valid() && fresh(feedbackCache) && !agentConnected && batteryVoltage == 0.0
      ensures this.command == command && this.faults == faults && this.checkins == checkins
      ensures forall i | 0 <= i < NUM_MOTORS :: !feedbackCache[i].valid
    {
      agentConnected, batteryVoltage := false, 0.0;
      feedbackCache := new Feedback[NUM_MOTORS](_ => NO_FEEDBACK);
      this.command, this.faults, this.checkins := command, faults, checkins;
    }

    method SetAgentConnected(connected: bool)
      modifies this`agentConnected
      ensures agentConnected == connected
    {
      agentConnected := connected;
    }

    method SetBatteryVoltage(volts: real)
      modifies this`batteryVoltage
      ensures batteryVoltage == volts
    {
      batteryVoltage := volts;
    }

    method SetMotorFeedback(feedback: array<Feedback>)
      requires Valid() && feedback.Length == NUM_MOTORS
      modifies feedbackCache
      ensures feedbackCache[..] == old(feedback[..])
    {
      var i := 0;
      while i < NUM_MOTORS
        invariant 0 <= i <= NUM_MOTORS
        invariant feedback != feedbackCache ==> feedback[..] == old(feedback[..])
        invariant feedbackCache[..i] == old(feedback[..i])
        invariant forall k | i <= k < NUM_MOTORS :: feedbackCache[k] == old(feedbackCache[k])
      {
        feedbackCache[i] := feedback[i];
        i := i + 1;
      }
    }

    method MotionPermitted() returns (r: bool)
      ensures r <==> faults.Active() * MOTION_FAULTS == {}
      ensures r <==> faults.Active() <= {Overcurrent, MotorFeedback}
    {
      var inhibited := faults.MotionInhibited();
      r := !inhibited;
    }

    /** One evaluation, reading the clock as `now`. */
    method Evaluate(now: int)
      requires Valid()
      modifies faults, checkins.checkins
      ensures faults.Active() == Evaluated(old(faults.Active()), command.Value(), now, agentConnected, batteryVoltage)
      ensures checkins.checkins[SAFETY] && checkins.checkins[CONTROL] == old(checkins.checkins[CONTROL])
    {
      DecodeMasks();
      var cmd := command.Get();
      if !cmd.valid || IsExpired(now, cmd.stamp, P.CMD_TIMEOUT_MS) {
        faults.Set(Mask(CmdTimeout));
      } else {
        faults.Clear(Mask(CmdTimeout));
      }

      var connected := agentConnected;
      var voltage := batteryVoltage;
      if !connected {
        faults.Set(Mask(AgentLost));
      } else {
        faults.Clear(Mask(AgentLost));
      }

      if voltage > 0.0 && voltage < P.UNDERVOLTAGE_V {
        faults.Set(Mask(Undervoltage));
      } else {
        faults.Clear(Mask(Undervoltage));
      }

      checkins.CheckIn(SAFETY);
    }

    /** One turn of the monitor thread: evaluate, then try to feed the watchdog. */
    method RunOnce(now: int) returns (fed: bool)
      requires Valid()
      modifies faults, checkins.checkins
      ensures faults.Active() == Evaluated(old(faults.Active()), command.Value(), now, agentConnected, batteryVoltage)
      ensures fed <==> old(checkins.checkins[CONTROL])
      ensures !checkins.checkins[SAFETY] && !checkins.checkins[CONTROL]
    {
      Evaluate(now);
      fed := checkins.Feed();
    }
  }
}
