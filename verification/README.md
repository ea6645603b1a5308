# Rover controller: verified model

A Dafny model of the rover firmware's orientation filter, its command-to-motor safety protocol, its
skid-steer kinematics and its sensor pipeline, with proofs of what each of them keeps over whole runs.
`dafny verify dfyconfig.toml` checks the project.

## What is modelled

**Orientation filter** (`SquareRoot`, `Quaternions`, `Madgwick*`). `Madgwick.Filter` is the filter object with
its four components updated in place, in the hand-expanded arithmetic of the source, over real numbers. Its
methods are proved to compute a specification written with quaternion products and transposed Jacobians, and
the properties are proved about that specification. `sqrtf` is a parameter that may be any function returning
the non-negative root of every non-negative number. A division by a zero norm, which in C leaves NaN in every
component for good, is the absorbing estimate `NotANumber`; exactly when it happens is part of what is proved.

**Safety protocol** (`Fault`, `RobotCommand`, `StateMachine`, `Watchdog`, `SafetyMonitor`, `Odometry`,
`ControlLoop`, `CmdVel`, `Protocol*`). The classes carry the C statics as fields and are proved against
specification functions. `Protocol` is a transition system in which the `/cmd_vel` callback, the monitor thread
and the control thread each have a program counter that holds their local variables, and every lock-protected
access is one step; clock ticks, agent and battery updates, transition requests and faults raised by other code
are steps of the environment and can happen anywhere. (The only request in the code is the callback's, for
ACTIVE; those of start-up, for WAIT_AGENT and IDLE, are commented out at `main.c` lines 248 and 253.) A run is
any interleaving. `ProtocolPasses` proves that the steps of one thread, taken without interruption, have the
effect of that thread's method, so the two forms describe one program.

**Kinematics** (`Kinematics`), for any radius, track width, wheel limit and direction signs.

**Sensor pipeline** (`Stamps`, `Pipeline`, `PipelineSafety`, `PipelinePasses`, `PublishThread`). Two producers
and the polling thread, interleaved at every queue access, with the message headers' integer widths.

Assumed of code that is not part of this model: mutexes and spinlocks make their sections atomic, and a reset
clears the fault word inside the section that changes the state; the feed of the watchdog is one step, because
the monitor is a cooperative thread; a message queue is a bounded first-in first-out buffer whose put without
waiting drops the newest item; a poll returns once a watched queue is not empty, and reports only queues that
are not empty; the uptime clock does not run backwards.

## Where the code differs from its comments

- The comments at `MadgwickAHRS.c` lines 54, 66 and 160 present the tests for zero readings as the way NaN is
  avoided. They are not enough: lines 118 and 189 divide by the norm of the corrective step, which is zero exactly
  when the readings balance at the attitude (`UpdateDefined`). Readings that agree with the attitude do, and so do
  some that contradict it: a level sensor loses the estimate on its first sample without a magnetometer, and with
  one whenever the field has no sideways part and is horizontal or points forward (`LevelStartIff`), which
  includes pointing due south in a horizontal field and lying upside down.
- The comment heading `safety_monitor.c` says that the command timeout and the undervoltage fault are latched
  and that motor feedback freshness is checked. The code clears both faults again and does not check feedback.
- A command that arrives during a command timeout is zeroed by the control loop and marked invalid. Recovery
  therefore depends on the monitor reading the command first (`RecoversIff`), and is not guaranteed
  (`LockoutLasts`).

## Model

| member | source | states |
|---|---|---|
| `SquareRoot.InvSqrtUnique` | apps/rover_controller/src/algo/MadgwickAHRS.c:220-223 | the reciprocal root of x is the only positive r with r r x = 1 |
| `Madgwick.Filter.constructor` | apps/rover_controller/src/algo/MadgwickAHRS.c:32-34 | the filter starts at the identity attitude |
| `Madgwick.Filter.UpdateImu` | apps/rover_controller/src/algo/MadgwickAHRS.c:148-214 | the new state is the six-axis update of the old one: gyroscope rate, feedback along the normalised gravity step if the reading is not zero, integration, normalisation |
| `Madgwick.Filter.Update` | apps/rover_controller/src/algo/MadgwickAHRS.c:47-143 | the new state is the nine-axis update, which falls back to the six-axis one on a zero magnetometer reading |
| `Madgwick.Filter.NineAxisGradient` | apps/rover_controller/src/algo/MadgwickAHRS.c:104-117 | the hand-written step is the transposed Jacobian of gravity and field on the six residuals, against the reference found from the rotated reading |
| `Madgwick.ExpandedIsFactored` | apps/rover_controller/src/algo/MadgwickAHRS.c:184-188 | the expanded six-axis gradient is the factored nine-axis one without its magnetic terms, for every q and a, unit or not |
| `Madgwick.FactoredIsTransposed` | apps/rover_controller/src/algo/MadgwickAHRS.c:113-117 | the factored nine-axis gradient is J^T f for the six residuals, for every q, a, m and reference |
| `Madgwick.EarthFrameExpanded` | apps/rover_controller/src/algo/MadgwickAHRS.c:103-107 | hx, hy and bz are the components of the quaternion product q m q* |
| `MadgwickGradient.GravityStepIsGradient` | apps/rover_controller/src/algo/MadgwickAHRS.c:184-188 | the six-axis step is the gradient of half the squared gravity residual: an exact expansion along every line |
| `MadgwickGradient.NineAxisStepIsGradient` | apps/rover_controller/src/algo/MadgwickAHRS.c:113-117 | the nine-axis step is the gradient of half the squared gravity and field residuals, the reference held fixed |
| `MadgwickRuns.RateOrthogonal` | apps/rover_controller/src/algo/MadgwickAHRS.c:154-158 | the gyroscope rate is orthogonal to q, and its norm is half of norm q times the angular rate |
| `MadgwickDescent.FieldIsReferenceTurned` | apps/rover_controller/src/algo/MadgwickAHRS.c:114-117 | for unit q the predicted field is the reference (bx, 0, bz) turned from the Earth frame into the sensor frame, q* r q |
| `MadgwickDescent.GravityIsUpTurned` | apps/rover_controller/src/algo/MadgwickAHRS.c:114-117 | and predicted gravity is the Earth's vertical |
| `MadgwickDescent.RateTurnsField` | apps/rover_controller/src/algo/MadgwickAHRS.c:60-64 | under the angular rate w the predicted field b changes at the rate b x w, as a direction fixed in the Earth frame does |
| `MadgwickDescent.RateTurnsGravity` | apps/rover_controller/src/algo/MadgwickAHRS.c:154-158 | and so does predicted gravity |
| `MadgwickDescent.UnitIsDirection` | apps/rover_controller/src/algo/MadgwickAHRS.c:69-79 | a normalised reading has norm 1 and points the same way |
| `MadgwickRuns.CorrectedNorm` | apps/rover_controller/src/algo/MadgwickAHRS.c:131-142 | with feedback, the norm before normalisation is within beta/f of sqrt(1 + w^2/(4 f^2)), so at least 1 - beta/f and never zero |
| `MadgwickRuns.UncorrectedNorm` | apps/rover_controller/src/algo/MadgwickAHRS.c:202-213 | without feedback the squared norm before normalisation is exactly 1 + w^2/(4 f^2) |
| `MadgwickDescent.UpdateDeadReckons` | apps/rover_controller/src/algo/MadgwickAHRS.c:131-142 | without an accelerometer reading the new attitude is q + (1/f) qDot made a unit quaternion, pointing the same way |
| `MadgwickDescent.UpdateDescends` | apps/rover_controller/src/algo/MadgwickAHRS.c:113-142 | with one, an update of either filter that is not lost adds to that a correction of length beta/f whose slope on the squared error of the readings is the lowest of that length, -beta/f times the norm of the step, and along which the error falls |
| `MadgwickRuns.UpdateStaysUnit` | apps/rover_controller/src/algo/MadgwickAHRS.c:47-143 | from a unit attitude either update is lost if and only if the step's norm is zero, and is a unit attitude otherwise |
| `MadgwickRuns.RunStaysUnit` | apps/rover_controller/src/algo/MadgwickAHRS.c:47-143 | a run of either filter from a unit attitude stays a number if and only if no step on the way vanishes, and is then a unit attitude |
| `MadgwickVanishing.GravityStepVanishes` | apps/rover_controller/src/algo/MadgwickAHRS.c:185-189 | for unit q the six-axis step is zero exactly if a is the predicted gravity, or q is level and a vertical |
| `MadgwickBalance.NineAxisStepVanishes` | apps/rover_controller/src/algo/MadgwickAHRS.c:104-118 | for unit q the nine-axis step is zero if and only if the readings exert no net torque on the predicted gravity and field, a x g + m x b = 0, and no net pull along q; in particular when both are exactly the predicted ones |
| `MadgwickDefined.UpdateDefined` | apps/rover_controller/src/algo/MadgwickAHRS.c:47-143 | an update of either filter is lost exactly under a condition on the attitude and the raw readings that a caller can test beforehand |
| `MadgwickDefined.RunDefined` | apps/rover_controller/src/algo/MadgwickAHRS.c:47-214 | a run of either filter stays defined if and only if no sample on the way meets that condition |
| `MadgwickDefined.LevelStartIff` | apps/rover_controller/src/algo/MadgwickAHRS.c:54-118 | a first sample with a vertical accelerometer reading is lost exactly if the magnetometer's y is zero and its x is not negative or its z is zero |
| `MadgwickDefined.LevelStartIsLost` | apps/rover_controller/src/algo/MadgwickAHRS.c:137-189 | such a first sample loses the whole run, whatever follows |
| `MadgwickDefined.SouthStartIsLost` | apps/rover_controller/src/algo/MadgwickAHRS.c:66-118 | with a horizontal field, a level sensor loses the run whether it points north or south, upright or upside down |
| `MadgwickSymmetry.HeadingSymmetry` | apps/rover_controller/src/algo/MadgwickAHRS.c:148-214 | turning the start about the vertical turns every later state of every six-axis run by the same quaternion |
| `MadgwickSymmetry.StepKeepsHeading` | apps/rover_controller/src/algo/MadgwickAHRS.c:184-188 | the six-axis step is orthogonal to (-q3, -q2, q1, q0), for all q and a |
| `MadgwickSymmetry.SignSymmetry` | apps/rover_controller/src/algo/MadgwickAHRS.c:47-214 | starting from -q negates every later state of every run of both filters |
| `MadgwickSymmetry.ScaleSymmetry` | apps/rover_controller/src/algo/MadgwickAHRS.c:66-79 | scaling each accelerometer and magnetometer reading by its own positive factor changes no state |
| `MadgwickField.EarthFrameNorm` | apps/rover_controller/src/algo/MadgwickAHRS.c:104-107 | hx^2 + hy^2 + bz^2 = norm(q)^4 norm(m)^2 |
| `MadgwickField.ReferenceIsUnit` | apps/rover_controller/src/algo/MadgwickAHRS.c:104-109 | the reference (bx, 0, bz) is a unit vector for unit q and normalised m |
| `MadgwickField.ReferenceIgnoresHeading` | apps/rover_controller/src/algo/MadgwickAHRS.c:104-109 | bx and bz are the same for every heading |
| `Kinematics.ComputeWheelVelocities` | apps/rover_controller/src/app/kinematics.c:11-46 | the array holds each motor's saturated velocity |
| `Kinematics.ComputeTwist` | apps/rover_controller/src/app/kinematics.c:48-67 | the twist whose left and right ground speeds are those of the two front wheels |
| `Kinematics.UnsaturatedWheels` | apps/rover_controller/src/app/kinematics.c:18-34 | while no wheel saturates each motor rolls, in the direction of its sign, at linear speed minus (left) or plus (right) angular speed times half the track |
| `Kinematics.RoverDrives` | apps/rover_controller/src/common/robot_params.h:20-52 | on this rover 1 m/s is 20 rad/s, 1 rad/s is 3 rad/s, and right motors run reversed |
| `Kinematics.RecoveredTwist` | apps/rover_controller/src/app/kinematics.c:18-64 | inverse after forward clamps the ground speed of each side, and the rear wheels say the same as the front ones |
| `Kinematics.RoundTripExactIff` | apps/rover_controller/src/app/kinematics.c:11-67 | the round trip is exact if and only if abs(v) + (W/2) abs(w) <= R wmax |
| `Kinematics.ForwardInverseForward` | apps/rover_controller/src/app/kinematics.c:11-67 | forward after inverse after forward is forward, for every command |
| `Kinematics.NeverReversedNorAmplified` | apps/rover_controller/src/app/kinematics.c:36-43 | each recovered component lies between zero and the commanded one |
| `Kinematics.SaturationBound` | apps/rover_controller/src/app/robot_command.c:33-45 | for every stored command at most one side saturates and the error is at most 0.15 m/s and 1 rad/s |
| `Kinematics.SaturationBoundAttained` | apps/rover_controller/src/app/kinematics.c:36-43 | the largest accepted command attains both bounds |
| `Fault.DecodeOr` | apps/rover_controller/src/safety/fault.c:19-24 | setting bits adds exactly their faults |
| `Fault.DecodeAndNot` | apps/rover_controller/src/safety/fault.c:26-31 | clearing bits removes exactly their faults |
| `Fault.BitPositions` | apps/rover_controller/src/safety/fault.h:20-29 | each fault is the bit the header gives it |
| `Fault.MotionTest` | apps/rover_controller/src/safety/fault.c:47-57 | the masked test reads exactly the five motion faults, whatever else the word holds |
| `Fault.FaultWord.Set` | apps/rover_controller/src/safety/fault.c:19-24 | the set of active faults grows by the given ones |
| `Fault.FaultWord.Clear` | apps/rover_controller/src/safety/fault.c:26-31 | the set of active faults loses the given ones |
| `Fault.FaultWord.MotionInhibited` | apps/rover_controller/src/safety/fault.c:42-57 | true exactly if a timeout, agent, undervoltage, estop or watchdog fault is active |
| `RobotCommand.StoredIsAccepted` | apps/rover_controller/src/app/robot_command.c:33-45 | what is stored is within limits, keeps its direction, and is the message itself if that is within limits |
| `RobotCommand.StoredIsNearest` | apps/rover_controller/src/app/robot_command.c:33-45 | what is stored is the accepted command nearest the message, component by component |
| `RobotCommand.CommandCell.Set` | apps/rover_controller/src/app/robot_command.c:25-53 | the cell holds the clamped message, stamped and valid |
| `RobotCommand.CommandCell.Zero` | apps/rover_controller/src/app/robot_command.c:68-76 | both velocities are zero, the stamp is now, and the cell is invalid |
| `StateMachine.Machine.Transition` | apps/rover_controller/src/app/state_machine.c:23-102 | a request succeeds exactly if it is ESTOP or one of the ten listed pairs; the state changes exactly on success, and the fault word is cleared exactly on a reset |
| `Watchdog.Checkins.Feed` | apps/rover_controller/src/safety/watchdog.c:29-51 | feeds exactly if every subsystem had checked in, and starts an empty window |
| `Watchdog.Checkins.CheckIn` | apps/rover_controller/src/safety/watchdog.c:53-58 | marks the given subsystem and no other; an unknown one is ignored |
| `SafetyMonitor.Monitor.SetMotorFeedback` | apps/rover_controller/src/safety/safety_monitor.c:80-91 | the cache is a copy of the feedback, all fields included |
| `SafetyMonitor.Monitor.Evaluate` | apps/rover_controller/src/safety/safety_monitor.c:98-133 | the three verdicts each decide their own bit, the others stay, and the safety subsystem is checked in |
| `SafetyMonitor.Monitor.RunOnce` | apps/rover_controller/src/safety/safety_monitor.c:143-147 | one turn feeds exactly if control had checked in |
| `SafetyMonitor.EvaluatedInNumbers` | apps/rover_controller/src/safety/safety_monitor.c:102-127 | timeout exactly if invalid, unstamped or 500 ms old; agent lost exactly if not connected; undervoltage exactly strictly between 0 and 10.5 V; all other faults as before |
| `Odometry.Tracker.Update` | apps/rover_controller/src/app/odometry.c:39-54 | takes over the wheel state's stamp and validity, zeroes the twist and leaves the pose |
| `ControlLoop.Loop.RunOnce` | apps/rover_controller/src/app/control_loop.c:76-125 | motors, wheel state, command cell, feedback cache, odometry and check-in after a pass, in terms of what it read, with and without a motor drive and with feedback that is not delivered |
| `CmdVel.Subscriber.OnMessage` | apps/rover_controller/src/ros/subscribers/cmd_vel_sub.c:25-42 | stores the message, then wakes an idle robot unless a motion fault is set |
| `ProtocolPasses.MonitorPassEvaluates` | apps/rover_controller/src/safety/safety_monitor.c:98-133 | the monitor's steps without interruption have the effect of its method |
| `ProtocolPasses.MonitorTurnFeeds` | apps/rover_controller/src/safety/safety_monitor.c:143-147 | with the feed that follows, both check-ins are cleared |
| `ProtocolPasses.ControlPassDrives` | apps/rover_controller/src/app/control_loop.c:83-97 | the control steps without interruption have the effect of its method, on every branch |
| `ProtocolPasses.CallbackPassStores` | apps/rover_controller/src/ros/subscribers/cmd_vel_sub.c:30-41 | the callback's steps without interruption have the effect of its method |
| `ProtocolGating.RunWellFormed` | apps/rover_controller/src/app/robot_command.c:33-76 | in every reachable state the targets are within limits, a command marked invalid is zero, and no stamp is in the future |
| `ProtocolGating.ControlNeverBlocks` | apps/rover_controller/src/app/control_loop.c:83-124 | in every reachable state the control thread can take exactly one step |
| `ProtocolGating.SendsAreGated` | apps/rover_controller/src/app/control_loop.c:83-97 | every nonzero velocity belongs to a pass that itself read ACTIVE and afterwards a fault word without motion faults, and drives the command it read |
| `ProtocolGating.FaultStopsLaterPasses` | apps/rover_controller/src/safety/fault.c:47-57 | while a motion fault stays set, no pass that starts moves a motor |
| `ProtocolGating.AtMostOnePassInFlight` | apps/rover_controller/src/app/control_loop.c:84-97 | all motion after a motion fault is set comes from the one pass in flight |
| `ProtocolGating.InactiveStopsPasses` | apps/rover_controller/src/app/state_machine.c:113-116 | outside ACTIVE no pass that starts moves a motor |
| `ProtocolGating.TurningWheelWasPermitted` | apps/rover_controller/src/app/control_loop.c:83-97 | in every reachable state a wheel that turns was last sent its velocity by a pass that read ACTIVE and then no motion fault, and turns as a command demands that a callback stored and nothing overwrote before the pass read it |
| `ProtocolGating.VelocityBounded` | apps/rover_controller/src/app/kinematics.c:36-43 | in every state of every run each motor's velocity is within the wheel limit |
| `ProtocolDeadline.TimeoutIsPosted` | apps/rover_controller/src/safety/safety_monitor.c:102-108 | once no message arrives, the timeout fault is set 500 ms plus one monitor period and pass later, with any pass in progress unable to clear it |
| `ProtocolDeadline.StopDeadline` | apps/rover_controller/src/safety/safety_monitor.c:98-108 | every control pass that starts past that deadline sends only zeros |
| `ProtocolDeadline.StandstillDeadline` | apps/rover_controller/src/app/control_loop.c:82-97 | one control period and pass later every motor is at zero, and at every later state |
| `ProtocolRecovery.TimeoutVerdict` | apps/rover_controller/src/safety/safety_monitor.c:103-108 | a posted verdict leaves the fault set exactly if the command read earlier in that pass was invalid or 500 ms old when judged |
| `ProtocolRecovery.RecoversIff` | apps/rover_controller/src/safety/safety_monitor.c:103-108 | without a reset a step clears the timeout if and only if it posts the verdict of a pass that read a command stored by a callback, not overwritten before the read, and under 500 ms old when judged |
| `ProtocolRecovery.StaysLocked` | apps/rover_controller/src/app/control_loop.c:84-88 | while every command is zeroed before the monitor reads it, the timeout fault stays set |
| `ProtocolRecovery.LockedOutPassesStop` | apps/rover_controller/src/app/robot_command.c:68-76 | and every control pass that starts sends zero |
| `ProtocolRecovery.ActivationNeedsRecovery` | apps/rover_controller/src/ros/subscribers/cmd_vel_sub.c:38-41 | once the timeout is set, a callback that then checks the faults asks for ACTIVE only after the monitor has read a surviving command |
| `ProtocolRecovery.LockedOutStaysIdle` | apps/rover_controller/src/ros/subscribers/cmd_vel_sub.c:35-41 | while every command is zeroed before the monitor reads it, no callback wakes the robot |
| `ProtocolLockout.LockoutLasts` | apps/rover_controller/src/app/control_loop.c:84-88 | for any number of messages at any spacing there is a run from power-up, with ACTIVE asked for only by the callback, in which an ACTIVE, connected and powered rover stores them all and never moves |
| `ProtocolLatching.FaultCleared` | apps/rover_controller/src/safety/safety_monitor.c:102-127 | a set fault leaves the word exactly by the monitor's verdict on that fault or by a reset |
| `ProtocolLatching.LatchSurvives` | apps/rover_controller/src/safety/fault.c:19-31 | estop, watchdog, overcurrent and motor feedback faults survive every step until a reset |
| `ProtocolLatching.LatchStopsMotors` | apps/rover_controller/src/app/state_machine.c:69-87 | while an estop or watchdog fault is latched every pass that starts sends zero |
| `ProtocolVerdicts.AgentVerdict` | apps/rover_controller/src/safety/safety_monitor.c:110-120 | a posted verdict leaves the agent fault set exactly if the agent was not connected when the pass read its inputs |
| `ProtocolVerdicts.VoltageVerdict` | apps/rover_controller/src/safety/safety_monitor.c:122-127 | and the undervoltage fault exactly if the voltage read then was strictly between 0 and 10.5 V |
| `ProtocolVerdicts.StandingFaultStopsPasses` | apps/rover_controller/src/safety/fault.c:47-57 | from any of the five motion faults until its acquittal or a reset, no pass that starts moves a motor |
| `ProtocolVerdicts.EstopHolds` | apps/rover_controller/src/app/state_machine.c:29-33 | a request for ESTOP succeeds in every state, and the robot stays there until a reset |
| `ProtocolVerdicts.EstopStopsPasses` | apps/rover_controller/src/app/state_machine.c:79-87 | until then every control pass that starts sends zero |
| `ProtocolLifecycle.ActiveOnlyFromIdle` | apps/rover_controller/src/ros/subscribers/cmd_vel_sub.c:38-41 | ACTIVE is entered only from IDLE, whatever happened between the callback's check and its request |
| `ProtocolLifecycle.ActivationHistory` | apps/rover_controller/src/ros/subscribers/cmd_vel_sub.c:35-41 | a callback that requests ACTIVE had stored its command, read IDLE and then read no motion fault |
| `ProtocolLifecycle.RestartsInOrder` | apps/rover_controller/src/app/state_machine.c:35-92 | from FAULT or ESTOP to ACTIVE a run is reset with an empty fault word, and then is in BOOT, WAIT_AGENT and IDLE in order |
| `ProtocolWatchdog.FedExactlyWhen` | apps/rover_controller/src/safety/watchdog.c:29-51 | the watchdog is fed exactly if control checked in since the previous attempt or the start |
| `ProtocolWatchdog.CheckInBetweenFeeds` | apps/rover_controller/src/safety/watchdog.c:47-58 | no check-in supports two feeds |
| `ProtocolWatchdog.FeedsAreEarned` | apps/rover_controller/src/app/control_loop.c:124 | over any stretch of a run feeds do not exceed check-ins plus the credit at its start |
| `ProtocolWatchdog.FeedsNeverExceedCheckIns` | apps/rover_controller/src/safety/safety_monitor.c:132-146 | on every prefix feeds do not exceed control check-ins |
| `ProtocolWatchdog.OneFeedAfterLastCheckIn` | apps/rover_controller/src/safety/watchdog.c:29-51 | at most one feed follows the last check-in |
| `Stamps.RecomposesIff` | apps/rover_controller/src/ros/publishers/imu_pub.c:41-42 | the header stamp stands for the sample's time exactly if its seconds fit 32 bits and its remainder is not negative |
| `Stamps.SplitKeepsOrder` | apps/rover_controller/src/ros/publishers/gnss_pub.c:55-56 | on such times stamps are ordered exactly as the times are |
| `PipelineSafety.RunConserves` | apps/rover_controller/src/main.c:187-212 | published, in flight and queued are the accepted samples in order, and the queues keep within 32 and 8 |
| `PipelineSafety.ProducedIsAccountedFor` | apps/rover_controller/src/hal/imu.c:68-73 | attempts equal published plus in flight plus queued plus dropped |
| `PipelineSafety.DropsOnlyWhenFull` | apps/rover_controller/src/hal/gnss.c:58-61 | a sample is dropped exactly by a put on a queue at capacity |
| `PipelineSafety.RunInPlace` | apps/rover_controller/src/main.c:194-211 | both events are clear whenever the thread polls |
| `PipelineSafety.BlockedOnlyWhenEmpty` | apps/rover_controller/src/main.c:187-212 | the consumer is blocked exactly if it polls and both queues are empty |
| `PipelineSafety.LeavesAfterDraining` | apps/rover_controller/src/main.c:197-201 | when the consumer is done with a queue, everything accepted before it found the queue empty is published |
| `PipelineSafety.PutsStampedSample` | apps/rover_controller/src/hal/gnss.c:41-58 | every put tries the sample its handler last stamped, with the clock of the stamp |
| `PipelineSafety.PublishedStamps` | apps/rover_controller/src/ros/publishers/imu_pub.c:41-42 | per sensor the published stamps are in order, well formed, and stand for the producer's times |
| `PipelineSafety.NoLossWithinCapacity` | apps/rover_controller/src/hal/imu.c:22-25 | from an empty queue, as many attempts as it has places lose nothing however late the consumer is |
| `PipelinePasses.TurnPublishes` | apps/rover_controller/src/main.c:187-212 | one turn without interruption publishes the whole of every ready queue and returns to the poll |
| `PublishThread.ImuDriver.OnTrigger` | apps/rover_controller/src/hal/imu.c:42-74 | a trigger enqueues one stamped sample, with a zero magnetic field, if every driver call succeeds and there is room, and nothing otherwise |
| `PublishThread.GnssDriver.OnData` | apps/rover_controller/src/hal/gnss.c:37-66 | a report with a fix enqueues it if there is room: latitude and longitude are the nanodegrees over 1e9, altitude the millimetres over 1000, counts narrowed to 8 bits, stamped now; otherwise nothing |
| `PublishThread.PollEvent.Serve` | apps/rover_controller/src/main.c:194-202 | a ready event's queue is left empty and published in order: each message carries its sample's data and a stamp that stands for its time, if one can; the event is cleared |
| `PublishThread.Thread.Turn` | apps/rover_controller/src/main.c:187-212 | one turn publishes exactly the ready queues in that way, and a failed poll changes nothing |

## Left out

- Rounding, overflow and infinities of `float`: real arithmetic is used, and NaN appears only as the result of dividing by a zero norm.
- Gains outside 0 < beta < sampleFreq: both are constants in the source, 0.1 and 512.
- ProtocolDeadline.StopDeadline: a millisecond clock can show one value through many steps, so the deadline is met by every pass that starts strictly after it.
- ProtocolDeadline.StandstillDeadline: a motor drive is configured; without one the control loop sends no velocity at all, which `ControlLoop.Loop.RunOnce` covers.
- Interrupting the watchdog's check-in loops: a feed is one step, because the monitor thread is cooperative.
- Pointer checks that return -EINVAL, and the unreachable default branch of the lifecycle switch.
- `time_elapsed_ms` as a function of its own: it appears in the bound on a surviving command's age.
- The wheel state, odometry, battery and diagnostics publishers, which are stubs or copies; the orientation fields, status mapping and frame name of the two publishers; a publish is the attempt, whatever the middleware returns.
- The motor drive, sensor, board and middleware drivers, whose code is not part of this model: their results are parameters.
- Start-up order, logging, the heartbeat and the two demonstration applications.
