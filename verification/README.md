# Dual-arm servo server: a verified model

The servo server drives two six-joint arms. A receiver thread parses command messages into a buffer; a servo
loop polls that buffer at a fixed rate, reads both robots, decides what to send to each arm and sends it. This
project models that path, from the JSON tree of a message to the pose handed to each robot and to the row
written in the log, and proves what holds for every message, every run and every timing.

| file | what it models |
|---|---|
| `Types.dfy` | modes, states, verdicts, commands, configuration, with their defaults |
| `JointStep.dfy` | the filter chain on one joint: closed form, limits, braking envelope |
| `Settling.dfy` | the filter iterated on one joint: it comes to rest, and where |
| `Safety.dfy`, `Trajectory.dfy` | the two filters over six joints, loops and all |
| `Buffer.dfy` | the command buffer, specified by the history of arrivals and polls |
| `Tick.dfy` | one tick of the servo loop as a function of state and inputs, and runs of ticks |
| `ServoLoop.dfy` | the servo loop as it runs, fields updated in place, proved to compute `Tick.After` |
| `Runs.dfy`, `Sends.dfy` | faults, latches, arming, and the origin of every pose, over whole runs |
| `TickTable.dfy` | one tick described a second time, from raw fields, and both descriptions proved to agree |
| `Envelope.dfy` | how far past a joint limit any run can go |
| `Confined.dfy` | the configurations under which no run goes past a joint limit |
| `Overshoot.dfy` | for every other configuration, a run that does |
| `Snapping.dfy` | what snapping to the readings does to any bound on targets |
| `ServoSettling.dfy` | a steady command, tick by tick, brings both arms to rest |
| `Mock.dfy`, `ClosedLoop.dfy` | the mock robot, and the loop driving two of them |
| `Force.dfy` | the admittance controller over any sequence of calls |
| `CommandServer.dfy` | the command parser over a JSON tree |
| `MessageTable.dfy` | accepted messages described a second time, from the items of their JSON trees |
| `EndToEnd.dfy` | parser, buffer and loop together, in any interleaving |
| `Csv.dfy`, `ServoLog.dfy` | CSV printing, a reader for it, and the logger with its bounded queue |

Objects whose methods update fields are classes (`ServoLoop.DualArmServoLoop`, `Buffer.CommandBuffer`,
`Mock.MockBackend`, `Force.ForceController`, `ServoLog.ServoLogger`). Each method is proved against a function of
the state before it; what is hard is then proved about those functions over all runs.

## How the source is read

- Doubles are reals. Readings carry a flag `qFinite` for the check that all six values are finite; timeouts and
  JSON numbers may be non-finite. Rounding is not modelled.
- The period between two ticks is the difference of two 64-bit clock values, modulo 2^64. Other unsigned
  integers are unbounded, and a timeout in nanoseconds is the floor of seconds times 1e9.
- The clock, the robot readings, the outcomes of the two sends and the arriving messages are inputs of each
  step, unconstrained unless a theorem says otherwise.
- The three pose fields of each arm (last sent, the one before, fault hold) are grouped as one `Arm` value.
- `validateConfig` checks the rate, the filter ratios and the tracking tolerance but not the joint limits.
  `Types.SoundLimits` is therefore an explicit hypothesis: lower limits at most the upper ones, velocity and
  acceleration limits positive. `Force.SoundForce` is the same for the configured force clamps. Without it `std::clamp` is called with crossed bounds.
- A send failure latches only after the target of the tick has been sent, and the arm whose send succeeded
  still books it: the model follows the code in both.

## Where the code and its documentation differ

`docs/design_review_fixes.md:99-101` says the acceleration limiter no longer overshoots the velocity-limited
target, so that sent poses do not exceed the commanded range. The first half is true: a filtered joint is never
beyond that target. The second is not: a joint that moves away from its target faster than it can brake in one
tick leaves the range between its last value and the target on the other side.
`JointStep.StaysInCommandedRangeIff` gives the exact condition.

The joint limits are not a bound either. `JointStep.StaysWithinLimitsIff` says when one step keeps them, and
`Overshoot.WithinLimitsIff` for which configurations every target of every run does: exactly those where, for
each joint, the shortest tick can take off any step between the limits, or the longest filtered step if the
configuration cannot snap across its limits, or where the period rounds down to nothing and nothing moves. For
any other configuration `Overshoot.EscapeEnds` and `Overshoot.SnapEscape` give the run. What is true of every run
without a snap, and so of every run under the fault-latch policy, is the bound of `Envelope.EnvelopeHolds`. With
snaps there need be no bound at all (`Snapping.SnapsUnbounded`).

Repeated Hold is not symmetric: because the clip uses `>=`, an upward motion stops in one tick while a fast
downward one brakes gradually (`Settling.HeldJointBrakes`). A falling joint may coast below its lower limit and
then rises back to it (`Settling.HeldJointRisesWitness`).

## Model

| member | source | states |
|---|---|---|
| `JointStep.AccelerationClosedForm` | src/control/safety_filter.cpp:117-131 | dividing by dt, clamping in velocity space, multiplying back and clipping is `p + min(d + A, w)` when the remaining displacement w is not negative, and `p + max(d - A, w)` when it is |
| `JointStep.ClosedForm` | src/control/safety_filter.cpp:34-38 | the whole position, velocity and acceleration chain equals that closed form at the displacement left by the first two clamps, for every position inside or outside the limits |
| `JointStep.StepBounds` | src/control/safety_filter.cpp:117-131 | no step is longer than the wanted one or the last one; it differs from the last by at most A unless it lands exactly on the wanted one while braking; growth is at most A |
| `JointStep.StaysWithinLimitsIff` | src/control/safety_filter.cpp:84-133 | a filtered joint is within its limits if and only if neither the velocity step nor braking from the last displacement leaves it short of, or past, them: the exact condition, from any position |
| `JointStep.LeavesLimitsWitness` | src/control/safety_filter.cpp:126-130 | a joint at its lower limit, asked to stay there, is sent below it |
| `JointStep.StaysInCommandedRangeIff` | src/control/safety_filter.cpp:126-130 | a filtered joint is never beyond the velocity-limited target, and lies between it and the last value if and only if the joint was not moving away from it faster than it brakes in one tick |
| `JointStep.TrajectoryFilterIsRedundant` | src/control/trajectory_filter.cpp:41-53 | putting the trajectory filter in front of the safety filter never changes the filtered joint, even outside the limits and at dt of zero or less |
| `JointStep.VelocityIsTarget` | src/control/trajectory_filter.cpp:55-70 | a velocity command filters to the same joint value as the joint target one dt ahead |
| `JointStep.FilterKeepsEnvelope` | src/control/safety_filter.cpp:96-133 | for any target and any dt in range, a joint that can be stopped within its overrun of either limit still can after a filtered step |
| `JointStep.FilterStepBound` | src/control/safety_filter.cpp:96-133 | steps never outgrow the longest allowed step, despite varying dt |
| `Settling.Progress` | src/control/safety_filter.cpp:96-133 | the ranking argument: at any dt above a least one, each tick leads to a phase with fewer ticks left, and a joint at rest stays where it is |
| `Settling.FilterComesToRest` | src/control/safety_filter.cpp:34-38 | from any position and speed there is one number of ticks after which, however their dts vary above a least one, a joint with a target is exactly at it (clamped to the limits), one moved at a velocity rests at the limit it moves to, and a held joint rests within its limits |
| `Settling.MovingStep` | src/control/safety_filter.cpp:96-133 | with room for it a joint moved at velocity v makes a step of v * dt or its velocity limit, or one larger than the last by its acceleration limit, whichever is least |
| `Settling.MovingSpeedsUp` | src/control/safety_filter.cpp:96-133 | until it reaches its limit such a joint speeds up by its acceleration limit in every tick until it makes full steps |
| `Settling.TargetCrossedOnce` | src/control/safety_filter.cpp:126-130 | at any dts the target is never jumped from above and never recrossed upward: it is crossed at most once, downward, after being hit |
| `Settling.HeldJointBrakes` | src/control/safety_filter.cpp:110-133 | inside its limits a held joint stops at once unless it falls faster than A per tick, and then loses exactly A |
| `Settling.HeldJointCoasts` | src/control/trajectory_filter.cpp:37-39 | at any dts above a least one, a held joint that falls from inside its limits is never again above where it was, falls at most d*d/(2A) in all, and rises only below its lower limit and to that limit at most |
| `Settling.HeldJointRisesWitness` | src/control/safety_filter.cpp:126-130 | a held joint that coasts below its lower limit and comes back to it |
| `Safety.SafetyFilter.HasTrackingError` | src/control/safety_filter.cpp:58-68 | true if and only if some joint is further from its last sent value than the tolerance |
| `Safety.SafetyFilter.ClampJointLimits` | src/control/safety_filter.cpp:84-94 | every joint clamped; the flag is set if and only if some joint was outside its limits |
| `Safety.SafetyFilter.ClampVelocity` | src/control/safety_filter.cpp:96-108 | every joint moved by at most its velocity limit; the previous pose when dt is not positive |
| `Safety.SafetyFilter.ClampAcceleration` | src/control/safety_filter.cpp:110-133 | the loop computes the acceleration stage on every joint; the previous pose when dt is not positive |
| `Safety.SafetyFilter.FilterJointTarget` | src/control/safety_filter.cpp:10-45 | state error first, tracking error second, both holding the previous pose; otherwise every joint filtered on its own |
| `Safety.CheckTable` | src/control/safety_filter.cpp:10-56 | a robot in error or not connected is refused before one too far from its last pose; otherwise the flag and verdict say exactly whether a joint was asked for a value outside its limits |
| `Trajectory.TrajectoryFilter.ComputeJointTarget` | src/control/trajectory_filter.cpp:10-35 | the requested pose of each mode; every mode that does not move joints asks for the previous pose |
| `Trajectory.TrajectoryFilter.FilterJointTarget` | src/control/trajectory_filter.cpp:41-53 | every joint steps toward its target by at most its velocity limit |
| `Trajectory.TrajectoryFilter.IntegrateJointVelocity` | src/control/trajectory_filter.cpp:55-70 | every joint integrates its clamped velocity |
| `Trajectory.TargetComposition` | src/control/trajectory_filter.cpp:41-53 | trajectory filter then safety filter is the safety filter alone, on all six joints |
| `Trajectory.VelocityComposition` | src/control/trajectory_filter.cpp:55-70 | a velocity command gives the filtered pose of the joint target one dt ahead, on all six joints |
| `Buffer.CommandBuffer.constructor` | src/control/command_buffer.cpp:57-69 | an empty buffer stands for the empty history |
| `Buffer.CommandBuffer.SetCommand` | src/control/command_buffer.cpp:43-55 | queue and slot again represent the history with this arrival added |
| `Buffer.CommandBuffer.LatestOrHold` | src/control/command_buffer.cpp:57-76 | the answer is the one the history determines, and queue and slot represent the history with this poll added |
| `Buffer.ArrivalsAreAll` | src/control/command_buffer.cpp:22-31 | the list of arrivals is exactly the lifecycle commands received, each once, in order |
| `Buffer.EveryHistoryIsAccounted` | src/control/command_buffer.cpp:43-76 | after any interleaving, the departed and the queued lifecycle commands are exactly the arrivals, in order, at most once; each departure is a usable one returned, an expired one skipped, or one pushed out by the 16th newer arrival, in time order |
| `Buffer.PollReturns` | src/control/command_buffer.cpp:57-76 | a poll returns the oldest queued command still usable, after skipping only expired ones; otherwise the last arrival if it is a usable command of another kind, otherwise a hold |
| `Buffer.MotionNeverOvertakes` | src/control/command_buffer.cpp:51-75 | a returned motion command is the last arrival, is usable, and every lifecycle command ever received arrived before it and has left the queue |
| `Buffer.DeliveredInTime` | src/control/command_buffer.cpp:57-65 | a lifecycle command behind m queued ones has left the queue by poll m + 1: returned while usable, expired, or pushed out, the last only by the 16th newer arrival |
| `Buffer.ArrivalModes` | src/control/command_buffer.cpp:22-31 | a command is queued if and only if an arm has one of the four lifecycle modes |
| `Buffer.AnswerIsTimely` | src/control/command_buffer.cpp:33-40 | whatever a poll returns is, in nanoseconds, no older than the timeout of either arm |
| `Buffer.LastIsReturned` | src/control/command_buffer.cpp:67-75 | with nothing queued in time, the last arrival of another mode is returned exactly while it is no older than both timeouts, and after that both arms get a hold |
| `Buffer.QueuedIsReturned` | src/control/command_buffer.cpp:57-65 | a queued command in time is returned once those before it are not |
| `ServoLoop.DualArmServoLoop.constructor` | src/control/dual_arm_servo_loop.cpp:46-59 | the loop starts disconnected and unlatched |
| `ServoLoop.DualArmServoLoop.InitializeRobots` | src/control/dual_arm_servo_loop.cpp:123-148 | succeeds if and only if connected, initialized, read and both readings valid; then all poses start at the readings, otherwise nothing changes |
| `ServoLoop.DualArmServoLoop.Start` | src/control/dual_arm_servo_loop.cpp:65-83 | started for the first time or again, the loop is in a state from which every theorem over runs holds; a latched fault survives a restart |
| `ServoLoop.DualArmServoLoop.IsValidJointState` | src/control/dual_arm_servo_loop.cpp:378-388 | true if and only if connected, valid, without error, finite and within every joint limit |
| `ServoLoop.DualArmServoLoop.ChooseSafeHoldTarget` | src/control/dual_arm_servo_loop.cpp:606-614 | the valid actual pose, else the last sent one |
| `ServoLoop.DualArmServoLoop.LatchFault` | src/control/dual_arm_servo_loop.cpp:574-592 | the first fault wins: reason, text and both hold poses are captured once, later faults change nothing |
| `ServoLoop.DualArmServoLoop.ClearFaultLatch` | src/control/dual_arm_servo_loop.cpp:556-572 | all fault fields cleared and both arms rebased on one pose each |
| `ServoLoop.DualArmServoLoop.MakeHoldCommand` | src/control/dual_arm_servo_loop.cpp:511-525 | a hold at each arm's safe pose |
| `ServoLoop.DualArmServoLoop.HandleLifecycle` | src/control/dual_arm_servo_loop.cpp:183-203 | one request of the command takes effect, by priority, and the command obeyed afterwards |
| `ServoLoop.DualArmServoLoop.ComputeServoTarget` | src/control/dual_arm_servo_loop.cpp:394-431 | the verdict on the command, and the requested poses or the last sent ones |
| `ServoLoop.DualArmServoLoop.ApplySafetyPolicy` | src/control/dual_arm_servo_loop.cpp:433-489 | new state, targets and verdict of the safety policy for every combination of the two filter results |
| `ServoLoop.DualArmServoLoop.ChooseTarget` | src/control/dual_arm_servo_loop.cpp:205-237 | new state, targets and verdict before the sends |
| `ServoLoop.DualArmServoLoop.BookSends` | src/control/dual_arm_servo_loop.cpp:255-279 | sent histories advance only on success, a failure may latch, and the reported verdict |
| `ServoLoop.DualArmServoLoop.RunTick` | src/control/dual_arm_servo_loop.cpp:165-279 | one iteration takes the whole state to the one the tick function gives, with the command that the buffer's history determines |
| `Runs.ValidReadingsDecide` | src/control/dual_arm_servo_loop.cpp:459-485 | the robot-state-error branch of the safety policy cannot be reached from a tick, and a tracking error is reported if and only if an arm is off track |
| `Runs.TickKeepsBooks` | src/control/dual_arm_servo_loop.cpp:556-592 | every tick keeps the agreement of latch, reason, verdict, text and motion state |
| `Runs.BooksAlwaysKept` | src/control/dual_arm_servo_loop.cpp:183-262 | in every reachable state: latched if and only if the reason is not Ok; FaultLatched and EmergencyLatched imply latched with the matching reason; latched excludes ArmedHold and Running |
| `Runs.TickLatches` | src/control/dual_arm_servo_loop.cpp:183-262 | a tick latches if and only if it has a cause, the reason is the first cause in its order, and each arm's hold pose is its valid reading or else its last sent pose |
| `Runs.LatchedTick` | src/control/dual_arm_servo_loop.cpp:208-220 | without a reset a latch keeps reason, text and hold poses and decides the target |
| `Runs.LatchPersists` | src/control/dual_arm_servo_loop.cpp:574-592 | over any run without a reset the latch, its first reason and its hold poses are unchanged |
| `Runs.LatchedUntilReset` | src/control/dual_arm_servo_loop.cpp:208-220 | from a latch until a reset every target sent to both arms is the pose captured at the latch, whatever commands, readings and send outcomes occur, when state errors latch; otherwise a bad reading repeats the last pose |
| `Runs.TickArms` | src/control/dual_arm_servo_loop.cpp:183-203 | motion is allowed after a tick if and only if it armed an unlatched loop, or motion was allowed and nothing disarmed it, and it ends unlatched |
| `Runs.ObeyedMotion` | src/control/dual_arm_servo_loop.cpp:201-203 | a motion command is obeyed only when motion was allowed before the tick, and then unchanged |
| `Runs.ArmingGate` | src/control/dual_arm_servo_loop.cpp:547-550 | in every run the loop is in ArmedHold or Running if and only if some tick armed it while unlatched and since then nothing disarmed it and no fault latched |
| `Runs.MotionNeedsArming` | src/control/dual_arm_servo_loop.cpp:201-226 | in every run a tick obeys a motion command only as received and in a loop armed in that sense; on every other tick both arms are asked for their last sent pose |
| `TickTable.VerdictTable` | src/control/dual_arm_servo_loop.cpp:205-262 | the verdict of every tick from raw fields: failed sends first, then unusable readings, a held fault, a command at fault, a joint too far away, and a clamped limit exactly when some joint is asked for a value outside its limits |
| `TickTable.LatchTable` | src/control/dual_arm_servo_loop.cpp:574-592 | from raw fields, when a tick is latched, with which reason, and which pose it captures for each arm |
| `TickTable.MotionTable` | src/control/dual_arm_servo_loop.cpp:183-224 | from raw fields, the motion state after every tick |
| `TickTable.SentTable` | src/control/dual_arm_servo_loop.cpp:418-457 | a tick that nothing stops sends each joint the filtered value of its joint target, of its last value moved at its velocity for dt, or of its last value |
| `TickTable.DtTable` | src/control/dual_arm_servo_loop.cpp:166-173 | the dt is the time since the last tick began, the nominal period on the first, between the two ratios |
| `TickTable.HeldCommand` | src/control/dual_arm_servo_loop.cpp:511-525 | a command that is not carried out is replaced by a hold at each arm's reading, or its last sent pose if that is unusable |
| `TickTable.TicksCounted` | src/control/dual_arm_servo_loop.cpp:279-279 | over every run the tick count grows by its length, and the last start is remembered |
| `TickTable.TextAlwaysFits` | src/control/dual_arm_servo_loop.cpp:574-592 | in every run the text kept with a fault is the one of its reason |
| `TickTable.EmergencyStopLatches` | src/control/dual_arm_servo_loop.cpp:183-185 | an EmergencyStop for either arm ends an unlatched loop latched with that reason, in EmergencyLatched |
| `TickTable.ResetClearsLatch` | src/control/dual_arm_servo_loop.cpp:186-192 | a ResetFault for either arm without an EmergencyStop clears a latch, exactly unless the same tick finds a new fault |
| `TickTable.DisarmStopsMotion` | src/control/dual_arm_servo_loop.cpp:193-195 | after a DisarmMotion with neither of those motion is not allowed |
| `TickTable.ArmingArms` | src/control/dual_arm_servo_loop.cpp:196-200 | an ArmMotion with none of the three arms an unlatched loop, unless the tick finds a fault |
| `TickTable.HealthyVerdict` | src/control/dual_arm_servo_loop.cpp:255-262 | in every run, a tick that reports Ok or a clamped limit sent to both arms and ended unlatched |
| `Sends.ReadyArm` | src/control/dual_arm_servo_loop.cpp:564-569 | the lifecycle part of a tick moves a sent history only by clearing a latch |
| `Sends.TickSends` | src/control/dual_arm_servo_loop.cpp:266-276 | a target enters the history of an arm if and only if its send succeeded |
| `Sends.TargetTable` | src/control/dual_arm_servo_loop.cpp:205-237 | the target of every tick in every state, as one table without intermediate states; a tracking error moves the target to the reading under either policy |
| `Sends.TargetCases` | src/control/dual_arm_servo_loop.cpp:205-237 | a target is the last pose, the filter's output or the reading of a snap, or else the tick ends latched |
| `Sends.RemembersLastTwo` | src/control/dual_arm_servo_loop.cpp:140-146 | in every reachable state the two remembered poses are the last two entries of the log of everything sent since startup or the last cleared latch |
| `Sends.EveryPoseIsGrounded` | src/control/dual_arm_servo_loop.cpp:205-245 | every remembered pose and every target sent is the startup reading, a reading that passed the validity check, or a filter output of some tick; no default-initialised pose is ever sent |
| `Envelope.DtInRange` | src/control/dual_arm_servo_loop.cpp:616-622 | the filter dt stays within the two ratios of the nominal period whatever the clock does |
| `Envelope.FilterKeepsStoppable` | src/control/safety_filter.cpp:34-38 | a filtered pose of six joints keeps every joint stoppable within its overrun |
| `Envelope.TickEnveloped` | src/control/dual_arm_servo_loop.cpp:205-276 | every tick has its targets in the envelope and, unless it snaps, keeps the braking invariant of each arm, through latches, resets and failed sends |
| `Envelope.EnvelopeHolds` | src/control/dual_arm_servo_loop.cpp:205-276 | in every run without a snap, so in every run under the fault-latch policy, every joint of every target is within its limits widened by dq_max^2 r_max^2 / (2 ddq_max r_min^2), and by the tracking tolerance plus one step; unlatched steps are at most dq_max r_max T |
| `Envelope.RealModeEnvelope` | src/config/config.cpp:195-225 | an accepted real-mode configuration never snaps, so its targets always keep the braking bound |
| `Confined.TickWithin` | src/control/dual_arm_servo_loop.cpp:205-276 | when every joint brakes in time, every tick keeps both arms' poses and targets within the joint limits |
| `Confined.BrakingInTimeConfines` | src/control/safety_filter.cpp:84-133 | when every joint brakes in time, every target of every run is within the joint limits |
| `Overshoot.EscapeEnds` | src/control/safety_filter.cpp:110-133 | for every accepted configuration, a run from a valid start after which every joint whose longest step exceeds its brake, with room to reach it, is past its lower limit in both arms |
| `Overshoot.SnapEscape` | src/control/dual_arm_servo_loop.cpp:466-470 | if the configuration can snap, a two-tick run that sends every joint whose range exceeds its brake past its lower limit |
| `Overshoot.WithinLimitsIff` | src/control/safety_filter.cpp:84-133 | for every accepted configuration: every target of every run is within the joint limits if and only if every joint brakes in time, a condition on the configuration alone |
| `Overshoot.LongestDtIsMax` | src/control/dual_arm_servo_loop.cpp:616-622 | the longest dt in that condition is the larger ratio of the period, unless that is beyond what a 64-bit clock can show |
| `Overshoot.LimitsAreExceeded` | src/control/safety_filter.cpp:110-133 | a concrete run from a valid start drives every joint of both arms half a degree below the lower limit it was sent to |
| `Snapping.Swing` | src/control/dual_arm_servo_loop.cpp:466-470 | a snap across the range and the tick after it put every joint whose range exceeds its brake further past the other limit, by that difference more |
| `Snapping.SnapsUnbounded` | src/control/dual_arm_servo_loop.cpp:466-470 | if the configuration can snap across a range and some range exceeds its brake, no distance from the limits bounds the targets of all runs |
| `Snapping.BoundedWhen` | src/control/dual_arm_servo_loop.cpp:466-475 | some distance bounds them under the fault-latch policy, when the tolerance covers range and envelope, and when every joint brakes in time |
| `ServoSettling.SteadyStep` | src/control/dual_arm_servo_loop.cpp:221-236 | an undisturbed tick that obeys a goal is one filter step on each joint of both arms, armed or not, and leaves the loop unlatched |
| `ServoSettling.SteadyRunIterates` | src/control/dual_arm_servo_loop.cpp:165-279 | a run of such ticks iterates the filter on each joint at the dts the clock gives |
| `ServoSettling.SteadyRunSettles` | src/control/dual_arm_servo_loop.cpp:165-279 | from every unlatched state one number of ticks is enough for every run that keeps obeying the goal, at any timing: then both arms rest, exactly at the clamped targets, at the limits they are moved to, or within the limits where held |
| `ServoSettling.SteadyCommandSettles` | src/control/dual_arm_servo_loop.cpp:183-236 | commands that keep asking for the same targets, velocities or holds, re-sent at any times with any timeouts, bring both arms to rest there; arming is needed only if an arm is to move |
| `ServoSettling.UnarmedSettles` | src/control/dual_arm_servo_loop.cpp:193-203 | once a loop is disarmed both arms come to rest within their limits whatever motion is still commanded |
| `ServoSettling.VelocityRunSpeedsUp` | src/control/trajectory_filter.cpp:55-70 | in a run of velocity commands at a regular dt each joint speeds up by its acceleration limit per tick until it makes steps of its velocity times dt, or reaches its limit |
| `Mock.MockBackend.constructor` | src/robot/mock_backend.cpp:8-9 | a mock robot starts unconnected and uninitialized |
| `Mock.MockBackend.Connect` | src/robot/mock_backend.cpp:11-14 | connecting always succeeds and moves nothing |
| `Mock.MockBackend.Initialize` | src/robot/mock_backend.cpp:16-22 | the plant starts at rest at its initial pose |
| `Mock.MockBackend.ReadState` | src/robot/mock_backend.cpp:24-45 | each joint closes the fraction of its gap that the elapsed time gives, between 0 and 1, and the new pose is reported |
| `Mock.ReadTable` | src/robot/mock_backend.cpp:24-45 | a read after 40 ms finds the joint at its target, an earlier one has closed the elapsed part of 40 ms of the gap, and the first one an eighth |
| `Mock.MockBackend.SendServoJ` | src/robot/mock_backend.cpp:47-50 | the target changes in any case; success if and only if connected and initialized |
| `Mock.MockBackend.Stop` | src/robot/mock_backend.cpp:52-55 | the plant holds where it is |
| `ClosedLoop.ReadLeavesLag` | src/robot/mock_backend.cpp:24-45 | a read that closes at least a0 of the gap leaves at most S(1 - a0)/a0 when steps are at most S |
| `ClosedLoop.StepFollows` | src/control/safety_filter.cpp:58-68 | one tick of the loop and both robots keeps the lag invariant, through latches, resets and holds, and has no tracking error |
| `ClosedLoop.NoTrackingError` | src/control/safety_filter.cpp:58-68 | if each read closes at least a0 of the gap and that lag is within the tolerance, no run under any commands ever has a tracking error |
| `Force.ForceController.constructor` | src/control/force_controller.cpp:14-14 | a fresh controller has no offset |
| `Force.ForceController.Reset` | src/control/force_controller.cpp:16-20 | a reset controller is a fresh one |
| `Force.ForceController.LowPass` | src/control/force_controller.cpp:22-36 | the first measurement is taken as it is, later ones are blended |
| `Force.ForceController.ComputeTcpCompensation` | src/control/force_controller.cpp:38-67 | the new state of every call, and the returned offset, zero when disabled |
| `Force.OffsetStaysBounded` | src/control/force_controller.cpp:69-83 | over any calls each offset is within the bound in force at the last enabled one, and the next enabled call moves it by at most its step unless it tightens that bound |
| `Force.FilteredWithinMeasured` | src/control/force_controller.cpp:22-36 | the filtered wrench stays within the range of the measurements since the last reset |
| `Force.CallAdvances` | src/control/force_controller.cpp:49-66 | while the filtered wrench is short of the target by a margin, one call moves the offset by at least a fixed pace, or to its bound, never back, from any offset |
| `Force.FilterApproaches` | src/control/force_controller.cpp:22-36 | measurements on one side of a value never move the filtered wrench further to the other side, and bring it closer while it is there |
| `Force.DrivenToBound` | src/control/force_controller.cpp:38-83 | from every state, measurements that vary but stay short of the target drive an enabled axis to its bound in finitely many calls and keep it there; a filter that ignores measurements need only be short of it itself |
| `Force.ReachesBound` | src/control/force_controller.cpp:38-83 | after any calls, a constant nonzero force error drives an enabled axis to its bound in finitely many calls and keeps it there, when the filter follows at all |
| `Force.FrozenAtTarget` | src/control/force_controller.cpp:22-31 | a filter with no gain stays where it is, and at the target the force error moves nothing |
| `Force.FilterTable` | src/control/force_controller.cpp:22-36 | the first measurement is taken whole, every later one blended with the clamped filter gain |
| `Force.DisabledCall` | src/control/force_controller.cpp:47-47 | a disabled controller, the mode Off or no time leave everything as it is |
| `Force.CallTable` | src/control/force_controller.cpp:49-83 | the offset of an axis after a call from the gain, step and bound of a translation or a rotation, a positive setting of the command going before the configured one; only admittance-like modes and enabled axes integrate |
| `Force.ReachesBoundInForce` | src/control/force_controller.cpp:38-83 | a constant force error drives an enabled axis to exactly the bound the command sets, or the configured one |
| `CommandServer.ReadOptionalNumber` | src/network/command_server.cpp:55-59 | fails if and only if the key is present and not a finite number |
| `CommandServer.ReadOptionalArray6` | src/network/command_server.cpp:85-99 | fails if and only if the key is present and not exactly six finite numbers; otherwise exactly those values, or the default |
| `CommandServer.ParseForceControl` | src/network/command_server.cpp:121-150 | accepts exactly the well-formed force settings, with defaults for absent fields |
| `CommandServer.ParseArmObject` | src/network/command_server.cpp:177-227 | accepts exactly the well-formed arm objects with a positive timeout and returns what they mean |
| `CommandServer.ParseMessage` | src/network/command_server.cpp:342-420 | accepts a message if and only if every field present is well formed, timeouts are positive and each motion mode has its payload, and returns what it means |
| `MessageTable.MessageMeans` | src/network/command_server.cpp:121-227 | from the JSON items: each arm's mode, timeout, gripper, payloads item by item in order, and force settings are its own, else the message's or the default |
| `MessageTable.AcceptedIff` | src/network/command_server.cpp:342-420 | from the JSON items: a message is accepted if and only if every field it has is well formed and whichever mode an arm ends with has its payload |
| `MessageTable.SpellingsRead` | src/core/types.cpp:85-99 | a name is read as a mode if and only if it is one of that mode's spellings, in any case |
| `EndToEnd.AcceptedMeans` | src/network/command_server.cpp:342-420 | an accepted command has positive finite timeouts, each of its five motion modes carries the six finite values of the message item by item, and each arm ends with its own mode and timeout or else the message's |
| `EndToEnd.SystemRunsTheLoop` | src/control/dual_arm_servo_loop.cpp:179-181 | any interleaving of messages and ticks drives a run of the servo loop, so every theorem over runs applies |
| `EndToEnd.AnswerIsExecutable` | src/control/command_buffer.cpp:43-76 | if every received command has its payloads, so does every answer of the buffer, generated holds included |
| `EndToEnd.InvalidMeansMissing` | src/control/dual_arm_servo_loop.cpp:404-409 | InvalidCommand is reported only for a command without its payload |
| `EndToEnd.NeverInvalid` | src/network/command_server.cpp:160-175 | whatever messages arrive, and however they interleave with ticks, no tick reports InvalidCommand |
| `EndToEnd.ObeyedMotionWasAsked` | src/control/dual_arm_servo_loop.cpp:179-203 | a tick of any system run that obeys motion obeys the last accepted message, unchanged and within its timeout, and an accepted message had asked to arm the loop before it |
| `EndToEnd.PolledEmergencyLatches` | src/control/dual_arm_servo_loop.cpp:179-185 | a tick of any system run that polls an EmergencyStop for either arm ends latched, with that reason unless it was latched before |
| `EndToEnd.EmergencyMessageLatches` | src/control/command_buffer.cpp:43-65 | an accepted message that stops either arm latches the loop at the next tick within its timeouts, if no lifecycle command before it is still in time |
| `EndToEnd.SilenceSettles` | src/control/command_buffer.cpp:67-75 | once every accepted message has expired and none arrives, both arms of an unlatched loop come to rest within their limits, after any messages before |
| `Csv.CsvEscape` | src/logging/servo_logger.cpp:97-114 | text with a comma, quote, LF or CR is quoted with its quotes doubled, all other text is unchanged |
| `Csv.FieldReadsBack` | src/logging/servo_logger.cpp:97-114 | a printed field, whatever its text, is read back exactly, up to where it ends |
| `Csv.UnquotedReadsBackIff` | src/logging/servo_logger.cpp:98-105 | text printed without quotes is read back if and only if it has none of the four characters that make the printer quote it |
| `Csv.TextReadsBack` | src/logging/servo_logger.cpp:97-146 | a file is read back as exactly the records written, by a reader following section 2 of RFC 4180 with LF as record end |
| `ServoLog.ModeNameReadsBack` | src/core/types.cpp:85-99 | the mode name printed in a row is one the command parser reads as that mode |
| `ServoLog.HeaderNames` | src/logging/servo_logger.cpp:86-94 | the header has 49 columns, with the fault reason and the drop count at the places where rows have them |
| `ServoLog.ColumnsHeaded` | src/logging/servo_logger.cpp:86-133 | the first sixteen values of a row are each under their own heading |
| `ServoLog.SendColumnsHeaded` | src/logging/servo_logger.cpp:134-145 | so are the values about the sends and the error codes |
| `ServoLog.JointsHeaded` | src/logging/servo_logger.cpp:141-144 | each joint value is under the heading of its arm, its kind and its number |
| `ServoLog.WordsReadBack` | src/core/types.cpp:38-75 | printed numbers are read back, and printed verdicts and motion states are told apart |
| `ServoLog.RowText` | src/logging/servo_logger.cpp:117-146 | the row is the line of its 49 columns, only the fault reason needing the escape |
| `ServoLog.LogReadsBack` | src/logging/servo_logger.cpp:86-146 | the log splits back into the header and one 49-column row per sample with its fault reason unchanged, for every fault reason |
| `ServoLog.ServoLogger.constructor` | src/logging/servo_logger.cpp:15-30 | an opened log holds the header alone |
| `ServoLog.ServoLogger.Push` | src/logging/servo_logger.cpp:48-63 | a full queue loses its oldest sample and counts it; every sample pushed is queued, taken or counted as dropped |
| `ServoLog.ServoLogger.TakeOldest` | src/logging/servo_logger.cpp:75-77 | the writer takes the oldest queued sample |
| `ServoLog.ServoLogger.WriteSample` | src/logging/servo_logger.cpp:117-146 | the file grows by exactly the row of that sample, with the drop count at that time |
| `ServoLog.FileShowsPushed` | src/logging/servo_logger.cpp:48-146 | at any time the file splits back into rows of pushed samples in the order pushed, and row k shows at least as many drops as samples are missing before it |

## Left out

- UDP sockets, threads, sleeping, realtime priorities and CPU pinning: a message arrives and a tick happens, in any order.
- The loop thread: starting a stopped loop is one step, a run is any finite sequence of ticks after it, and stopping sends the robots a stop.
- JSON text and state serialization: parsing starts from a JSON tree, and the state publisher is not modelled.
- Exceptions: an unknown mode name, which the source raises and catches, is a refusal like any other malformed field.
- `RbpodoBackend` and `CartesianController` refuse or throw; Cartesian modes only make both arms keep their last pose.
- YAML files, environment variables and endpoint strings: `Envelope.Accepted` has the numeric and policy checks of `validateConfig` that the theorems need.
- Floating-point rounding, 64-bit wrap-around of deadlines, and timeouts too large to convert to nanoseconds.
- Timing, skew and jitter fields and the snapshot copy: recorded, never used for a decision.
- `resetFault` of the robots when a latch is cleared: its result is not used.
- The lock around each buffer call: a call is one atomic step.
- Force settings and gripper values of a command reach the command but nothing in the servo loop reads them.
- The operator console, the command-line tools, log plotting and log budgets.
- Envelope.EnvelopeHolds: does not cover ticks after a snap, which makes the last displacement arbitrary; real mode refuses the policy that snaps.
- Envelope.EnvelopeHolds: bounds the targets handed to an arm, not where a real robot goes.
- Force.ReachesBound: requires a positive `force_lpf_alpha`; without one the filter keeps the first measurement since the last reset, and Force.DrivenToBound and Force.FrozenAtTarget say what that one decides.
- ServoSettling.SteadyCommandSettles: covers ticks with valid readings on track and successful sends; what a latched loop sends is Runs.LatchedUntilReset.
- ServoSettling.VelocityRunSpeedsUp: speaks of a regular dt; at varying dts Settling.MovingStep gives each step and ServoSettling.SteadyRunSettles the end.
- Snapping.BoundedWhen: does not decide snapping configurations whose tolerance covers every range but not the envelope around it; whether those are bounded depends on how far a run really overshoots.
- ClosedLoop.NoTrackingError: both mock robots stay connected and initialized; the fraction a0 is a hypothesis on the time between reads.
- ServoLog.FileShowsPushed: says nothing about samples still queued at stop, which may stay unwritten, nor about flushing; a file reopened by a second start is not modelled.
- ServoLog.RowText: floating-point values are given by their printed text, assumed free of commas, quotes and line ends.
- Csv.TextReadsBack: the reader admits any character but the four special ones in an unquoted field, as the printer does, where RFC 4180 lists printable ASCII only.
