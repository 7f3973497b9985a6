/** The servo loop as it runs: fields updated in place by each tick, with the filters and the buffer it owns. */
module ServoLoop {
  import opened Types
  import opened Tick
  import Buffer
  import Safety
  import Trajectory

  class DualArmServoLoop {
    const config: Config
    const safetyFilter: Safety.SafetyFilter
    const leftTrajFilter: Trajectory.TrajectoryFilter
    const rightTrajFilter: Trajectory.TrajectoryFilter
    const commandBuffer: Buffer.CommandBuffer?

    var motionState: MotionState
    var faultLatched: bool
    var faultVerdict: Verdict
    var latchedFaultReason: Verdict
    var faultReason: string
    var leftArm: Arm
    var rightArm: Arm
    var tick: nat
    var lastLoopStart: nat

    ghost predicate Valid()
      reads this, commandBuffer
    {
      && SoundLimits(config.safety)
      && safetyFilter.config == config.safety
      && leftTrajFilter.safetyConfig == config.safety
      && rightTrajFilter.safetyConfig == config.safety
      && (commandBuffer != null ==> commandBuffer.Valid())
    }

    ghost function State(): State
      reads this
    {
      Tick.State(motionState, faultLatched, faultVerdict, latchedFaultReason, faultReason,
                 leftArm, rightArm, tick, lastLoopStart)
    }

    constructor (config: Config, commandBuffer: Buffer.CommandBuffer?)
      requires SoundLimits(config.safety) && (commandBuffer != null ==> commandBuffer.Valid())
      ensures Valid() && this.config == config && this.commandBuffer == commandBuffer
      ensures State() == Tick.State(Disconnected, false, Ok, Ok, "", Rebased(ZERO6), Rebased(ZERO6), 0, 0)
      ensures FaultsAgree(State())
    {
      this.config := config;
      this.commandBuffer := commandBuffer;
      var safety := new Safety.SafetyFilter(config.safety);
      var left := new Trajectory.TrajectoryFilter(config.safety);
      var right := new Trajectory.TrajectoryFilter(config.safety);
      safetyFilter, leftTrajFilter, rightTrajFilter := safety, left, right;
      motionState, faultLatched := Disconnected, false;
      faultVerdict, latchedFaultReason, faultReason := Ok, Ok, "";
      leftArm, rightArm := Rebased(ZERO6), Rebased(ZERO6);
      tick, lastLoopStart := 0, 0;
    }

    method IsValidJointState(state: RobotState) returns (valid: bool)
      ensures valid == ValidReading(config.safety, state)
    {
      if state.connection != Connected || !state.hasValidJointState || state.hasError || !state.qFinite {
        return false;
      }
      for i := 0 to DOF
        invariant forall j :: 0 <= j < i ==> config.safety.qMin[j] <= state.qActual[j] <= config.safety.qMax[j]
      {
        var q := state.qActual[i];
        if q < config.safety.qMin[i] || q > config.safety.qMax[i] {
          return false;
        }
      }
      return true;
    }

    /** `linked` stands for the outcomes of connect and initialize, `readOk` for the first reads. */
    method InitializeRobots(linked: bool, readOk: bool, left: RobotState, right: RobotState) returns (ok: bool)
      requires Valid()
      modifies this
      ensures Valid()
      ensures ok == (linked && readOk && ValidReading(config.safety, left) && ValidReading(config.safety, right))
      ensures State() == if ok then old(State()).(motion := ConnectedHold, left := Rebased(left.qActual),
                                                  right := Rebased(right.qActual))
                         else old(State())
    {
      if !linked || !readOk {
        return false;
      }
      var leftValid := IsValidJointState(left);
      var rightValid := IsValidJointState(right);
      if !leftValid || !rightValid {
        return false;
      }
      leftArm := Arm(left.qActual, left.qActual, left.qActual);
      rightArm := Arm(right.qActual, right.qActual, right.qActual);
      motionState := ConnectedHold;
      return true;
    }

    /** Starts a loop that is not running, for the first time or again; a latched fault survives a restart.
        `realtimeOk` stands for the realtime setup of the loop thread. */
    method Start(linked: bool, readOk: bool, left: RobotState, right: RobotState, realtimeOk: bool) returns (ok: bool)
      requires Valid()
      modifies this
      ensures Valid()
      ensures ok == (linked && readOk && ValidReading(config.safety, left) && ValidReading(config.safety, right)
                     && (realtimeOk || !IsReal(config)))
      ensures ok ==> State() == old(State()).(motion := ConnectedHold, left := Rebased(left.qActual),
                                              right := Rebased(right.qActual), lastStart := 0)
      ensures ok && FaultsAgree(old(State())) ==> Initial(config, State())
    {
      ok := InitializeRobots(linked, readOk, left, right);
      if ok {
        if !realtimeOk && IsReal(config) {
          return false;
        }
        lastLoopStart := 0;
      }
    }

    method ChooseSafeHoldTarget(state: RobotState, previousSent: JointArray) returns (q: JointArray)
      ensures q == SafeHold(config.safety, state, previousSent)
    {
      var valid := IsValidJointState(state);
      q := if valid then state.qActual else previousSent;
    }

    method LatchFault(verdict: Verdict, reason: string, left: RobotState, right: RobotState)
      modifies this
      ensures State() == Latch(config, old(State()), verdict, reason, left, right)
    {
      hide ValidReading;
      if faultLatched {
        return;
      }
      faultLatched := true;
      faultVerdict := verdict;
      latchedFaultReason := verdict;
      faultReason := reason;
      var leftPose := ChooseSafeHoldTarget(left, leftArm.prev);
      var rightPose := ChooseSafeHoldTarget(right, rightArm.prev);
      leftArm := leftArm.(faultHold := leftPose);
      rightArm := rightArm.(faultHold := rightPose);
      motionState := if verdict == EmergencyStopped then EmergencyLatched else FaultLatched;
    }

    method ClearFaultLatch(left: RobotState, right: RobotState)
      modifies this
      ensures State() == ClearLatch(config, old(State()), left, right)
    {
      hide SafeHold;
      var leftPose := ChooseSafeHoldTarget(left, leftArm.prev);
      var rightPose := ChooseSafeHoldTarget(right, rightArm.prev);
      faultLatched, faultVerdict, latchedFaultReason, faultReason := false, Ok, Ok, "";
      leftArm := Arm(leftPose, leftPose, leftPose);
      rightArm := Arm(rightPose, rightPose, rightPose);
      motionState := ConnectedHold;
    }

    method MakeHoldCommand(left: RobotState, right: RobotState, now: nat) returns (command: DualCommand)
      ensures command == HoldCommand(now, SafeHold(config.safety, left, leftArm.prev),
                                     SafeHold(config.safety, right, rightArm.prev))
    {
      var leftPose := ChooseSafeHoldTarget(left, leftArm.prev);
      var rightPose := ChooseSafeHoldTarget(right, rightArm.prev);
      command := HoldCommand(now, leftPose, rightPose);
    }

    /** The lifecycle part of a tick; returns the command the rest of it obeys. */
    method HandleLifecycle(input: Input) returns (command: DualCommand)
      modifies this
      ensures State() == Admitted(config, old(State()), input)
      ensures command == Obeyed(config, old(State()), input)
    {
      hide ValidReading;
      command := input.command;
      if Requests(command, EmergencyStop) {
        LatchFault(EmergencyStopped, "EmergencyStop command", input.left, input.right);
        command := MakeHoldCommand(input.left, input.right, input.start);
      } else if Requests(command, ResetFault) {
        if faultLatched {
          ClearFaultLatch(input.left, input.right);
        } else {
          motionState := ConnectedHold;
        }
        command := MakeHoldCommand(input.left, input.right, input.start);
      } else if Requests(command, DisarmMotion) {
        motionState := ConnectedHold;
        command := MakeHoldCommand(input.left, input.right, input.start);
      } else if Requests(command, ArmMotion) {
        if !faultLatched {
          motionState := ArmedHold;
        }
        command := MakeHoldCommand(input.left, input.right, input.start);
      } else if RequestsMotion(command) && !(motionState == ArmedHold || motionState == Running) {
        command := MakeHoldCommand(input.left, input.right, input.start);
      }
    }

    method ComputeServoTarget(command: DualCommand, dt: real) returns (target: Target, verdict: Verdict)
      requires Valid()
      ensures verdict == CommandVerdict(command) && target == Desired(config, State(), command, dt)
    {
      target, verdict := Target(leftArm.prev, rightArm.prev), Ok;
      if MissingPayload(command.left) || MissingPayload(command.right) {
        return target, InvalidCommand;
      }
      if IsCartesian(command.left.mode) || IsCartesian(command.right.mode) {
        return target, CartesianUnavailable;
      }
      var left := leftTrajFilter.ComputeJointTarget(command.left, leftArm.prev, dt);
      var right := rightTrajFilter.ComputeJointTarget(command.right, rightArm.prev, dt);
      target := Target(left, right);
    }

    method ApplySafetyPolicy(desired: Target, input: Input, dt: real) returns (target: Target, verdict: Verdict)
      requires Valid()
      modifies this
      ensures Decision(State(), target, verdict) == ApplySafety(config, old(State()), desired, input, dt)
    {
      hide ValidReading;
      hide Safety.Check;
      var l := safetyFilter.FilterJointTarget(desired.left, leftArm.prev, leftArm.prevprev, input.left, dt);
      var r := safetyFilter.FilterJointTarget(desired.right, rightArm.prev, rightArm.prevprev, input.right, dt);
      target, verdict := Target(l.filtered, r.filtered), Ok;
      if !l.ok {
        verdict := l.verdict;
      }
      if !r.ok && verdict == Ok {
        verdict := r.verdict;
      }
      if (l.limitClamped || r.limitClamped) && verdict == Ok {
        verdict := LimitClamped;
      }
      if verdict == TrackingError {
        if config.safety.trackingPolicy == SnapToActual {
          target := Target(input.left.qActual, input.right.qActual);
        } else {
          LatchFault(TrackingError, "tracking error exceeded threshold", input.left, input.right);
          target, verdict := Target(leftArm.faultHold, rightArm.faultHold), Latched;
        }
      } else if verdict == RobotStateError {
        if config.safety.latchOnStateError {
          LatchFault(RobotStateError, "robot state error or disconnected", input.left, input.right);
          target, verdict := Target(leftArm.faultHold, rightArm.faultHold), Latched;
        } else {
          target := Target(leftArm.prev, rightArm.prev);
        }
      }
    }

    /** The part of a tick between the command and the sends. */
    method ChooseTarget(command: DualCommand, input: Input, dt: real) returns (target: Target, verdict: Verdict)
      requires Valid()
      modifies this
      ensures Decision(State(), target, verdict) == Decide(config, old(State()), command, input, dt)
    {
      hide ValidReading;
      verdict := Ok;
      var leftValid := IsValidJointState(input.left);
      var rightValid := IsValidJointState(input.right);
      if !input.stateOk || !leftValid || !rightValid {
        verdict := RobotStateError;
        if IsReal(config) || config.safety.latchOnStateError {
          LatchFault(RobotStateError, "robot state read failed or invalid", input.left, input.right);
          target, verdict := Target(leftArm.faultHold, rightArm.faultHold), Latched;
        } else {
          target := Target(leftArm.prev, rightArm.prev);
        }
      } else if faultLatched {
        target, verdict := Target(leftArm.faultHold, rightArm.faultHold), Latched;
      } else {
        if RequestsMotion(command) {
          motionState := Running;
        }
        var desired, commandVerdict := ComputeServoTarget(command, dt);
        if commandVerdict != Ok {
          target, verdict := Target(leftArm.prev, rightArm.prev), commandVerdict;
        } else {
          target, verdict := ApplySafetyPolicy(desired, input, dt);
        }
      }
    }

    /** Books the outcomes of the two sends of `target`. */
    method BookSends(target: Target, decided: Verdict, input: Input) returns (verdict: Verdict)
      modifies this
      ensures State() == Booked(AfterSend(config, Decision(old(State()), target, decided), input), target, input)
      ensures verdict == FinalVerdict(config, Decision(old(State()), target, decided), input)
    {
      hide SafeHold;
      verdict := decided;
      if !input.leftSent || !input.rightSent {
        verdict := SendFailure;
        if IsReal(config) || config.safety.stopBothArms {
          LatchFault(SendFailure, "sendServoJ failed", input.left, input.right);
          verdict := Latched;
        }
      }
      if input.leftSent {
        leftArm := leftArm.(prevprev := leftArm.prev, prev := target.left);
      }
      if input.rightSent {
        rightArm := rightArm.(prevprev := rightArm.prev, prev := target.right);
      }
      tick := tick + 1;
    }

    /** One iteration of the loop: the outcomes of the sends are known once the target is chosen. */
    method RunTick(start: nat, stateOk: bool, left: RobotState, right: RobotState, leftSent: bool, rightSent: bool)
        returns (ghost input: Input, report: Report)
      requires Valid()
      modifies this, commandBuffer
      ensures Valid()
      ensures commandBuffer != null ==> commandBuffer.history == old(commandBuffer.history) + [Buffer.Polled(start)]
      ensures input == Input(start, stateOk, left, right,
                             if commandBuffer != null then Buffer.Answer(old(commandBuffer.history), start)
                             else HoldCommand(start, SafeHold(config.safety, left, old(leftArm.prev)),
                                              SafeHold(config.safety, right, old(rightArm.prev))),
                             leftSent, rightSent)
      ensures State() == After(config, old(State()), input)
      ensures report == ReportOf(config, old(State()), input)
    {
      hide Decide;
      hide Admitted;
      hide Obeyed;
      hide AfterSend;
      hide FinalVerdict;
      hide Booked;
      hide FilterDt;
      hide SafeHold;
      hide Buffer.Answer;
      var dt := FilterDt(config.servo, lastLoopStart, start);
      lastLoopStart := start;
      var command;
      if commandBuffer != null {
        command := commandBuffer.LatestOrHold(start);
      } else {
        command := MakeHoldCommand(left, right, start);
      }
      var arrived := Input(start, stateOk, left, right, command, leftSent, rightSent);
      input := arrived;
      assert State() == Started(old(State()), arrived);
      command := HandleLifecycle(arrived);
      var target, verdict := ChooseTarget(command, arrived, dt);
      verdict := BookSends(target, verdict, arrived);
      report := Report(command, target, verdict, dt);
    }
  }
}
