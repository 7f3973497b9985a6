/** The trajectory filter of one arm: what a command asks the safety filter for. */
module Trajectory {
  import opened Types
  import opened JointStep
  import Safety

  function TrackedPose(c: SafetyConfig, raw: JointArray, prev: JointArray, dt: real): JointArray {
    seq(DOF, i requires 0 <= i < DOF => TrackTarget(LimitsAt(c, i), raw[i], prev[i], dt))
  }

  function IntegratedPose(c: SafetyConfig, dq: JointArray, prev: JointArray, dt: real): JointArray {
    seq(DOF, i requires 0 <= i < DOF => TrackVelocity(LimitsAt(c, i), dq[i], prev[i], dt))
  }

  /** The pose requested by a command: the previous one unless the command moves the joints. */
  function Requested(c: SafetyConfig, command: ArmCommand, prev: JointArray, dt: real): JointArray {
    match command.mode
    case JointTarget => TrackedPose(c, command.qTarget, prev, dt)
    case JointVelocity => IntegratedPose(c, command.dqTarget, prev, dt)
    case _ => prev
  }

  class TrajectoryFilter {
    const safetyConfig: SafetyConfig

    constructor (safetyConfig: SafetyConfig)
      ensures this.safetyConfig == safetyConfig
    {
      this.safetyConfig := safetyConfig;
    }

    method FilterJointTarget(raw: JointArray, prev: JointArray, dt: real) returns (out: JointArray)
      ensures out == TrackedPose(safetyConfig, raw, prev, dt)
    {
      out := prev;
      for i := 0 to DOF
        invariant forall j :: 0 <= j < i ==> out[j] == TrackTarget(LimitsAt(safetyConfig, j), raw[j], prev[j], dt)
      {
        var maxStep := safetyConfig.dqMax[i] * dt;
        var delta := Clamp(raw[i] - prev[i], -maxStep, maxStep);
        out := out[i := prev[i] + delta];
      }
    }

    method IntegrateJointVelocity(dqTarget: JointArray, prev: JointArray, dt: real) returns (out: JointArray)
      ensures out == IntegratedPose(safetyConfig, dqTarget, prev, dt)
    {
      out := prev;
      for i := 0 to DOF
        invariant forall j :: 0 <= j < i ==>
          out[j] == TrackVelocity(LimitsAt(safetyConfig, j), dqTarget[j], prev[j], dt)
      {
        var dq := Clamp(dqTarget[i], -safetyConfig.dqMax[i], safetyConfig.dqMax[i]);
        out := out[i := prev[i] + dq * dt];
      }
    }

    method ComputeJointTarget(command: ArmCommand, prev: JointArray, dt: real) returns (out: JointArray)
      ensures out == Requested(safetyConfig, command, prev, dt)
    {
      match command.mode {
        case JointTarget =>
          out := FilterJointTarget(command.qTarget, prev, dt);
        case JointVelocity =>
          out := IntegrateJointVelocity(command.dqTarget, prev, dt);
        case _ =>
          out := prev;
      }
    }
  }

  /** A joint target gives the same filtered pose whether or not it passes the trajectory filter first. */
  lemma TargetComposition(c: SafetyConfig, raw: JointArray, prev: JointArray, prevprev: JointArray, dt: real)
    requires SoundLimits(c)
    ensures Safety.FilteredPose(c, TrackedPose(c, raw, prev, dt), prev, prevprev, dt)
         == Safety.FilteredPose(c, raw, prev, prevprev, dt)
  {
    hide FilterJoint;
    forall i | 0 <= i < DOF
      ensures FilterJoint(LimitsAt(c, i), TrackTarget(LimitsAt(c, i), raw[i], prev[i], dt), prev[i], prevprev[i], dt)
           == FilterJoint(LimitsAt(c, i), raw[i], prev[i], prevprev[i], dt)
    {
      TrajectoryFilterIsRedundant(LimitsAt(c, i), raw[i], prev[i], prevprev[i], dt);
    }
  }

  /** The pose one dt ahead at velocity dq. */
  function AheadPose(dq: JointArray, prev: JointArray, dt: real): JointArray {
    seq(DOF, i requires 0 <= i < DOF => Ahead(dq[i], prev[i], dt))
  }

  /** A velocity command gives the same filtered pose as the joint target one dt ahead. */
  lemma VelocityComposition(c: SafetyConfig, dq: JointArray, prev: JointArray, prevprev: JointArray, dt: real)
    requires SoundLimits(c)
    ensures Safety.FilteredPose(c, IntegratedPose(c, dq, prev, dt), prev, prevprev, dt)
         == Safety.FilteredPose(c, AheadPose(dq, prev, dt), prev, prevprev, dt)
  {
    hide FilterJoint;
    forall i | 0 <= i < DOF
      ensures FilterJoint(LimitsAt(c, i), TrackVelocity(LimitsAt(c, i), dq[i], prev[i], dt), prev[i], prevprev[i], dt)
           == FilterJoint(LimitsAt(c, i), Ahead(dq[i], prev[i], dt), prev[i], prevprev[i], dt)
    {
      VelocityIsTarget(LimitsAt(c, i), dq[i], prev[i], prevprev[i], dt);
    }
  }
}
