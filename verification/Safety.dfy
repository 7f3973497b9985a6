/** The safety filter of one arm: state check, tracking check, and the three clamps over six joints. */
module Safety {
  import opened Types
  import opened JointStep

  datatype CheckResult = CheckResult(filtered: JointArray, verdict: Verdict, ok: bool, limitClamped: bool)

  function CheckState(s: RobotState): Verdict {
    if s.hasError then RobotStateError
    else if s.connection == ConnectionError || s.connection == NotConnected then RobotStateError
    else Ok
  }

  predicate OffTrack(c: SafetyConfig, prev: JointArray, s: RobotState) {
    exists i :: 0 <= i < DOF && Abs(prev[i] - s.qActual[i]) > c.maxTrackingError
  }

  predicate OutsideLimits(c: SafetyConfig, q: JointArray) {
    exists i :: 0 <= i < DOF && !(c.qMin[i] <= q[i] <= c.qMax[i])
  }

  /** Every joint filtered on its own. */
  function FilteredPose(
      c: SafetyConfig, desired: JointArray, prev: JointArray, prevprev: JointArray, dt: real): JointArray
  {
    seq(DOF, i requires 0 <= i < DOF => FilterJoint(LimitsAt(c, i), desired[i], prev[i], prevprev[i], dt))
  }

  /** The outcome of one check: the previous pose on an error, the filtered pose otherwise. */
  function Check(
      c: SafetyConfig, desired: JointArray, prev: JointArray, prevprev: JointArray, s: RobotState, dt: real)
      : CheckResult
  {
    if CheckState(s) != Ok then CheckResult(prev, CheckState(s), false, false)
    else if OffTrack(c, prev, s) then CheckResult(prev, TrackingError, false, false)
    else
      var clamped := OutsideLimits(c, desired);
      CheckResult(FilteredPose(c, desired, prev, prevprev, dt), if clamped then LimitClamped else Ok, true, clamped)
  }

  class SafetyFilter {
    const config: SafetyConfig

    constructor (config: SafetyConfig)
      ensures this.config == config
    {
      this.config := config;
    }

    method HasTrackingError(prev: JointArray, state: RobotState) returns (off: bool)
      ensures off == OffTrack(config, prev, state)
    {
      for i := 0 to DOF
        invariant forall j :: 0 <= j < i ==> Abs(prev[j] - state.qActual[j]) <= config.maxTrackingError
      {
        if Abs(prev[i] - state.qActual[i]) > config.maxTrackingError {
          return true;
        }
      }
      return false;
    }

    method ClampJointLimits(q: JointArray) returns (out: JointArray, clamped: bool)
      requires SoundLimits(config)
      ensures forall j :: 0 <= j < DOF ==> out[j] == Clamp(q[j], config.qMin[j], config.qMax[j])
      ensures clamped == OutsideLimits(config, q)
    {
      out, clamped := q, false;
      for i := 0 to DOF
        invariant forall j :: 0 <= j < i ==> out[j] == Clamp(q[j], config.qMin[j], config.qMax[j])
        invariant forall j :: i <= j < DOF ==> out[j] == q[j]
        invariant clamped == exists j :: 0 <= j < i && !(config.qMin[j] <= q[j] <= config.qMax[j])
      {
        var before := out[i];
        out := out[i := Clamp(out[i], config.qMin[i], config.qMax[i])];
        clamped := clamped || out[i] != before;
      }
    }

    method ClampVelocity(q: JointArray, prev: JointArray, dt: real) returns (out: JointArray)
      ensures dt <= 0.0 ==> out == prev
      ensures 0.0 < dt ==> forall j :: 0 <= j < DOF ==> out[j] == VelocityStage(q[j], prev[j], config.dqMax[j], dt)
    {
      out := q;
      if dt <= 0.0 {
        return prev;
      }
      for i := 0 to DOF
        invariant forall j :: 0 <= j < i ==> out[j] == VelocityStage(q[j], prev[j], config.dqMax[j], dt)
      {
        var maxStep := config.dqMax[i] * dt;
        out := out[i := prev[i] + Clamp(q[i] - prev[i], -maxStep, maxStep)];
      }
    }

    /** The body of the loop of ClampAcceleration. */
    static method LimitAcceleration(q: real, p: real, pp: real, ddq: real, dt: real) returns (out: real)
      requires 0.0 < dt
      ensures out == AccelerationStage(q, p, pp, ddq, dt)
    {
      var prevVel := (p - pp) / dt;
      var desiredVel := (q - p) / dt;
      var maxDv := ddq * dt;
      var vel := prevVel + Clamp(desiredVel - prevVel, -maxDv, maxDv);
      out := p + vel * dt;
      if q >= p {
        out := Min(out, q);
      } else {
        out := Max(out, q);
      }
    }

    method ClampAcceleration(q: JointArray, prev: JointArray, prevprev: JointArray, dt: real) returns (out: JointArray)
      ensures dt <= 0.0 ==> out == prev
      ensures 0.0 < dt ==>
        forall j :: 0 <= j < DOF ==> out[j] == AccelerationStage(q[j], prev[j], prevprev[j], config.ddqMax[j], dt)
    {
      out := q;
      if dt <= 0.0 {
        return prev;
      }
      hide AccelerationStage;
      for i := 0 to DOF
        invariant forall j :: 0 <= j < i ==>
          out[j] == AccelerationStage(q[j], prev[j], prevprev[j], config.ddqMax[j], dt)
      {
        var next := LimitAcceleration(q[i], prev[i], prevprev[i], config.ddqMax[i], dt);
        out := out[i := next];
      }
    }

    method FilterJointTarget(desired: JointArray, prev: JointArray, prevprev: JointArray, state: RobotState, dt: real)
        returns (result: CheckResult)
      requires SoundLimits(config)
      ensures result == Check(config, desired, prev, prevprev, state, dt)
    {
      var stateVerdict := CheckState(state);
      if stateVerdict != Ok {
        return CheckResult(prev, stateVerdict, false, false);
      }
      var offTrack := HasTrackingError(prev, state);
      if offTrack {
        return CheckResult(prev, TrackingError, false, false);
      }
      hide AccelerationStage;
      var limited, clamped := ClampJointLimits(desired);
      var slowed := ClampVelocity(limited, prev, dt);
      var out := ClampAcceleration(slowed, prev, prevprev, dt);
      assert out == FilteredPose(config, desired, prev, prevprev, dt);
      result := CheckResult(out, if clamped then LimitClamped else Ok, true, clamped);
    }
  }

  /** A check refuses a robot in error or not connected, then a joint too far from its last value, holding the
      previous pose; otherwise it is fine and says whether a joint was asked for a value outside its limits. */
  lemma CheckTable(
      c: SafetyConfig, desired: JointArray, prev: JointArray, prevprev: JointArray, s: RobotState, dt: real)
    ensures
      var r := Check(c, desired, prev, prevprev, s, dt);
      var refused := s.hasError || s.connection != Connected;
      var tooFar := exists j :: 0 <= j < DOF && Abs(prev[j] - s.qActual[j]) > c.maxTrackingError;
      var outside := exists j :: 0 <= j < DOF && (desired[j] < c.qMin[j] || c.qMax[j] < desired[j]);
      && (refused ==> r == CheckResult(prev, RobotStateError, false, false))
      && (!refused && tooFar ==> r == CheckResult(prev, TrackingError, false, false))
      && (!refused && !tooFar ==>
            r.ok && r.limitClamped == outside && r.verdict == if outside then LimitClamped else Ok)
  {
    hide FilteredPose;
  }
}
