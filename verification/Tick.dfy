/** One tick of the servo loop as a function of the state before it and everything that arrives in it:
    the clock, the two robot readings, the command and the outcomes of the two sends. */
module Tick {
  import opened Types
  import Safety
  import Trajectory

  const UINT64: nat := 0x1_0000_0000_0000_0000

  const SEC_NS: nat := 1_000_000_000

  /** The last two poses sent to an arm, and the pose it holds while a fault is latched. */
  datatype Arm = Arm(prev: JointArray, prevprev: JointArray, faultHold: JointArray)

  datatype State = State(
    motion: MotionState,
    latched: bool,
    faultVerdict: Verdict,
    reason: Verdict,
    reasonText: string,
    left: Arm,
    right: Arm,
    tick: nat,
    lastStart: nat)

  datatype Input = Input(
    start: nat,
    stateOk: bool,
    left: RobotState,
    right: RobotState,
    command: DualCommand,
    leftSent: bool,
    rightSent: bool)

  datatype Target = Target(left: JointArray, right: JointArray)

  datatype Decision = Decision(state: State, target: Target, verdict: Verdict)

  /** What one tick shows to the outside: the command obeyed, the targets sent, the verdict. */
  datatype Report = Report(command: DualCommand, target: Target, verdict: Verdict, dt: real)

  // ---- Readings, holds, latches ------------------------------------------------------------------

  predicate ValidReading(c: SafetyConfig, s: RobotState) {
    && s.connection == Connected && s.hasValidJointState && !s.hasError && s.qFinite
    && forall i :: 0 <= i < DOF ==> c.qMin[i] <= s.qActual[i] <= c.qMax[i]
  }

  function SafeHold(c: SafetyConfig, s: RobotState, prev: JointArray): JointArray {
    if ValidReading(c, s) then s.qActual else prev
  }

  function Latch(c: Config, s: State, v: Verdict, text: string, l: RobotState, r: RobotState): State {
    if s.latched then s
    else s.(latched := true, faultVerdict := v, reason := v, reasonText := text,
            left := s.left.(faultHold := SafeHold(c.safety, l, s.left.prev)),
            right := s.right.(faultHold := SafeHold(c.safety, r, s.right.prev)),
            motion := if v == EmergencyStopped then EmergencyLatched else FaultLatched)
  }

  /** An arm that starts afresh from a pose. */
  function Rebased(q: JointArray): Arm {
    Arm(q, q, q)
  }

  function ClearLatch(c: Config, s: State, l: RobotState, r: RobotState): State {
    s.(latched := false, faultVerdict := Ok, reason := Ok, reasonText := "",
       left := Rebased(SafeHold(c.safety, l, s.left.prev)),
       right := Rebased(SafeHold(c.safety, r, s.right.prev)),
       motion := ConnectedHold)
  }

  function Startup(left: JointArray, right: JointArray): State {
    State(ConnectedHold, false, Ok, Ok, "", Rebased(left), Rebased(right), 0, 0)
  }

  // ---- Time --------------------------------------------------------------------------------------

  function NominalNs(c: ServoConfig): nat {
    SEC_NS / if c.rateHz > 0 then c.rateHz else 200
  }

  function Seconds(ns: nat): real {
    ns as real / SEC_NS as real
  }

  function FilterDt(c: ServoConfig, lastStart: nat, start: nat): real {
    var nominal := NominalNs(c);
    var actual := if lastStart == 0 then nominal else (start - lastStart) % UINT64;
    var minRatio := Max(0.0, c.dtMinRatio);
    var maxRatio := Max(minRatio, c.dtMaxRatio);
    Clamp(Seconds(actual), Seconds(nominal) * minRatio, Seconds(nominal) * maxRatio)
  }

  // ---- The command -------------------------------------------------------------------------------

  datatype Request = Emergency | Reset | Disarm | ArmForMotion | Move | Nothing

  predicate Requests(c: DualCommand, m: ControlMode) {
    c.left.mode == m || c.right.mode == m
  }

  predicate RequestsMotion(c: DualCommand) {
    IsMotion(c.left.mode) || IsMotion(c.right.mode)
  }

  /** The one request of a command that takes effect. */
  function RequestOf(c: DualCommand): Request {
    if Requests(c, EmergencyStop) then Emergency
    else if Requests(c, ResetFault) then Reset
    else if Requests(c, DisarmMotion) then Disarm
    else if Requests(c, ArmMotion) then ArmForMotion
    else if RequestsMotion(c) then Move
    else Nothing
  }

  predicate MotionAllowed(s: State) {
    s.motion == ArmedHold || s.motion == Running
  }

  function HoldAt(c: Config, s: State, i: Input): DualCommand {
    HoldCommand(i.start, SafeHold(c.safety, i.left, s.left.prev), SafeHold(c.safety, i.right, s.right.prev))
  }

  /** The state after the lifecycle part of the command. */
  function Admitted(c: Config, s: State, i: Input): State {
    match RequestOf(i.command)
    case Emergency => Latch(c, s, EmergencyStopped, "EmergencyStop command", i.left, i.right)
    case Reset => if s.latched then ClearLatch(c, s, i.left, i.right) else s.(motion := ConnectedHold)
    case Disarm => s.(motion := ConnectedHold)
    case ArmForMotion => if s.latched then s else s.(motion := ArmedHold)
    case _ => s
  }

  /** The command the rest of the tick obeys. */
  function Obeyed(c: Config, s: State, i: Input): DualCommand {
    match RequestOf(i.command)
    case Move => if MotionAllowed(s) then i.command else HoldAt(c, s, i)
    case Nothing => i.command
    case _ => HoldAt(c, Admitted(c, s, i), i)
  }

  // ---- The target --------------------------------------------------------------------------------

  function LastSent(s: State): Target {
    Target(s.left.prev, s.right.prev)
  }

  function FaultHold(s: State): Target {
    Target(s.left.faultHold, s.right.faultHold)
  }

  function CommandVerdict(cmd: DualCommand): Verdict {
    if MissingPayload(cmd.left) || MissingPayload(cmd.right) then InvalidCommand
    else if IsCartesian(cmd.left.mode) || IsCartesian(cmd.right.mode) then CartesianUnavailable
    else Ok
  }

  function Desired(c: Config, s: State, cmd: DualCommand, dt: real): Target {
    if CommandVerdict(cmd) != Ok then LastSent(s)
    else Target(Trajectory.Requested(c.safety, cmd.left, s.left.prev, dt),
                Trajectory.Requested(c.safety, cmd.right, s.right.prev, dt))
  }

  function CheckLeft(c: Config, s: State, desired: Target, i: Input, dt: real): Safety.CheckResult {
    Safety.Check(c.safety, desired.left, s.left.prev, s.left.prevprev, i.left, dt)
  }

  function CheckRight(c: Config, s: State, desired: Target, i: Input, dt: real): Safety.CheckResult {
    Safety.Check(c.safety, desired.right, s.right.prev, s.right.prevprev, i.right, dt)
  }

  function Combined(l: Safety.CheckResult, r: Safety.CheckResult): Verdict {
    if !l.ok && l.verdict != Ok then l.verdict
    else if !r.ok && r.verdict != Ok then r.verdict
    else if l.limitClamped || r.limitClamped then LimitClamped
    else Ok
  }

  function ApplySafety(c: Config, s: State, desired: Target, i: Input, dt: real): Decision {
    var l, r := CheckLeft(c, s, desired, i, dt), CheckRight(c, s, desired, i, dt);
    var combined := Combined(l, r);
    if combined == TrackingError then
      if c.safety.trackingPolicy == SnapToActual then
        Decision(s, Target(i.left.qActual, i.right.qActual), combined)
      else
        var s1 := Latch(c, s, TrackingError, "tracking error exceeded threshold", i.left, i.right);
        Decision(s1, FaultHold(s1), Latched)
    else if combined == RobotStateError then
      if c.safety.latchOnStateError then
        var s1 := Latch(c, s, RobotStateError, "robot state error or disconnected", i.left, i.right);
        Decision(s1, FaultHold(s1), Latched)
      else Decision(s, LastSent(s), combined)
    else Decision(s, Target(l.filtered, r.filtered), combined)
  }

  predicate BothValid(c: Config, i: Input) {
    i.stateOk && ValidReading(c.safety, i.left) && ValidReading(c.safety, i.right)
  }

  predicate LatchesStateError(c: Config) {
    IsReal(c) || c.safety.latchOnStateError
  }

  predicate LatchesSendFailure(c: Config) {
    IsReal(c) || c.safety.stopBothArms
  }

  /** The state in which the command is executed. */
  function Executing(s: State, cmd: DualCommand): State {
    if RequestsMotion(cmd) then s.(motion := Running) else s
  }

  function Decide(c: Config, s: State, cmd: DualCommand, i: Input, dt: real): Decision {
    if !BothValid(c, i) then
      if LatchesStateError(c) then
        var s1 := Latch(c, s, RobotStateError, "robot state read failed or invalid", i.left, i.right);
        Decision(s1, FaultHold(s1), Latched)
      else Decision(s, LastSent(s), RobotStateError)
    else if s.latched then Decision(s, FaultHold(s), Latched)
    else
      var s1 := Executing(s, cmd);
      if CommandVerdict(cmd) != Ok then Decision(s1, LastSent(s1), CommandVerdict(cmd))
      else ApplySafety(c, s1, Desired(c, s1, cmd, dt), i, dt)
  }

  // ---- The sends ---------------------------------------------------------------------------------

  function Sent(a: Arm, q: JointArray, ok: bool): Arm {
    if ok then a.(prevprev := a.prev, prev := q) else a
  }

  predicate SendFailed(i: Input) {
    !i.leftSent || !i.rightSent
  }

  /** The state in which the sends are booked: a failed one may latch. */
  function AfterSend(c: Config, d: Decision, i: Input): State {
    if SendFailed(i) && LatchesSendFailure(c)
    then Latch(c, d.state, SendFailure, "sendServoJ failed", i.left, i.right)
    else d.state
  }

  function FinalVerdict(c: Config, d: Decision, i: Input): Verdict {
    if !SendFailed(i) then d.verdict else if LatchesSendFailure(c) then Latched else SendFailure
  }

  function Booked(s: State, t: Target, i: Input): State {
    s.(left := Sent(s.left, t.left, i.leftSent), right := Sent(s.right, t.right, i.rightSent),
       tick := s.tick + 1)
  }

  // ---- The tick ----------------------------------------------------------------------------------

  function Dt(c: Config, s: State, i: Input): real {
    FilterDt(c.servo, s.lastStart, i.start)
  }

  function Started(s: State, i: Input): State {
    s.(lastStart := i.start)
  }

  function Decided(c: Config, s: State, i: Input): Decision {
    Decide(c, Admitted(c, Started(s, i), i), Obeyed(c, Started(s, i), i), i, Dt(c, s, i))
  }

  function After(c: Config, s: State, i: Input): State {
    var d := Decided(c, s, i);
    Booked(AfterSend(c, d, i), d.target, i)
  }

  function ReportOf(c: Config, s: State, i: Input): Report {
    var d := Decided(c, s, i);
    Report(Obeyed(c, Started(s, i), i), d.target, FinalVerdict(c, d, i), Dt(c, s, i))
  }

  // ---- Runs --------------------------------------------------------------------------------------

  /** The state after a run of ticks. */
  function Run(c: Config, s: State, run: seq<Input>): State {
    if run == [] then s else After(c, Run(c, s, run[..|run| - 1]), run[|run| - 1])
  }

  /** Agreement of the fault fields and the motion state. */
  predicate FaultsAgree(s: State) {
    && (s.latched <==> s.reason != Ok)
    && s.faultVerdict == s.reason
    && (s.latched <==> s.reasonText != "")
    && (s.motion == FaultLatched ==> s.latched && s.reason != EmergencyStopped)
    && (s.motion == EmergencyLatched ==> s.latched && s.reason == EmergencyStopped)
    && (s.latched ==> !MotionAllowed(s))
  }

  /** A state the loop can start in: both arms gave a valid first reading. A loop started again after it was
      stopped may still be latched. */
  predicate Initial(c: Config, s: State) {
    && s.motion == ConnectedHold && s.lastStart == 0 && FaultsAgree(s)
    && s.left == Rebased(s.left.prev) && s.right == Rebased(s.right.prev)
    && InLimits(c.safety, s.left.prev) && InLimits(c.safety, s.right.prev)
  }

  predicate InLimits(c: SafetyConfig, q: JointArray) {
    forall i :: 0 <= i < DOF ==> c.qMin[i] <= q[i] <= c.qMax[i]
  }

  /** Adding one tick to a run. */
  lemma RunSnoc(c: Config, s: State, run: seq<Input>, i: Input)
    ensures Run(c, s, run + [i]) == After(c, Run(c, s, run), i)
  {
    assert (run + [i])[..|run|] == run;
  }
}
