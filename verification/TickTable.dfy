/** One tick described a second time, from the fields of the state, the configuration and the input alone: what
    the loop reports, what it latches and in which motion state it ends. */
module TickTable {
  import opened Types
  import opened JointStep
  import opened Tick
  import opened Runs
  import opened Sends
  import Safety
  import Trajectory
  import ServoSettling

  // ---- What arrives ------------------------------------------------------------------------------

  /** One of the arms has this mode. */
  predicate Asks(cmd: DualCommand, m: ControlMode) {
    cmd.left.mode == m || cmd.right.mode == m
  }

  predicate AsksCartesian(a: ArmCommand) {
    a.mode in {TcpPoseTarget, TcpDeltaStand, TcpDeltaLocal}
  }

  predicate AsksMotion(a: ArmCommand) {
    a.mode in {JointTarget, JointVelocity} || AsksCartesian(a)
  }

  predicate LacksPayload(a: ArmCommand) {
    || (a.mode == JointTarget && !a.hasJointTarget)
    || (a.mode == JointVelocity && !a.hasJointVelocity)
    || (a.mode == TcpPoseTarget && !a.hasTcpTarget)
    || (a.mode == TcpDeltaStand && !a.hasTcpDeltaStand)
    || (a.mode == TcpDeltaLocal && !a.hasTcpDeltaLocal)
  }

  /** The reading is of no use: disconnected, without valid joints, in error, not finite, or outside a limit. */
  predicate Unusable(c: SafetyConfig, r: RobotState) {
    || r.connection != Connected || !r.hasValidJointState || r.hasError || !r.qFinite
    || exists j :: 0 <= j < DOF && (r.qActual[j] < c.qMin[j] || c.qMax[j] < r.qActual[j])
  }

  predicate AnyUnusable(c: Config, i: Input) {
    !i.stateOk || Unusable(c.safety, i.left) || Unusable(c.safety, i.right)
  }

  predicate IsRealConfig(c: Config) {
    c.leftMode == Real || c.rightMode == Real
  }

  // ---- What the tick makes of it -----------------------------------------------------------------

  predicate Lifecycle(cmd: DualCommand) {
    Asks(cmd, EmergencyStop) || Asks(cmd, ResetFault) || Asks(cmd, DisarmMotion) || Asks(cmd, ArmMotion)
  }

  /** The tick clears a latch: an emergency stop goes before a reset. */
  predicate Unlatches(s: State, i: Input) {
    s.latched && Asks(i.command, ResetFault) && !Asks(i.command, EmergencyStop)
  }

  /** A fault pose is held, whatever the rest of the tick brings. */
  predicate HoldsFault(s: State, i: Input) {
    Asks(i.command, EmergencyStop) || (s.latched && !Unlatches(s, i))
  }

  /** The command moves the arms: no lifecycle mode beside it, and the loop is armed. */
  predicate IsCarriedOut(s: State, i: Input) {
    && !Lifecycle(i.command) && (s.motion == ArmedHold || s.motion == Running)
    && (AsksMotion(i.command.left) || AsksMotion(i.command.right))
  }

  /** What is wrong with a command that is carried out. */
  function Fault(s: State, i: Input): Verdict {
    if !IsCarriedOut(s, i) then Ok
    else if LacksPayload(i.command.left) || LacksPayload(i.command.right) then InvalidCommand
    else if AsksCartesian(i.command.left) || AsksCartesian(i.command.right) then CartesianUnavailable
    else Ok
  }

  /** Some joint is further from its last sent value than the tolerance. */
  predicate TooFar(c: Config, s: State, i: Input) {
    && !Unlatches(s, i)
    && exists j :: 0 <= j < DOF
         && (Abs(s.left.prev[j] - i.left.qActual[j]) > c.safety.maxTrackingError
             || Abs(s.right.prev[j] - i.right.qActual[j]) > c.safety.maxTrackingError)
  }

  /** What joint j of an arm last sent p is asked for before the safety filter. */
  function Asked(c: SafetyConfig, a: ArmCommand, carriedOut: bool, p: real, j: nat, dt: real): real
    requires j < DOF
  {
    if carriedOut && a.mode == JointTarget then p + Clamp(a.qTarget[j] - p, -(c.dqMax[j] * dt), c.dqMax[j] * dt)
    else if carriedOut && a.mode == JointVelocity then p + Clamp(a.dqTarget[j], -c.dqMax[j], c.dqMax[j]) * dt
    else p
  }

  /** Some joint is asked for a value outside its limits. A cleared latch starts from the reading. */
  predicate AsksOutside(c: Config, s: State, i: Input, a: ArmCommand, prev: JointArray, r: RobotState) {
    exists j :: 0 <= j < DOF &&
      var x := Asked(c.safety, a, IsCarriedOut(s, i), (if Unlatches(s, i) then r.qActual else prev)[j], j, Dt(c, s, i));
      x < c.safety.qMin[j] || c.safety.qMax[j] < x
  }

  function ExpectedVerdict(c: Config, s: State, i: Input): Verdict {
    if !i.leftSent || !i.rightSent then
      if IsRealConfig(c) || c.safety.stopBothArms then Latched else SendFailure
    else if AnyUnusable(c, i) then
      if IsRealConfig(c) || c.safety.latchOnStateError then Latched else RobotStateError
    else if HoldsFault(s, i) then Latched
    else if Fault(s, i) != Ok then Fault(s, i)
    else if TooFar(c, s, i) then
      if c.safety.trackingPolicy == SnapToActual then TrackingError else Latched
    else if AsksOutside(c, s, i, i.command.left, s.left.prev, i.left)
            || AsksOutside(c, s, i, i.command.right, s.right.prev, i.right) then LimitClamped
    else Ok
  }

  /** The first reason to latch, or the one that is latched already. */
  function ExpectedReason(c: Config, s: State, i: Input): Verdict {
    if s.latched && !Unlatches(s, i) then s.reason
    else if Asks(i.command, EmergencyStop) then EmergencyStopped
    else if AnyUnusable(c, i) && (IsRealConfig(c) || c.safety.latchOnStateError) then RobotStateError
    else if !AnyUnusable(c, i) && Fault(s, i) == Ok && TooFar(c, s, i)
            && c.safety.trackingPolicy == TrackingErrorPolicy.FaultLatch then TrackingError
    else if (!i.leftSent || !i.rightSent) && (IsRealConfig(c) || c.safety.stopBothArms) then SendFailure
    else Ok
  }

  function ExpectedMotion(c: Config, s: State, i: Input): MotionState {
    var reason := ExpectedReason(c, s, i);
    if s.latched && !Unlatches(s, i) then
      if Asks(i.command, DisarmMotion) && !Asks(i.command, EmergencyStop) then ConnectedHold else s.motion
    else if reason != Ok then
      if reason == EmergencyStopped then EmergencyLatched else FaultLatched
    else if Asks(i.command, ResetFault) || Asks(i.command, DisarmMotion) then ConnectedHold
    else if Asks(i.command, ArmMotion) then ArmedHold
    else if IsCarriedOut(s, i) && !AnyUnusable(c, i) then Running
    else s.motion
  }

  // ---- The two descriptions agree ----------------------------------------------------------------

  lemma RequestMeans(cmd: DualCommand)
    ensures RequestOf(cmd) == Emergency <==> Asks(cmd, EmergencyStop)
    ensures RequestOf(cmd) == Reset <==> Asks(cmd, ResetFault) && !Asks(cmd, EmergencyStop)
    ensures RequestOf(cmd) == Disarm <==>
            Asks(cmd, DisarmMotion) && !Asks(cmd, ResetFault) && !Asks(cmd, EmergencyStop)
    ensures RequestOf(cmd) == ArmForMotion <==>
            Asks(cmd, ArmMotion) && !Asks(cmd, DisarmMotion) && !Asks(cmd, ResetFault) && !Asks(cmd, EmergencyStop)
    ensures RequestOf(cmd) == Move <==> !Lifecycle(cmd) && (AsksMotion(cmd.left) || AsksMotion(cmd.right))
  {}

  lemma ReadingMeans(c: SafetyConfig, r: RobotState)
    ensures ValidReading(c, r) <==> !Unusable(c, r)
  {}

  lemma ReadingsMean(c: Config, i: Input)
    ensures BothValid(c, i) <==> !AnyUnusable(c, i)
  {
    ReadingMeans(c.safety, i.left);
    ReadingMeans(c.safety, i.right);
    hide ValidReading;
    hide Unusable;
  }

  lemma ConfigMeans(c: Config)
    ensures LatchesStateError(c) <==> IsRealConfig(c) || c.safety.latchOnStateError
    ensures LatchesSendFailure(c) <==> IsRealConfig(c) || c.safety.stopBothArms
  {}

  lemma CommandMeans(cmd: DualCommand)
    ensures CommandVerdict(cmd) ==
      if LacksPayload(cmd.left) || LacksPayload(cmd.right) then InvalidCommand
      else if AsksCartesian(cmd.left) || AsksCartesian(cmd.right) then CartesianUnavailable
      else Ok
    ensures !AsksMotion(cmd.left) && !AsksMotion(cmd.right) ==> CommandVerdict(cmd) == Ok
  {}

  /** The command the tick obeys is carried out, or holds both arms. */
  lemma ObeyedMeans(c: Config, s: State, i: Input)
    ensures
      var cmd := Obeyed(c, Started(s, i), i);
      && (IsCarriedOut(s, i) ==> cmd == i.command)
      && (!IsCarriedOut(s, i) ==> !AsksMotion(cmd.left) && !AsksMotion(cmd.right))
      && CommandVerdict(cmd) == Fault(s, i)
      && (RequestsMotion(cmd) <==> IsCarriedOut(s, i))
  {
    RequestMeans(i.command);
    CommandMeans(Obeyed(c, Started(s, i), i));
    hide SafeHold;
    hide RequestOf;
    hide CommandVerdict;
    var cmd := Obeyed(c, Started(s, i), i);
    assert !IsCarriedOut(s, i) ==> !AsksMotion(cmd.left) && !AsksMotion(cmd.right);
  }

  lemma ReadyMeans(c: Config, s: State, i: Input)
    requires Bookkept(s)
    ensures
      var t := Ready(c, s, i);
      && (t.latched <==> HoldsFault(s, i))
      && (!Unlatches(s, i) ==> t.left.prev == s.left.prev && t.right.prev == s.right.prev)
      && (Unlatches(s, i) ==>
            t.left.prev == SafeHold(c.safety, i.left, s.left.prev)
            && t.right.prev == SafeHold(c.safety, i.right, s.right.prev))
  {
    RequestMeans(i.command);
    hide RequestOf;
    hide SafeHold;
    hide Asks;
  }

  /** After a cleared latch and with usable readings both arms start from them. */
  lemma StartsFrom(c: Config, s: State, i: Input)
    requires Bookkept(s) && !AnyUnusable(c, i)
    ensures Ready(c, s, i).left.prev == if Unlatches(s, i) then i.left.qActual else s.left.prev
    ensures Ready(c, s, i).right.prev == if Unlatches(s, i) then i.right.qActual else s.right.prev
  {
    ReadyMeans(c, s, i);
    ReadingMeans(c.safety, i.left);
    ReadingMeans(c.safety, i.right);
    hide Ready;
    hide Unlatches;
    hide ValidReading;
    hide Unusable;
  }

  lemma LostMeans(c: Config, s: State, i: Input)
    requires Bookkept(s) && !AnyUnusable(c, i) && 0.0 <= c.safety.maxTrackingError
    ensures Lost(c, Ready(c, s, i), i) <==> TooFar(c, s, i)
  {
    StartsFrom(c, s, i);
    hide Ready;
    hide AnyUnusable;
    hide Unlatches;
  }

  /** The verdict of the middle of a tick. */
  lemma DecideVerdict(c: Config, s: State, cmd: DualCommand, i: Input, dt: real)
    ensures
      var desired := Desired(c, s, cmd, dt);
      Decide(c, s, cmd, i, dt).verdict ==
        if !BothValid(c, i) then (if LatchesStateError(c) then Latched else RobotStateError)
        else if s.latched then Latched
        else if CommandVerdict(cmd) != Ok then CommandVerdict(cmd)
        else if Lost(c, s, i) then (if c.safety.trackingPolicy == SnapToActual then TrackingError else Latched)
        else if Safety.OutsideLimits(c.safety, desired.left) || Safety.OutsideLimits(c.safety, desired.right)
          then LimitClamped
        else Ok
  {
    hide SafeHold;
    hide CommandVerdict;
    hide Latch;
    var s1 := Executing(s, cmd);
    DesiredUnmoved(c, s, cmd, dt);
    LostUnmoved(c, s, cmd, i);
    if BothValid(c, i) {
      ValidReadingsDecide(c, s1, Desired(c, s1, cmd, dt), i, dt);
      ClampedMeans(c, s1, Desired(c, s1, cmd, dt), i, dt);
      hide CheckLeft;
      hide CheckRight;
      hide Combined;
      hide Desired;
      hide Lost;
      hide Safety.OutsideLimits;
      hide BothValid;
    }
  }

  lemma ClampedMeans(c: Config, s: State, desired: Target, i: Input, dt: real)
    requires BothValid(c, i)
    ensures !Lost(c, s, i) ==>
      Combined(CheckLeft(c, s, desired, i, dt), CheckRight(c, s, desired, i, dt))
      == if Safety.OutsideLimits(c.safety, desired.left) || Safety.OutsideLimits(c.safety, desired.right)
         then LimitClamped else Ok
  {
    hide Safety.FilteredPose;
    hide Safety.OffTrack;
    hide Safety.OutsideLimits;
  }

  /** The requested pose of an arm that was last sent `prev`. */
  lemma RequestedMeans(c: SafetyConfig, a: ArmCommand, carriedOut: bool, prev: JointArray, dt: real, j: nat)
    requires j < DOF && (!carriedOut ==> !AsksMotion(a))
    ensures Trajectory.Requested(c, a, prev, dt)[j] == Asked(c, a, carriedOut, prev[j], j, dt)
  {}

  lemma OutsideMeans(c: SafetyConfig, a: ArmCommand, carriedOut: bool, prev: JointArray, dt: real)
    requires !carriedOut ==> !AsksMotion(a)
    ensures Safety.OutsideLimits(c, Trajectory.Requested(c, a, prev, dt)) <==>
            exists j :: 0 <= j < DOF &&
              var x := Asked(c, a, carriedOut, prev[j], j, dt);
              x < c.qMin[j] || c.qMax[j] < x
  {
    hide Trajectory.Requested;
    hide Asked;
    hide AsksMotion;
    forall j | 0 <= j < DOF
      ensures Trajectory.Requested(c, a, prev, dt)[j] == Asked(c, a, carriedOut, prev[j], j, dt)
    {
      RequestedMeans(c, a, carriedOut, prev, dt, j);
    }
  }

  lemma AskedUnobeyed(c: SafetyConfig, a: ArmCommand, b: ArmCommand, p: real, j: nat, dt: real)
    requires j < DOF
    ensures Asked(c, a, false, p, j, dt) == Asked(c, b, false, p, j, dt)
  {}

  lemma ArmAsksOutside(c: Config, s: State, i: Input, a: ArmCommand, b: ArmCommand, prev: JointArray, r: RobotState)
    requires IsCarriedOut(s, i) ==> a == b
    requires !IsCarriedOut(s, i) ==> !AsksMotion(b)
    ensures Safety.OutsideLimits(c.safety,
              Trajectory.Requested(c.safety, b, if Unlatches(s, i) then r.qActual else prev, Dt(c, s, i)))
       <==> AsksOutside(c, s, i, a, prev, r)
  {
    hide Trajectory.Requested;
    hide Asked;
    hide AsksMotion;
    hide IsCarriedOut;
    hide Unlatches;
    hide Dt;
    hide Safety.OutsideLimits;
    var q, dt, carriedOut := if Unlatches(s, i) then r.qActual else prev, Dt(c, s, i), IsCarriedOut(s, i);
    OutsideMeans(c.safety, b, carriedOut, q, dt);
    forall j | 0 <= j < DOF
      ensures Asked(c.safety, a, carriedOut, q[j], j, dt) == Asked(c.safety, b, carriedOut, q[j], j, dt)
    {
      AskedUnobeyed(c.safety, a, b, q[j], j, dt);
    }
  }

  /** With usable readings and a command that is not at fault, the verdict on the requested poses. */
  lemma DesiredOutside(c: Config, s: State, i: Input)
    requires Bookkept(s) && !AnyUnusable(c, i) && Fault(s, i) == Ok
    ensures
      var desired := Desired(c, Ready(c, s, i), Obeyed(c, Started(s, i), i), Dt(c, s, i));
      && (Safety.OutsideLimits(c.safety, desired.left) <==>
            AsksOutside(c, s, i, i.command.left, s.left.prev, i.left))
      && (Safety.OutsideLimits(c.safety, desired.right) <==>
            AsksOutside(c, s, i, i.command.right, s.right.prev, i.right))
  {
    hide *;
    var cmd := Obeyed(c, Started(s, i), i);
    StartsFrom(c, s, i);
    ObeyedMeans(c, s, i);
    DesiredIs(c, Ready(c, s, i), cmd, Dt(c, s, i));
    ArmAsksOutside(c, s, i, i.command.left, cmd.left, s.left.prev, i.left);
    ArmAsksOutside(c, s, i, i.command.right, cmd.right, s.right.prev, i.right);
  }

  lemma DesiredIs(c: Config, s: State, cmd: DualCommand, dt: real)
    ensures CommandVerdict(cmd) == Ok ==>
      Desired(c, s, cmd, dt) == Target(Trajectory.Requested(c.safety, cmd.left, s.left.prev, dt),
                                       Trajectory.Requested(c.safety, cmd.right, s.right.prev, dt))
  {}

  lemma ReportedVerdict(c: Config, s: State, i: Input)
    ensures ReportOf(c, s, i).verdict ==
      if !i.leftSent || !i.rightSent then (if LatchesSendFailure(c) then Latched else SendFailure)
      else Decide(c, Ready(c, s, i), Obeyed(c, Started(s, i), i), i, Dt(c, s, i)).verdict
  {
    hide Decide;
    hide Obeyed;
    hide Admitted;
    hide FilterDt;
    hide LatchesSendFailure;
  }

  /** The verdict of every tick is the expected one. */
  lemma VerdictTable(c: Config, s: State, i: Input)
    requires Bookkept(s) && 0.0 <= c.safety.maxTrackingError
    ensures ReportOf(c, s, i).verdict == ExpectedVerdict(c, s, i)
  {
    hide ReportOf;
    hide Decide;
    hide Ready;
    hide Obeyed;
    hide Dt;
    hide BothValid;
    hide AnyUnusable;
    hide LatchesStateError;
    hide LatchesSendFailure;
    hide IsRealConfig;
    hide CommandVerdict;
    hide Fault;
    hide HoldsFault;
    hide Lost;
    hide TooFar;
    hide AsksOutside;
    hide Desired;
    hide Safety.OutsideLimits;
    hide Bookkept;
    ReportedVerdict(c, s, i);
    ConfigMeans(c);
    ReadingsMean(c, i);
    ReadyMeans(c, s, i);
    ObeyedMeans(c, s, i);
    DecideVerdict(c, Ready(c, s, i), Obeyed(c, Started(s, i), i), i, Dt(c, s, i));
    if !AnyUnusable(c, i) {
      LostMeans(c, s, i);
      if Fault(s, i) == Ok {
        DesiredOutside(c, s, i);
      }
    }
  }

  // ---- What a tick latches -----------------------------------------------------------------------

  lemma CauseMeans(c: Config, s: State, i: Input)
    requires Bookkept(s) && 0.0 <= c.safety.maxTrackingError && (!s.latched || Unlatches(s, i))
    ensures Cause(c, s, i) == ExpectedReason(c, s, i)
  {
    RequestMeans(i.command);
    ConfigMeans(c);
    ReadingsMean(c, i);
    ObeyedMeans(c, s, i);
    if !AnyUnusable(c, i) {
      LostMeans(c, s, i);
    }
    hide RequestOf;
    hide Asks;
    hide Obeyed;
    hide Admitted;
    hide BothValid;
    hide AnyUnusable;
    hide LatchesStateError;
    hide LatchesSendFailure;
    hide IsRealConfig;
    hide CommandVerdict;
    hide Fault;
    hide Lost;
    hide TooFar;
    hide Bookkept;
  }

  /** A tick is latched if and only if there is a reason, the first one counts, and a new latch captures for
      each arm its reading, or the last sent pose if that is unusable. */
  lemma LatchTable(c: Config, s: State, i: Input)
    requires Bookkept(s) && 0.0 <= c.safety.maxTrackingError
    ensures
      var t := After(c, s, i);
      && t.reason == ExpectedReason(c, s, i)
      && (t.latched <==> ExpectedReason(c, s, i) != Ok)
      && (t.latched && (!s.latched || Unlatches(s, i)) ==>
            && t.left.faultHold == (if Unusable(c.safety, i.left) then s.left.prev else i.left.qActual)
            && t.right.faultHold == (if Unusable(c.safety, i.right) then s.right.prev else i.right.qActual))
  {
    hide After;
    hide Cause;
    hide Bookkept;
    hide Ready;
    hide ValidReading;
    hide Unusable;
    RequestMeans(i.command);
    hide RequestOf;
    hide Asks;
    ReadingMeans(c.safety, i.left);
    ReadingMeans(c.safety, i.right);
    if s.latched && !Unlatches(s, i) {
      hide ExpectedReason;
      ReasonStays(c, s, i);
      LatchedTick(c, s, i);
      BookkeptReason(s);
    } else {
      hide ExpectedReason;
      CauseMeans(c, s, i);
      TickLatches(c, s, i);
      ReadyMeans(c, s, i);
    }
  }

  lemma ReasonStays(c: Config, s: State, i: Input)
    requires s.latched && !Unlatches(s, i)
    ensures ExpectedReason(c, s, i) == s.reason
  {}

  lemma BookkeptReason(s: State)
    requires Bookkept(s)
    ensures s.latched <==> s.reason != Ok
  {}

  // ---- The motion state --------------------------------------------------------------------------

  lemma AdmittedMotion(c: Config, s: State, i: Input)
    ensures
      var t := Admitted(c, s, i);
      t.motion ==
        if Asks(i.command, EmergencyStop) then (if s.latched then s.motion else EmergencyLatched)
        else if Asks(i.command, ResetFault) || Asks(i.command, DisarmMotion) then ConnectedHold
        else if Asks(i.command, ArmMotion) && !s.latched then ArmedHold
        else s.motion
  {
    RequestMeans(i.command);
    hide RequestOf;
    hide SafeHold;
    hide Asks;
  }

  lemma DecidedMotion(c: Config, s: State, cmd: DualCommand, i: Input, dt: real)
    ensures
      var t := Decide(c, s, cmd, i, dt).state;
      t.motion == if s.latched then s.motion
                  else if t.latched then FaultLatched
                  else if BothValid(c, i) && RequestsMotion(cmd) then Running
                  else s.motion
  {
    hide BothValid;
    hide RequestsMotion;
    hide Desired;
    hide CheckLeft;
    hide CheckRight;
    hide Combined;
    hide SafeHold;
    hide CommandVerdict;
  }

  lemma AfterMotion(c: Config, s: State, i: Input)
    ensures
      var d, t := Decided(c, s, i), After(c, s, i);
      && t.motion == (if t.latched && !d.state.latched then FaultLatched else d.state.motion)
      && (d.state.latched ==> t.latched)
  {
    hide SafeHold;
    hide Decided;
  }

  lemma MotionOf(c: Config, s: State, i: Input)
    ensures
      var s1, t := Ready(c, s, i), After(c, s, i);
      && (s1.latched ==> t.latched)
      && t.motion == if s1.latched then s1.motion
                     else if t.latched then FaultLatched
                     else if BothValid(c, i) && RequestsMotion(Obeyed(c, Started(s, i), i)) then Running
                     else s1.motion
  {
    hide Decide;
    hide After;
    hide Obeyed;
    hide FilterDt;
    hide Admitted;
    hide BothValid;
    hide RequestsMotion;
    var s1, cmd := Ready(c, s, i), Obeyed(c, Started(s, i), i);
    AfterMotion(c, s, i);
    DecidedMotion(c, s1, cmd, i, Dt(c, s, i));
    if s1.latched {
      LatchedDecide(c, s1, cmd, i, Dt(c, s, i));
    }
  }

  /** The motion state after every tick is the expected one. */
  lemma MotionTable(c: Config, s: State, i: Input)
    requires Bookkept(s) && 0.0 <= c.safety.maxTrackingError
    ensures After(c, s, i).motion == ExpectedMotion(c, s, i)
  {
    LatchTable(c, s, i);
    MotionOf(c, s, i);
    AdmittedMotion(c, Started(s, i), i);
    ReadyMeans(c, s, i);
    ReadingsMean(c, i);
    ObeyedMeans(c, s, i);
    hide After;
    hide Admitted;
    hide Obeyed;
    hide BothValid;
    hide AnyUnusable;
    hide RequestsMotion;
    hide TooFar;
    hide Fault;
    hide Asks;
    hide Bookkept;
    hide IsRealConfig;
  }

  // ---- What is sent ------------------------------------------------------------------------------

  /** The value joint j of an arm last sent p is asked for: its target, where its velocity takes it in dt, or
      where it is. */
  function Wish(a: ArmCommand, carriedOut: bool, p: real, j: nat, dt: real): real
    requires j < DOF
  {
    if carriedOut && a.mode == JointTarget then a.qTarget[j]
    else if carriedOut && a.mode == JointVelocity then p + a.dqTarget[j] * dt
    else p
  }

  function ArmCommandOf(cmd: DualCommand, side: ArmId): ArmCommand {
    if side == ArmId.Left then cmd.left else cmd.right
  }

  lemma WishAhead(a: ArmCommand, p: real, j: nat, dt: real)
    requires j < DOF && a.mode == JointVelocity
    ensures Wish(a, true, p, j, dt) == Ahead(a.dqTarget[j], p, dt)
  {}

  lemma FilteredWish(c: SafetyConfig, a: ArmCommand, carriedOut: bool, p: JointArray, pp: JointArray, dt: real, j: nat)
    requires SoundLimits(c) && j < DOF && (!carriedOut ==> !AsksMotion(a)) && !AsksCartesian(a)
    ensures Safety.FilteredPose(c, Trajectory.Requested(c, a, p, dt), p, pp, dt)[j]
         == FilterJoint(LimitsAt(c, j), Wish(a, carriedOut, p[j], j, dt), p[j], pp[j], dt)
  {
    hide FilterJoint;
    hide Safety.FilteredPose;
    hide Trajectory.TrackedPose;
    hide Trajectory.IntegratedPose;
    if a.mode == JointTarget {
      ServoSettling.ReachRequest(c, a.qTarget, p, pp, dt, j);
    } else if a.mode == JointVelocity {
      ServoSettling.DriftRequest(c, a.dqTarget, p, pp, dt, j);
      if carriedOut {
        WishAhead(a, p[j], j, dt);
      }
      hide Wish;
      hide Ahead;
    } else {
      ServoSettling.RemainRequest(c, p, pp, dt, j);
    }
  }

  lemma WishUnobeyed(a: ArmCommand, b: ArmCommand, p: real, j: nat, dt: real)
    requires j < DOF
    ensures Wish(a, false, p, j, dt) == Wish(b, false, p, j, dt)
  {}

  lemma StartsFromArm(c: Config, s: State, i: Input, side: ArmId)
    requires Bookkept(s) && !AnyUnusable(c, i)
    ensures
      var a, b, r := ArmOf(s, side), ArmOf(Ready(c, s, i), side), Reading(i, side);
      && b.prev == (if Unlatches(s, i) then r.qActual else a.prev)
      && b.prevprev == (if Unlatches(s, i) then r.qActual else a.prevprev)
  {
    RequestMeans(i.command);
    ReadyArm(c, s, i, side);
    ReadingMeans(c.safety, Reading(i, side));
    hide RequestOf;
    hide Ready;
    hide ValidReading;
    hide Unusable;
    hide Asks;
  }

  lemma CarriedOutSane(s: State, i: Input)
    requires IsCarriedOut(s, i) && Fault(s, i) == Ok
    ensures !AsksCartesian(i.command.left) && !AsksCartesian(i.command.right)
  {}

  /** A tick that nothing stops sends each joint the filtered value of what its arm is asked for: the joint
      target, the last value moved at the joint velocity, or the last value. */
  lemma SentTable(c: Config, s: State, i: Input, side: ArmId, j: nat)
    requires SoundLimits(c.safety) && Bookkept(s) && 0.0 <= c.safety.maxTrackingError && j < DOF
    requires !AnyUnusable(c, i) && !HoldsFault(s, i) && Fault(s, i) == Ok && !TooFar(c, s, i)
    ensures
      var r, a, dt := Reading(i, side).qActual, ArmCommandOf(i.command, side), Dt(c, s, i);
      var p := (if Unlatches(s, i) then r else ArmOf(s, side).prev)[j];
      var pp := (if Unlatches(s, i) then r else ArmOf(s, side).prevprev)[j];
      Pose(ReportOf(c, s, i).target, side)[j]
      == FilterJoint(LimitsAt(c.safety, j), Wish(a, IsCarriedOut(s, i), p, j, dt), p, pp, dt)
  {
    var cmd, dt := Obeyed(c, Started(s, i), i), Dt(c, s, i);
    var a, b := ArmCommandOf(i.command, side), ArmCommandOf(cmd, side);
    var ready := ArmOf(Ready(c, s, i), side);
    hide FilterJoint;
    hide Obeyed;
    hide Dt;
    hide Ready;
    hide AnyUnusable;
    hide Bookkept;
    hide HoldsFault;
    hide TooFar;
    hide Unlatches;
    hide IsCarriedOut;
    hide Fault;
    hide BothValid;
    hide Lost;
    hide ReportOf;
    hide Trajectory.Requested;
    hide Safety.FilteredPose;
    hide CommandVerdict;
    hide Wish;
    hide AsksMotion;
    hide AsksCartesian;
    ReadingsMean(c, i);
    ReadyMeans(c, s, i);
    LostMeans(c, s, i);
    ObeyedMeans(c, s, i);
    StartsFromArm(c, s, i, side);
    TargetTable(c, s, i, side);
    DesiredIs(c, Ready(c, s, i), cmd, dt);
    hide Desired;
    CommandSane(c, s, i);
    FilteredWish(c.safety, b, IsCarriedOut(s, i), ready.prev, ready.prevprev, dt, j);
    WishUnobeyed(a, b, ready.prev[j], j, dt);
  }

  lemma CommandSane(c: Config, s: State, i: Input)
    requires Fault(s, i) == Ok
    ensures
      var cmd := Obeyed(c, Started(s, i), i);
      !AsksCartesian(cmd.left) && !AsksCartesian(cmd.right)
  {
    hide Obeyed;
    ObeyedMeans(c, s, i);
    if IsCarriedOut(s, i) {
      CarriedOutSane(s, i);
    }
  }

  /** The dt of a tick: the time since the last one began, between the two ratios of the nominal period. */
  lemma DtTable(c: Config, s: State, i: Input)
    requires 0.0 <= c.servo.dtMinRatio <= c.servo.dtMaxRatio
    requires s.lastStart == 0 || s.lastStart <= i.start < s.lastStart + 0x1_0000_0000_0000_0000
    ensures
      var period: nat := 1_000_000_000 / if 0 < c.servo.rateHz then c.servo.rateHz else 200;
      var elapsed: nat := if s.lastStart == 0 then period else i.start - s.lastStart;
      var nominal := period as real / 1000000000.0;
      ReportOf(c, s, i).dt
      == Clamp(elapsed as real / 1000000000.0, nominal * c.servo.dtMinRatio, nominal * c.servo.dtMaxRatio)
  {
    assert ReportOf(c, s, i).dt == Dt(c, s, i);
    hide ReportOf;
  }

  /** A tick that does not carry out a command with a lifecycle mode or for an unarmed loop reports a hold: for
      each arm its reading, or the last sent pose if that is unusable. */
  lemma HeldCommand(c: Config, s: State, i: Input)
    requires Bookkept(s) && (Lifecycle(i.command) || AsksMotion(i.command.left) || AsksMotion(i.command.right))
    requires !IsCarriedOut(s, i)
    ensures
      var cmd := ReportOf(c, s, i).command;
      && cmd.hostTime == i.start && cmd.left.mode == Hold && cmd.right.mode == Hold
      && cmd.left.armId == ArmId.Left && cmd.right.armId == ArmId.Right
      && cmd.left.qTarget == (if Unusable(c.safety, i.left) then s.left.prev else i.left.qActual)
      && cmd.right.qTarget == (if Unusable(c.safety, i.right) then s.right.prev else i.right.qActual)
  {
    RequestMeans(i.command);
    ReadingMeans(c.safety, i.left);
    ReadingMeans(c.safety, i.right);
    hide RequestOf;
    hide ValidReading;
    hide Unusable;
    hide Decided;
    hide Dt;
  }

  /** Ticks are counted, and each remembers when it began. */
  lemma {:induction false} TicksCounted(c: Config, s: State, run: seq<Input>)
    ensures
      var t := Run(c, s, run);
      t.tick == s.tick + |run| && (run != [] ==> t.lastStart == run[|run| - 1].start)
  {
    if run != [] {
      TicksCounted(c, s, run[..|run| - 1]);
      TickCounts(c, Run(c, s, run[..|run| - 1]), run[|run| - 1]);
      hide After;
    }
  }

  lemma TickCounts(c: Config, s: State, i: Input)
    ensures After(c, s, i).tick == s.tick + 1 && After(c, s, i).lastStart == i.start
  {
    hide Obeyed;
    hide Decide;
    hide FilterDt;
    hide SafeHold;
    hide RequestOf;
    DecideCounts(c, Admitted(c, Started(s, i), i), Obeyed(c, Started(s, i), i), i, Dt(c, s, i));
  }

  lemma DecideCounts(c: Config, s: State, cmd: DualCommand, i: Input, dt: real)
    ensures
      var t := Decide(c, s, cmd, i, dt).state;
      t.tick == s.tick && t.lastStart == s.lastStart
  {
    hide SafeHold;
    hide Desired;
    hide BothValid;
    hide CommandVerdict;
    hide CheckLeft;
    hide CheckRight;
    hide Combined;
  }

  // ---- The text of a fault -----------------------------------------------------------------------

  /** The text that goes with the reason of a latch. */
  predicate TextFits(s: State) {
    match s.reason
    case Ok => s.reasonText == ""
    case EmergencyStopped => s.reasonText == "EmergencyStop command"
    case RobotStateError => s.reasonText == "robot state read failed or invalid"
    case TrackingError => s.reasonText == "tracking error exceeded threshold"
    case SendFailure => s.reasonText == "sendServoJ failed"
    case _ => false
  }

  lemma AdmittedFits(c: Config, s: State, i: Input)
    requires TextFits(s)
    ensures TextFits(Admitted(c, s, i))
  {
    hide SafeHold;
    hide RequestOf;
  }

  lemma SafetyFits(c: Config, s: State, desired: Target, i: Input, dt: real)
    requires TextFits(s) && BothValid(c, i)
    ensures TextFits(ApplySafety(c, s, desired, i, dt).state)
  {
    ValidReadingsDecide(c, s, desired, i, dt);
    hide SafeHold;
    hide CheckLeft;
    hide CheckRight;
    hide Combined;
    hide Lost;
    hide BothValid;
  }

  lemma DecideFits(c: Config, s: State, cmd: DualCommand, i: Input, dt: real)
    requires TextFits(s)
    ensures TextFits(Decide(c, s, cmd, i, dt).state)
  {
    if BothValid(c, i) && !s.latched {
      var s1 := Executing(s, cmd);
      SafetyFits(c, s1, Desired(c, s1, cmd, dt), i, dt);
    }
    hide ApplySafety;
    hide SafeHold;
    hide Desired;
    hide BothValid;
    hide CommandVerdict;
  }

  lemma TickFits(c: Config, s: State, i: Input)
    requires TextFits(s)
    ensures TextFits(After(c, s, i))
  {
    AdmittedFits(c, Started(s, i), i);
    DecideFits(c, Admitted(c, Started(s, i), i), Obeyed(c, Started(s, i), i), i, Dt(c, s, i));
    hide Admitted;
    hide Decide;
    hide Obeyed;
    hide FilterDt;
    hide SafeHold;
  }

  /** In every run the text that is logged with a fault is the one of its reason. */
  lemma {:induction false} TextAlwaysFits(c: Config, s: State, run: seq<Input>)
    requires TextFits(s)
    ensures TextFits(Run(c, s, run))
  {
    if run != [] {
      TextAlwaysFits(c, s, run[..|run| - 1]);
      TickFits(c, Run(c, s, run[..|run| - 1]), run[|run| - 1]);
      hide After;
      hide TextFits;
    }
  }

  // ---- Emergency stop, reset, disarming, arming ---------------------------------------------------

  /** An emergency stop for either arm latches an unlatched loop, as an emergency. */
  lemma EmergencyStopLatches(c: Config, s: State, i: Input)
    requires Bookkept(s) && !s.latched && 0.0 <= c.safety.maxTrackingError
    requires i.command.left.mode == EmergencyStop || i.command.right.mode == EmergencyStop
    ensures
      var t := After(c, s, i);
      t.latched && t.reason == EmergencyStopped && t.motion == EmergencyLatched
  {
    LatchTable(c, s, i);
    MotionTable(c, s, i);
    hide After;
    hide Unusable;
  }

  /** A reset for either arm without an emergency stop clears a latch, unless the same tick finds a new fault. */
  lemma ResetClearsLatch(c: Config, s: State, i: Input)
    requires Bookkept(s) && s.latched && 0.0 <= c.safety.maxTrackingError
    requires i.command.left.mode == ResetFault || i.command.right.mode == ResetFault
    requires i.command.left.mode != EmergencyStop && i.command.right.mode != EmergencyStop
    ensures
      var t := After(c, s, i);
      && (t.latched <==>
            || (AnyUnusable(c, i) && (IsRealConfig(c) || c.safety.latchOnStateError))
            || ((!i.leftSent || !i.rightSent) && (IsRealConfig(c) || c.safety.stopBothArms)))
      && (!t.latched ==> t.reason == Ok && t.motion == ConnectedHold)
  {
    LatchTable(c, s, i);
    MotionTable(c, s, i);
    hide After;
    hide Unusable;
  }

  /** After a disarming for either arm, without an emergency stop or a reset, motion is not allowed. */
  lemma DisarmStopsMotion(c: Config, s: State, i: Input)
    requires Bookkept(s) && 0.0 <= c.safety.maxTrackingError
    requires i.command.left.mode == DisarmMotion || i.command.right.mode == DisarmMotion
    requires i.command.left.mode != EmergencyStop && i.command.right.mode != EmergencyStop
    requires i.command.left.mode != ResetFault && i.command.right.mode != ResetFault
    ensures After(c, s, i).motion != ArmedHold && After(c, s, i).motion != Running
  {
    LatchTable(c, s, i);
    MotionTable(c, s, i);
    hide After;
    hide AnyUnusable;
    hide TooFar;
    hide Fault;
  }

  /** An arming for either arm with none of the others arms an unlatched loop, unless the tick finds a fault. */
  lemma ArmingArms(c: Config, s: State, i: Input)
    requires Bookkept(s) && !s.latched && 0.0 <= c.safety.maxTrackingError
    requires i.command.left.mode == ArmMotion || i.command.right.mode == ArmMotion
    requires i.command.left.mode !in {EmergencyStop, ResetFault, DisarmMotion}
    requires i.command.right.mode !in {EmergencyStop, ResetFault, DisarmMotion}
    ensures
      var t := After(c, s, i);
      && (!t.latched ==> t.motion == ArmedHold)
      && (!AnyUnusable(c, i) && !TooFar(c, s, i) && i.leftSent && i.rightSent ==> !t.latched)
  {
    LatchTable(c, s, i);
    MotionTable(c, s, i);
    hide After;
    hide AnyUnusable;
    hide TooFar;
    hide Fault;
  }

  /** In every run, a tick that reports Ok or a clamped limit sent to both arms and ended unlatched. */
  lemma {:induction false} HealthyVerdict(c: Config, s: State, run: seq<Input>, i: Input)
    requires Initial(c, s) && 0.0 <= c.safety.maxTrackingError
    ensures
      var t := Run(c, s, run);
      ReportOf(c, t, i).verdict == Ok || ReportOf(c, t, i).verdict == LimitClamped ==>
        i.leftSent && i.rightSent && !After(c, t, i).latched
  {
    var t := Run(c, s, run);
    BooksAlwaysKept(c, s, run);
    VerdictTable(c, t, i);
    LatchTable(c, t, i);
    HealthyMeans(c, t, i);
    hide *;
  }

  lemma HealthyMeans(c: Config, s: State, i: Input)
    requires Bookkept(s)
    ensures ExpectedVerdict(c, s, i) == Ok || ExpectedVerdict(c, s, i) == LimitClamped ==>
              i.leftSent && i.rightSent && ExpectedReason(c, s, i) == Ok
  {
    hide AnyUnusable;
    hide TooFar;
    hide AsksOutside;
    hide Asks;
    hide IsCarriedOut;
  }
}
