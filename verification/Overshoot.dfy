/** Every configuration that does not brake in time has a run that takes an arm past a joint limit, so
    braking in time is the exact condition for staying within the limits. */
module Overshoot {
  import opened Types
  import opened JointStep
  import opened Settling
  import opened Tick
  import opened Runs
  import opened Sends
  import opened Envelope
  import opened Confined
  import opened ServoSettling

  // ---- Ticks of well-behaved robots --------------------------------------------------------------

  /** Both robots are where they were last sent, at q, and both sends succeed. */
  function InputAt(start: nat, q: JointArray, command: DualCommand): Input {
    var r := RobotState(q, true, true, Connected, false);
    Input(start, true, r, r, command, true, true)
  }

  function BothArms(start: nat, arm: ArmCommand): DualCommand {
    DualCommand(0, start, arm.(hostTime := start), arm.(armId := ArmId.Right, hostTime := start), true)
  }

  function ArmingCommand(start: nat): DualCommand {
    BothArms(start, DEFAULT_ARM.(mode := ArmMotion))
  }

  function GoCommand(start: nat, q: JointArray): DualCommand {
    BothArms(start, DEFAULT_ARM.(mode := JointTarget, qTarget := q, hasJointTarget := true))
  }

  function StayCommand(start: nat): DualCommand {
    BothArms(start, DEFAULT_ARM)
  }

  /** Both arms were last sent p and before that pp, by a tick that started at `last`. */
  predicate Placed(s: State, p: JointArray, pp: JointArray, last: nat) {
    && s.left.prev == p && s.right.prev == p && s.left.prevprev == pp && s.right.prevprev == pp
    && s.lastStart == last
  }

  /** An unlatched loop in this place. */
  predicate Going(s: State, p: JointArray, pp: JointArray, last: nat) {
    Bookkept(s) && !s.latched && Placed(s, p, pp, last)
  }

  /** The filter takes every joint from p, pp to q when asked for the pose `desired`. */
  predicate FiltersTo(c: Config, desired: JointArray, p: JointArray, pp: JointArray, dt: real, q: JointArray) {
    forall j :: 0 <= j < DOF ==> FilterJoint(LimitsAt(c.safety, j), desired[j], p[j], pp[j], dt) == q[j]
  }

  lemma DecideStarts(c: Config, s: State, cmd: DualCommand, i: Input, dt: real)
    ensures Decide(c, s, cmd, i, dt).state.lastStart == s.lastStart
  {
    hide SafeHold;
    hide Desired;
    hide BothValid;
    hide CommandVerdict;
    hide CheckLeft;
    hide CheckRight;
    hide Combined;
  }

  lemma TickStarts(c: Config, s: State, i: Input)
    ensures After(c, s, i).lastStart == i.start
  {
    hide Obeyed;
    hide Decide;
    hide FilterDt;
    hide SafeHold;
    hide RequestOf;
    DecideStarts(c, Admitted(c, Started(s, i), i), Obeyed(c, Started(s, i), i), i, Dt(c, s, i));
  }

  lemma OnTrackAt(c: Config, s: State, start: nat, p: JointArray, command: DualCommand)
    requires InLimits(c.safety, p) && 0.0 < c.safety.maxTrackingError && s.left.prev == p && s.right.prev == p
    ensures BothValid(c, InputAt(start, p, command)) && !Lost(c, s, InputAt(start, p, command))
    ensures !SendFailed(InputAt(start, p, command))
  {}

  lemma PlacedByPairs(s: State, p: JointArray, pp: JointArray)
    requires forall side: ArmId, j :: 0 <= j < DOF ==> PairOf(ArmOf(s, side), j) == Pair(p[j], pp[j])
    ensures Placed(s, p, pp, s.lastStart)
  {
    forall j | 0 <= j < DOF
      ensures s.left.prev[j] == p[j] && s.left.prevprev[j] == pp[j]
      ensures s.right.prev[j] == p[j] && s.right.prevprev[j] == pp[j]
    {
      assert PairOf(ArmOf(s, ArmId.Left), j) == Pair(p[j], pp[j]);
      assert PairOf(ArmOf(s, ArmId.Right), j) == Pair(p[j], pp[j]);
    }
  }

  /** The pose both arms are asked for: the target, or the last pose. */
  function AskedPose(target: ArmGoal, p: JointArray): JointArray {
    if target.Reach? then target.q else p
  }

  /** A tick in which both arms pursue the same target, or stay, but for braking. */
  lemma GoTick(c: Config, s: State, start: nat, command: DualCommand, target: ArmGoal, p: JointArray,
               pp: JointArray, q: JointArray)
    requires SoundLimits(c.safety) && Accepted(c) && InLimits(c.safety, p) && Going(s, p, pp, s.lastStart)
    requires RequestOf(command) != Emergency && !target.Drift?
    requires Steers(Obeyed(c, Started(s, InputAt(start, p, command)), InputAt(start, p, command)), Goal(target, target))
    requires FiltersTo(c, AskedPose(target, p), p, pp, Dt(c, s, InputAt(start, p, command)), q)
    ensures
      var i := InputAt(start, p, command);
      && Going(After(c, s, i), q, p, start)
      && (MotionAllowed(After(c, s, i)) <==>
            RequestOf(command) == ArmForMotion || (MotionAllowed(s) && !Disarming(RequestOf(command))))
      && forall side: ArmId :: TargetOf(c, s, i, side) == q && ArmOf(After(c, s, i), side).prev == q
  {
    hide After;
    hide BothValid;
    hide Lost;
    hide Bookkept;
    hide MotionAllowed;
    hide Dt;
    hide Obeyed;
    hide RequestOf;
    hide Steers;
    hide FilterJoint;
    hide Ready;
    hide TargetOf;
    var i, g := InputAt(start, p, command), Goal(target, target);
    var t := After(c, s, i);
    ReadyUnmoved(c, s, i, ArmId.Left);
    ReadyUnmoved(c, s, i, ArmId.Right);
    OnTrackAt(c, Ready(c, s, i), start, p, command);
    assert SteadyTick(c, s, i, g);
    TickKeepsBooks(c, s, i);
    TickStarts(c, s, i);
    TickArms(c, s, i);
    SteadyStep(c, s, i, g, ArmId.Left, 0);
    hide SteadyTick;
    hide Disarming;
    forall side: ArmId, j | 0 <= j < DOF ensures PairOf(ArmOf(t, side), j) == Pair(q[j], p[j]) {
      SteadyStep(c, s, i, g, side, j);
    }
    PlacedByPairs(t, q, p);
    forall side: ArmId ensures TargetOf(c, s, i, side) == q && ArmOf(t, side).prev == q {
      TickSends(c, s, i, side);
    }
  }

  /** A tick of an armed loop that asks for the pose `desired`. */
  lemma MoveTick(c: Config, s: State, start: nat, desired: JointArray, p: JointArray, pp: JointArray, q: JointArray)
    requires SoundLimits(c.safety) && Accepted(c) && InLimits(c.safety, p)
    requires Going(s, p, pp, s.lastStart) && MotionAllowed(s)
    requires FiltersTo(c, desired, p, pp, Dt(c, s, InputAt(start, p, GoCommand(start, desired))), q)
    ensures
      var i := InputAt(start, p, GoCommand(start, desired));
      && Going(After(c, s, i), q, p, start) && MotionAllowed(After(c, s, i))
      && forall side: ArmId :: TargetOf(c, s, i, side) == q && ArmOf(After(c, s, i), side).prev == q
  {
    hide After;
    hide FiltersTo;
    hide Dt;
    hide TargetOf;
    hide Bookkept;
    hide MotionAllowed;
    hide Obeyed;
    SteersIsObeyed(c, s, InputAt(start, p, GoCommand(start, desired)), Goal(Reach(desired), Reach(desired)));
    hide RequestOf;
    GoTick(c, s, start, GoCommand(start, desired), Reach(desired), p, pp, q);
  }

  /** The command holds both arms, or arms the loop, which holds them for this tick. */
  predicate Stays(command: DualCommand) {
    RequestOf(command) == ArmForMotion || (command.left.mode == Hold && command.right.mode == Hold)
  }

  lemma StayIsObeyed(c: Config, s: State, i: Input)
    requires !s.latched && Stays(i.command)
    ensures Steers(Obeyed(c, s, i), STAY) && RequestOf(i.command) != Emergency
  {
    hide SafeHold;
  }

  /** A tick that leaves both arms where they were last sent, but for braking. */
  lemma StayTick(c: Config, s: State, start: nat, command: DualCommand, p: JointArray, pp: JointArray, q: JointArray)
    requires SoundLimits(c.safety) && Accepted(c) && InLimits(c.safety, p)
    requires Going(s, p, pp, s.lastStart) && Stays(command)
    requires FiltersTo(c, p, p, pp, Dt(c, s, InputAt(start, p, command)), q)
    ensures
      var i := InputAt(start, p, command);
      && Going(After(c, s, i), q, p, start)
      && (RequestOf(command) == ArmForMotion ==> MotionAllowed(After(c, s, i)))
      && forall side: ArmId :: TargetOf(c, s, i, side) == q && ArmOf(After(c, s, i), side).prev == q
  {
    hide After;
    hide FiltersTo;
    hide Dt;
    hide TargetOf;
    hide Bookkept;
    hide MotionAllowed;
    hide Obeyed;
    hide RequestOf;
    StayIsObeyed(c, Started(s, InputAt(start, p, command)), InputAt(start, p, command));
    GoTick(c, s, start, command, Remain, p, pp, q);
  }

  /** A tick that finds a joint too far from the reading q snaps both arms to it. */
  lemma SnapTick(c: Config, s: State, start: nat, p: JointArray, pp: JointArray, q: JointArray)
    requires c.safety.trackingPolicy == SnapToActual && InLimits(c.safety, q) && Going(s, p, pp, s.lastStart)
    requires exists j :: 0 <= j < DOF && Abs(p[j] - q[j]) > c.safety.maxTrackingError
    ensures
      var t := After(c, s, InputAt(start, q, StayCommand(start)));
      Going(t, q, p, start) && MotionAllowed(t) == MotionAllowed(s)
  {
    hide After;
    hide TargetOf;
    hide MotionAllowed;
    hide FilterOutput;
    var i := InputAt(start, q, StayCommand(start));
    StayIsObeyed(c, Started(s, i), i);
    SteersVerdict(Obeyed(c, Started(s, i), i), STAY);
    assert RequestOf(i.command) == Nothing;
    hide Obeyed;
    hide CommandVerdict;
    hide RequestOf;
    hide Steers;
    assert BothValid(c, i) && Lost(c, Ready(c, s, i), i);
    hide BothValid;
    hide Lost;
    TickKeepsBooks(c, s, i);
    TickStarts(c, s, i);
    TickLatches(c, s, i);
    TickArms(c, s, i);
    hide Bookkept;
    TargetTable(c, s, i, ArmId.Left);
    TargetTable(c, s, i, ArmId.Right);
    TickSends(c, s, i, ArmId.Left);
    TickSends(c, s, i, ArmId.Right);
  }

  // ---- The clock ---------------------------------------------------------------------------------

  /** The shortest period of at least x seconds, or else the longest there is. */
  function NsAbove(x: real): (ns: nat)
    requires 0.0 <= x
    ensures ns <= LONGEST_NS && (x <= Seconds(ns) || ns == LONGEST_NS)
  {
    var z := x * SEC_NS as real;
    if LONGEST_NS as real <= z then LONGEST_NS else z.Floor + 1
  }

  /** A period of at most x seconds. */
  function NsBelow(x: real): (ns: nat)
    requires 0.0 <= x
    ensures ns <= LONGEST_NS && Seconds(ns) <= x
  {
    var z := x * SEC_NS as real;
    if LONGEST_NS as real <= z then LONGEST_NS else z.Floor
  }

  lemma DtAfter(c: Config, s: State, i: Input, ns: nat)
    requires Accepted(c) && 0 < s.lastStart && i.start == s.lastStart + ns && ns <= LONGEST_NS
    ensures Dt(c, s, i) == Clamp(Seconds(ns), Period(c) * c.servo.dtMinRatio, Period(c) * c.servo.dtMaxRatio)
  {
    hide FilterDt;
    hide Seconds;
    hide Period;
    DtIsClamped(c, s, i);
    assert ElapsedNs(c, s, i) == ns;
  }

  /** Waiting long gives the longest dt, and waiting shortly the shortest. */
  lemma DtAfterWait(c: Config, s: State, start: nat, q: JointArray, command: DualCommand)
    requires Accepted(c) && 0 < s.lastStart
    requires 0.0 <= MinDt(c) <= MaxDt(c)
    ensures start == s.lastStart + NsAbove(MaxDt(c)) ==> Dt(c, s, InputAt(start, q, command)) == LongestDt(c)
    ensures start == s.lastStart + NsBelow(MinDt(c)) ==> Dt(c, s, InputAt(start, q, command)) == MinDt(c)
  {
    var i := InputAt(start, q, command);
    hide Dt;
    hide Seconds;
    hide Period;
    hide NsAbove;
    hide NsBelow;
    SecondsMonotone(NsAbove(MaxDt(c)), LONGEST_NS);
    if i.start == s.lastStart + NsAbove(MaxDt(c)) {
      DtAfter(c, s, i, NsAbove(MaxDt(c)));
    }
    if i.start == s.lastStart + NsBelow(MinDt(c)) {
      DtAfter(c, s, i, NsBelow(MinDt(c)));
    }
  }

  // ---- One joint that does not brake in time -----------------------------------------------------

  /** How far past its lower limit a joint can be taken with brake a, longest step v, shortest step s and
      range r: 0 if it brakes in time. */
  function SpareOf(a: real, v: real, s: real, r: real): (e: real)
    requires 0.0 <= a && (a < v ==> 0.0 < a && 0.0 < s)
    ensures 0.0 <= e && (0.0 < e <==> a < v && a < r)
    ensures 0.0 < e ==> e <= a && e <= s && a + e <= v && a + 2.0 * e <= r
  {
    if a < v && a < r then Min(Min(a, s), Min(v - a, (r - a) / 2.0)) else 0.0
  }

  /** The longest step of the shortest tick. */
  function ShortStep(c: Config, j: nat): real
    requires j < DOF && Accepted(c)
  {
    c.safety.dqMax[j] * MinDt(c)
  }

  function Spare(c: Config, j: nat): real
    requires j < DOF && SoundLimits(c.safety) && Accepted(c)
  {
    OverrunLaw(c, j);
    StillWithoutTime(c, j);
    SpareOf(MinBrake(c, j), Fastest(c, j), ShortStep(c, j), Range(c, j))
  }

  /** Without time to move, a joint cannot outrun its brake; with it, brake and step are positive. */
  lemma StillWithoutTime(c: Config, j: nat)
    requires SoundLimits(c.safety) && Accepted(c) && j < DOF && 0.0 <= MinBrake(c, j)
    ensures MinBrake(c, j) < Fastest(c, j) ==>
              0.0 < MinDt(c) && 0.0 < MinBrake(c, j) && 0.0 < ShortStep(c, j)
  {
    DtOrder(c);
    hide Seconds;
    if 0.0 < MinDt(c) {
      PositiveProduct(c.safety.dqMax[j], MinDt(c), c.safety.dqMax[j] * MinDt(c));
    } else {
      NoPeriod(Period(c), c.servo.dtMinRatio);
      assert LongestDt(c) == 0.0;
    }
    hide BrakeAt;
  }

  lemma NoPeriod(t: real, r: real)
    requires 0.0 <= t && 0.0 < r && t * r <= 0.0
    ensures t == 0.0
  {}

  /** Where the run takes a joint with lower limit lo: a start above it, a short step, a long step onto the
      limit, and past it. */
  function Stage(lo: real, a: real, e: real, n: nat): real {
    match n
    case 0 => if 0.0 < e then lo + a + 2.0 * e else lo
    case 1 => if 0.0 < e then lo + a + e else lo
    case 2 => lo
    case _ => lo - e
  }

  /** What a dt of at least the shortest allows the joint. */
  lemma AtLeast(c: Config, j: nat, dt: real)
    requires SoundLimits(c.safety) && Accepted(c) && j < DOF && 0.0 <= MinDt(c) <= dt
    ensures
      var l := LimitsAt(c.safety, j);
      Sound(l) && MinBrake(c, j) <= l.ddq * dt * dt && ShortStep(c, j) <= l.dq * dt
  {
    MaxStepIs(c, j);
    var l := LimitsAt(c.safety, j);
    hide Period;
    hide MinBrake;
    StepWithinMax(l.dq, l.ddq, MinDt(c), dt, dt);
    ScaleGrows(l.dq, MinDt(c), dt);
  }

  lemma ScaleGrows(k: real, x: real, y: real)
    requires 0.0 <= k && x <= y
    ensures k * x <= k * y
  {}

  /** From rest, the joint makes a first step of e. */
  lemma FirstMove(l: Limits, a: real, e: real, dt: real, v1: real, a1: real)
    requires Sound(l) && (0.0 < dt ==> v1 == l.dq * dt && a1 == l.ddq * dt * dt)
    requires 0.0 <= a && 0.0 <= e && (0.0 < e ==> 0.0 < dt && e <= v1 && e <= a <= a1 && a + 2.0 * e <= l.hi - l.lo)
    ensures FilterJoint(l, Stage(l.lo, a, e, 1), Stage(l.lo, a, e, 0), Stage(l.lo, a, e, 0), dt) == Stage(l.lo, a, e, 1)
  {
    hide FilterJoint;
    var p, q := Stage(l.lo, a, e, 0), Stage(l.lo, a, e, 1);
    if 0.0 < dt {
      StepForm(l, q, p, p, dt, v1, a1);
    } else {
      NoMove(l, q, p, p, dt);
    }
  }

  /** With the longest dt it makes a step of a + e onto the limit. */
  lemma SecondMove(l: Limits, a: real, e: real, dt: real, v1: real, a1: real)
    requires Sound(l) && (0.0 < dt ==> v1 == l.dq * dt && a1 == l.ddq * dt * dt)
    requires 0.0 <= a && 0.0 <= e && (0.0 < e ==> 0.0 < dt && a + e <= v1 && a <= a1)
    ensures FilterJoint(l, l.lo, Stage(l.lo, a, e, 1), Stage(l.lo, a, e, 0), dt) == l.lo
  {
    hide FilterJoint;
    var p, pp := Stage(l.lo, a, e, 1), Stage(l.lo, a, e, 0);
    if 0.0 < dt {
      StepForm(l, l.lo, p, pp, dt, v1, a1);
    } else {
      NoMove(l, l.lo, p, pp, dt);
    }
  }

  /** Asked to stay at the limit, with the shortest dt, it takes off a and is carried on by the rest. */
  lemma LastMove(l: Limits, was: real, e: real, dt: real, v1: real, a1: real)
    requires Sound(l) && (0.0 < dt ==> v1 == l.dq * dt && a1 == l.ddq * dt * dt)
    requires 0.0 <= e && l.lo <= was
    requires if 0.0 < e then 0.0 < dt && was - l.lo == a1 + e else was - l.lo <= a1 || dt <= 0.0
    ensures FilterJoint(l, l.lo, l.lo, was, dt) == l.lo - e
  {
    hide FilterJoint;
    if 0.0 < dt {
      StepForm(l, l.lo, l.lo, was, dt, v1, a1);
    } else {
      NoMove(l, l.lo, l.lo, was, dt);
    }
  }

  lemma NoMove(l: Limits, desired: real, p: real, pp: real, dt: real)
    requires dt <= 0.0
    ensures FilterJoint(l, desired, p, pp, dt) == p
  {}

  // ---- The runs ----------------------------------------------------------------------------------

  function StagePose(c: Config, n: nat): JointArray
    requires SoundLimits(c.safety) && Accepted(c)
  {
    seq(DOF, j requires 0 <= j < DOF => Stage(c.safety.qMin[j], MinBrake(c, j), Spare(c, j), n))
  }

  lemma StagesInLimits(c: Config, n: nat)
    requires SoundLimits(c.safety) && Accepted(c) && n <= 2
    ensures InLimits(c.safety, StagePose(c, n))
  {
    forall j | 0 <= j < DOF
      ensures c.safety.qMin[j] <= Stage(c.safety.qMin[j], MinBrake(c, j), Spare(c, j), n) <= c.safety.qMax[j]
    {
      OverrunLaw(c, j);
      hide MinBrake;
      hide Fastest;
      hide MinDt;
    }
  }

  /** What the spare of a joint is worth at some dt. */
  lemma SpareAt(c: Config, j: nat, dt: real)
    requires SoundLimits(c.safety) && Accepted(c) && j < DOF && MinDt(c) <= dt
    ensures
      var l, a, e := LimitsAt(c.safety, j), MinBrake(c, j), Spare(c, j);
      && Sound(l) && 0.0 <= a && 0.0 <= e && 0.0 <= MinDt(c)
      && l.lo == c.safety.qMin[j] && l.hi == c.safety.qMax[j]
      && (0.0 < e <==> a < Fastest(c, j) && a < Range(c, j))
      && (0.0 < e ==> 0.0 < dt && e <= l.dq * dt && e <= a <= l.ddq * dt * dt)
      && (0.0 < e ==> a + e <= Fastest(c, j) && a + 2.0 * e <= l.hi - l.lo)
  {
    DtOrder(c);
    OverrunLaw(c, j);
    StillWithoutTime(c, j);
    AtLeast(c, j, dt);
    MaxStepIs(c, j);
    RangeIs(c, j);
    hide SoundLimits;
    hide Accepted;
    hide MinBrake;
    hide Fastest;
    hide MinDt;
    hide ShortStep;
    hide Range;
    hide LimitsAt;
    hide Sound;
    hide Period;
    hide Overrun;
    hide MaxStep;
  }

  lemma RangeIs(c: Config, j: nat)
    requires j < DOF
    ensures Range(c, j) == LimitsAt(c.safety, j).hi - LimitsAt(c.safety, j).lo
  {}

  lemma StageZeroFilters(c: Config, dt: real)
    requires SoundLimits(c.safety) && Accepted(c) && MinDt(c) <= dt
    ensures var p := StagePose(c, 0); FiltersTo(c, p, p, p, dt, p)
  {
    var p := StagePose(c, 0);
    forall j | 0 <= j < DOF ensures FilterJoint(LimitsAt(c.safety, j), p[j], p[j], p[j], dt) == p[j] {
      StagesInLimits(c, 0);
      SpareAt(c, j, dt);
      hide FilterJoint;
      hide StagePose;
      RestFilters(LimitsAt(c.safety, j), p[j], dt);
    }
    hide FilterJoint;
  }

  lemma RestFilters(l: Limits, p: real, dt: real)
    requires Sound(l) && l.lo <= p <= l.hi
    ensures FilterJoint(l, p, p, p, dt) == p
  {
    hide FilterJoint;
    if 0.0 < dt {
      StepForm(l, p, p, p, dt, l.dq * dt, l.ddq * dt * dt);
    } else {
      NoMove(l, p, p, p, dt);
    }
  }

  lemma StagePoseAt(c: Config, n: nat, j: nat)
    requires SoundLimits(c.safety) && Accepted(c) && j < DOF
    ensures StagePose(c, n)[j] == Stage(LimitsAt(c.safety, j).lo, MinBrake(c, j), Spare(c, j), n)
  {
    hide MinBrake;
    hide Spare;
    hide Stage;
  }

  lemma StagesAt(c: Config, j: nat)
    requires SoundLimits(c.safety) && Accepted(c) && j < DOF
    ensures
      var lo, a, e := LimitsAt(c.safety, j).lo, MinBrake(c, j), Spare(c, j);
      && StagePose(c, 0)[j] == Stage(lo, a, e, 0) && StagePose(c, 1)[j] == Stage(lo, a, e, 1)
      && StagePose(c, 2)[j] == lo && StagePose(c, 3)[j] == lo - e
  {
    StagePoseAt(c, 0, j);
    StagePoseAt(c, 1, j);
    StagePoseAt(c, 2, j);
    StagePoseAt(c, 3, j);
    hide MinBrake;
    hide Spare;
    hide StagePose;
  }

  lemma JointStageOne(c: Config, j: nat, dt: real)
    requires SoundLimits(c.safety) && Accepted(c) && MinDt(c) <= dt && j < DOF
    ensures FilterJoint(LimitsAt(c.safety, j), StagePose(c, 1)[j], StagePose(c, 0)[j], StagePose(c, 0)[j], dt)
         == StagePose(c, 1)[j]
  {
    hide *;
    var l := LimitsAt(c.safety, j);
    SpareAt(c, j, dt);
    StagesAt(c, j);
    FirstMove(l, MinBrake(c, j), Spare(c, j), dt, l.dq * dt, l.ddq * dt * dt);
  }

  lemma JointStageTwo(c: Config, j: nat, dt: real)
    requires SoundLimits(c.safety) && Accepted(c) && MinDt(c) <= dt && dt == LongestDt(c) && j < DOF
    ensures FilterJoint(LimitsAt(c.safety, j), StagePose(c, 2)[j], StagePose(c, 1)[j], StagePose(c, 0)[j], dt)
         == StagePose(c, 2)[j]
  {
    hide *;
    var l := LimitsAt(c.safety, j);
    SpareAt(c, j, dt);
    FastestIs(c, j);
    StagesAt(c, j);
    SecondMove(l, MinBrake(c, j), Spare(c, j), dt, l.dq * dt, l.ddq * dt * dt);
  }

  lemma JointStageThree(c: Config, j: nat, dt: real)
    requires SoundLimits(c.safety) && Accepted(c) && dt == MinDt(c) && j < DOF
    ensures FilterJoint(LimitsAt(c.safety, j), StagePose(c, 2)[j], StagePose(c, 2)[j], StagePose(c, 1)[j], dt)
         == StagePose(c, 3)[j]
  {
    hide *;
    var l := LimitsAt(c.safety, j);
    SpareAt(c, j, dt);
    BrakeAtMinDt(c, j);
    StagesAt(c, j);
    FirstStageAt(l.lo, MinBrake(c, j), Spare(c, j));
    LastMove(l, StagePose(c, 1)[j], Spare(c, j), dt, l.dq * dt, l.ddq * dt * dt);
  }

  lemma FirstStageAt(lo: real, a: real, e: real)
    ensures Stage(lo, a, e, 1) == if 0.0 < e then lo + a + e else lo
  {}

  lemma BrakeAtMinDt(c: Config, j: nat)
    requires SoundLimits(c.safety) && Accepted(c) && j < DOF
    ensures MinBrake(c, j) == LimitsAt(c.safety, j).ddq * MinDt(c) * MinDt(c)
  {
    MaxStepIs(c, j);
    hide MinBrake;
    hide Period;
  }

  lemma StageOneFilters(c: Config, dt: real)
    requires SoundLimits(c.safety) && Accepted(c) && MinDt(c) <= dt
    ensures FiltersTo(c, StagePose(c, 1), StagePose(c, 0), StagePose(c, 0), dt, StagePose(c, 1))
  {
    hide FilterJoint;
    hide StagePose;
    forall j | 0 <= j < DOF
      ensures FilterJoint(LimitsAt(c.safety, j), StagePose(c, 1)[j], StagePose(c, 0)[j], StagePose(c, 0)[j], dt)
           == StagePose(c, 1)[j]
    {
      JointStageOne(c, j, dt);
    }
  }

  lemma StageTwoFilters(c: Config, dt: real)
    requires SoundLimits(c.safety) && Accepted(c) && MinDt(c) <= dt && dt == LongestDt(c)
    ensures FiltersTo(c, StagePose(c, 2), StagePose(c, 1), StagePose(c, 0), dt, StagePose(c, 2))
  {
    hide FilterJoint;
    hide StagePose;
    forall j | 0 <= j < DOF
      ensures FilterJoint(LimitsAt(c.safety, j), StagePose(c, 2)[j], StagePose(c, 1)[j], StagePose(c, 0)[j], dt)
           == StagePose(c, 2)[j]
    {
      JointStageTwo(c, j, dt);
    }
  }

  lemma StageThreeFilters(c: Config, dt: real)
    requires SoundLimits(c.safety) && Accepted(c) && dt == MinDt(c)
    ensures FiltersTo(c, StagePose(c, 2), StagePose(c, 2), StagePose(c, 1), dt, StagePose(c, 3))
  {
    hide FilterJoint;
    hide StagePose;
    forall j | 0 <= j < DOF
      ensures FilterJoint(LimitsAt(c.safety, j), StagePose(c, 2)[j], StagePose(c, 2)[j], StagePose(c, 1)[j], dt)
           == StagePose(c, 3)[j]
    {
      JointStageThree(c, j, dt);
    }
  }

  /** When the ticks of the run start: a nominal period, the longest useful one and the shortest apart. */
  function Clock(c: Config, n: nat): nat
    requires Accepted(c)
  {
    DtOrder(c);
    match n
    case 0 => 1
    case 1 => 1 + NominalNs(c.servo)
    case 2 => 1 + NominalNs(c.servo) + NsAbove(MaxDt(c))
    case _ => 1 + NominalNs(c.servo) + NsAbove(MaxDt(c)) + NsBelow(MinDt(c))
  }

  function EscapeInput(c: Config, n: nat): Input
    requires SoundLimits(c.safety) && Accepted(c)
  {
    var start := Clock(c, n);
    match n
    case 0 => InputAt(start, StagePose(c, 0), ArmingCommand(start))
    case 1 => InputAt(start, StagePose(c, 0), GoCommand(start, StagePose(c, 1)))
    case 2 => InputAt(start, StagePose(c, 1), GoCommand(start, StagePose(c, 2)))
    case _ => InputAt(start, StagePose(c, 2), GoCommand(start, StagePose(c, 2)))
  }

  /** The loop is armed, and both arms are sent toward their lower limits and asked to stay there. */
  function Escape(c: Config): seq<Input>
    requires SoundLimits(c.safety) && Accepted(c)
  {
    [EscapeInput(c, 0), EscapeInput(c, 1), EscapeInput(c, 2), EscapeInput(c, 3)]
  }

  lemma RestingStart(c: Config, p: JointArray)
    requires InLimits(c.safety, p)
    ensures Initial(c, Startup(p, p)) && Going(Startup(p, p), p, p, 0)
  {}

  lemma ArmingStays(start: nat)
    ensures Stays(ArmingCommand(start)) && RequestOf(ArmingCommand(start)) == ArmForMotion
    ensures Stays(StayCommand(start))
  {}

  lemma ClockIs(c: Config)
    requires Accepted(c) && 0.0 <= MinDt(c) <= MaxDt(c)
    ensures 0 < Clock(c, 0) && 0 < Clock(c, 1) && 0 < Clock(c, 2)
    ensures Clock(c, 2) == Clock(c, 1) + NsAbove(MaxDt(c)) && Clock(c, 3) == Clock(c, 2) + NsBelow(MinDt(c))
  {}

  lemma InputsAre(c: Config)
    requires SoundLimits(c.safety) && Accepted(c)
    ensures EscapeInput(c, 0) == InputAt(Clock(c, 0), StagePose(c, 0), ArmingCommand(Clock(c, 0)))
    ensures EscapeInput(c, 1) == InputAt(Clock(c, 1), StagePose(c, 0), GoCommand(Clock(c, 1), StagePose(c, 1)))
    ensures EscapeInput(c, 2) == InputAt(Clock(c, 2), StagePose(c, 1), GoCommand(Clock(c, 2), StagePose(c, 2)))
    ensures EscapeInput(c, 3) == InputAt(Clock(c, 3), StagePose(c, 2), GoCommand(Clock(c, 3), StagePose(c, 2)))
    ensures forall n :: 0 <= n <= 3 ==> EscapeInput(c, n).start == Clock(c, n)
  {
    hide StagePose;
    hide Clock;
  }

  /** The run takes both arms through the stages. */
  lemma EscapeTicks(c: Config) returns (s1: State, s2: State, s3: State, s4: State)
    requires SoundLimits(c.safety) && Accepted(c)
    ensures s1 == After(c, Startup(StagePose(c, 0), StagePose(c, 0)), EscapeInput(c, 0))
    ensures s2 == After(c, s1, EscapeInput(c, 1)) && s3 == After(c, s2, EscapeInput(c, 2))
    ensures s4 == After(c, s3, EscapeInput(c, 3))
    ensures forall side: ArmId ::
      TargetOf(c, s3, EscapeInput(c, 3), side) == StagePose(c, 3) && ArmOf(s4, side).prev == StagePose(c, 3)
  {
    hide *;
    var s0 := Startup(StagePose(c, 0), StagePose(c, 0));
    var t0, t1, t2, t3 := Clock(c, 0), Clock(c, 1), Clock(c, 2), Clock(c, 3);
    InputsAre(c);
    DtAtLeast(c, s0, EscapeInput(c, 0));
    ClockIs(c);
    StagesInLimits(c, 0);
    StagesInLimits(c, 1);
    StagesInLimits(c, 2);
    RestingStart(c, StagePose(c, 0));
    GoingLast(s0, StagePose(c, 0), StagePose(c, 0), 0);
    ArmingStays(t0);
    StageZeroFilters(c, Dt(c, s0, EscapeInput(c, 0)));
    StayTick(c, s0, t0, ArmingCommand(t0), StagePose(c, 0), StagePose(c, 0), StagePose(c, 0));
    s1 := After(c, s0, EscapeInput(c, 0));
    GoingLast(s1, StagePose(c, 0), StagePose(c, 0), t0);
    DtAtLeast(c, s1, EscapeInput(c, 1));
    StageOneFilters(c, Dt(c, s1, EscapeInput(c, 1)));
    MoveTick(c, s1, t1, StagePose(c, 1), StagePose(c, 0), StagePose(c, 0), StagePose(c, 1));
    s2 := After(c, s1, EscapeInput(c, 1));
    GoingLast(s2, StagePose(c, 1), StagePose(c, 0), t1);
    DtAtLeast(c, s2, EscapeInput(c, 2));
    DtAfterWait(c, s2, t2, StagePose(c, 1), GoCommand(t2, StagePose(c, 2)));
    StageTwoFilters(c, Dt(c, s2, EscapeInput(c, 2)));
    MoveTick(c, s2, t2, StagePose(c, 2), StagePose(c, 1), StagePose(c, 0), StagePose(c, 2));
    s3 := After(c, s2, EscapeInput(c, 2));
    GoingLast(s3, StagePose(c, 2), StagePose(c, 1), t2);
    DtAfterWait(c, s3, t3, StagePose(c, 2), GoCommand(t3, StagePose(c, 2)));
    StageThreeFilters(c, Dt(c, s3, EscapeInput(c, 3)));
    MoveTick(c, s3, t3, StagePose(c, 2), StagePose(c, 2), StagePose(c, 1), StagePose(c, 3));
    s4 := After(c, s3, EscapeInput(c, 3));
  }

  lemma GoingLast(s: State, p: JointArray, pp: JointArray, last: nat)
    requires Going(s, p, pp, last)
    ensures s.lastStart == last && Going(s, p, pp, s.lastStart)
  {}

  /** The run from a valid start, and where it ends: every joint that does not brake in time is past its
      lower limit, in both arms. */
  lemma EscapeEnds(c: Config)
    requires SoundLimits(c.safety) && Accepted(c)
    ensures
      var s, run := Startup(StagePose(c, 0), StagePose(c, 0)), Escape(c);
      && Initial(c, s)
      && forall side: ArmId :: TargetOf(c, Run(c, s, run[..3]), run[3], side) == StagePose(c, 3)
                               && ArmOf(Run(c, s, run), side).prev == StagePose(c, 3)
    ensures forall j :: 0 <= j < DOF && MinBrake(c, j) < Fastest(c, j) && MinBrake(c, j) < Range(c, j) ==>
      StagePose(c, 3)[j] < c.safety.qMin[j]
  {
    hide *;
    StageThreeIsPast(c);
    var s, run := Startup(StagePose(c, 0), StagePose(c, 0)), Escape(c);
    StagesInLimits(c, 0);
    RestingStart(c, StagePose(c, 0));
    var s1, s2, s3, s4 := EscapeTicks(c);
    EscapeRuns(c, s);
  }

  lemma StageThreeIsPast(c: Config)
    requires SoundLimits(c.safety) && Accepted(c)
    ensures forall j :: 0 <= j < DOF && MinBrake(c, j) < Fastest(c, j) && MinBrake(c, j) < Range(c, j) ==>
      StagePose(c, 3)[j] < c.safety.qMin[j]
  {
    forall j | 0 <= j < DOF && MinBrake(c, j) < Fastest(c, j) && MinBrake(c, j) < Range(c, j)
      ensures StagePose(c, 3)[j] < c.safety.qMin[j]
    {
      SpareAt(c, j, MinDt(c));
      hide MinBrake;
      hide Fastest;
      hide Spare;
    }
  }

  lemma EscapeRuns(c: Config, s: State)
    requires SoundLimits(c.safety) && Accepted(c)
    ensures
      var run := Escape(c);
      var s3 := After(c, After(c, After(c, s, EscapeInput(c, 0)), EscapeInput(c, 1)), EscapeInput(c, 2));
      && |run| == 4 && run[3] == EscapeInput(c, 3)
      && Run(c, s, run[..3]) == s3 && Run(c, s, run) == After(c, s3, EscapeInput(c, 3))
  {
    hide After;
    hide EscapeInput;
    var run := Escape(c);
    assert run[..1] == [] + [run[0]] && run[..2] == run[..1] + [run[1]];
    assert run[..3] == run[..2] + [run[2]] && run == run[..3] + [run[3]];
    RunSnoc(c, s, [], run[0]);
    RunSnoc(c, s, run[..1], run[1]);
    RunSnoc(c, s, run[..2], run[2]);
    RunSnoc(c, s, run[..3], run[3]);
  }

  lemma FastJointEscapes(c: Config, j: nat)
    requires SoundLimits(c.safety) && Accepted(c) && j < DOF
    requires MinBrake(c, j) < Fastest(c, j) && MinBrake(c, j) < Range(c, j)
    ensures !AlwaysWithinLimits(c)
  {
    EscapeEnds(c);
    var s, run := Startup(StagePose(c, 0), StagePose(c, 0)), Escape(c);
    assert StagePose(c, 3)[j] < c.safety.qMin[j];
    hide MinBrake;
    hide Fastest;
    hide StagePose;
    hide Escape;
    hide Run;
    hide TargetOf;
    hide Initial;
    assert !InLimits(c.safety, TargetOf(c, Run(c, s, run[..3]), run[3], ArmId.Left));
  }

  // ---- A snap across the range -------------------------------------------------------------------

  /** How far the joint is carried past its lower limit by a snap from its upper one. */
  function Thrown(c: Config, j: nat): real
    requires j < DOF
  {
    Max(0.0, Range(c, j) - MinBrake(c, j))
  }

  function ThrownPose(c: Config): JointArray {
    seq(DOF, j requires 0 <= j < DOF => c.safety.qMin[j] - Thrown(c, j))
  }

  lemma SnapFilters(c: Config, dt: real)
    requires SoundLimits(c.safety) && Accepted(c) && dt == MinDt(c) && 0.0 < dt
    ensures FiltersTo(c, c.safety.qMin, c.safety.qMin, c.safety.qMax, dt, ThrownPose(c))
  {
    hide FilterJoint;
    forall j | 0 <= j < DOF
      ensures FilterJoint(LimitsAt(c.safety, j), c.safety.qMin[j], c.safety.qMin[j], c.safety.qMax[j], dt)
           == ThrownPose(c)[j]
    {
      MaxStepIs(c, j);
      hide MinBrake;
      hide Period;
      var l := LimitsAt(c.safety, j);
      LastMove(l, c.safety.qMax[j], Thrown(c, j), dt, l.dq * dt, l.ddq * dt * dt);
    }
  }

  lemma EndsInLimits(c: Config)
    requires SoundLimits(c.safety)
    ensures InLimits(c.safety, c.safety.qMin) && InLimits(c.safety, c.safety.qMax)
  {}

  /** Both arms start at their upper limits, read as being at their lower ones, and are held there. */
  lemma SnapEscape(c: Config) returns (s: State, snap: Input, stay: Input)
    requires SoundLimits(c.safety) && Accepted(c) && Snappable(c) && c.servo.rateHz <= SEC_NS
    ensures Initial(c, s) && forall side: ArmId :: TargetOf(c, Run(c, s, [snap]), stay, side) == ThrownPose(c)
    ensures forall j :: 0 <= j < DOF && MinBrake(c, j) < Range(c, j) ==> ThrownPose(c)[j] < c.safety.qMin[j]
  {
    hide *;
    var lo, hi := c.safety.qMin, c.safety.qMax;
    s := Startup(hi, hi);
    snap := InputAt(1, lo, StayCommand(1));
    EndsInLimits(c);
    RestingStart(c, hi);
    GoingLast(s, hi, hi, 0);
    SnappableMeans(c);
    SnapTick(c, s, 1, hi, hi, lo);
    var s1 := After(c, s, snap);
    GoingLast(s1, lo, hi, 1);
    DtOrder(c);
    var start := 1 + NsBelow(MinDt(c));
    stay := InputAt(start, lo, StayCommand(start));
    ArmingStays(start);
    PeriodAbove(c);
    DtAfterWait(c, s1, start, lo, StayCommand(start));
    SnapFilters(c, Dt(c, s1, stay));
    ThrownPast(c);
    StayTick(c, s1, start, StayCommand(start), lo, hi, ThrownPose(c));
    OneTick(c, s, snap);
  }

  lemma ThrownPast(c: Config)
    ensures forall j :: 0 <= j < DOF && MinBrake(c, j) < Range(c, j) ==> ThrownPose(c)[j] < c.safety.qMin[j]
  {
    hide MinBrake;
  }

  lemma SnappableMeans(c: Config)
    requires SoundLimits(c.safety) && Snappable(c)
    ensures c.safety.trackingPolicy == SnapToActual
    ensures exists j :: 0 <= j < DOF && Abs(c.safety.qMax[j] - c.safety.qMin[j]) > c.safety.maxTrackingError
  {
    var j :| 0 <= j < DOF && c.safety.maxTrackingError < Range(c, j);
    assert Abs(c.safety.qMax[j] - c.safety.qMin[j]) > c.safety.maxTrackingError;
  }

  lemma OneTick(c: Config, s: State, i: Input)
    ensures Run(c, s, [i]) == After(c, s, i)
  {
    hide After;
    assert [] + [i] == [i];
    RunSnoc(c, s, [], i);
  }

  lemma SnappedJointEscapes(c: Config, j: nat)
    requires SoundLimits(c.safety) && Accepted(c) && Snappable(c) && c.servo.rateHz <= SEC_NS
    requires j < DOF && MinBrake(c, j) < Range(c, j)
    ensures !AlwaysWithinLimits(c)
  {
    var s, snap, stay := SnapEscape(c);
    assert ThrownPose(c)[j] < c.safety.qMin[j];
    hide MinBrake;
    hide ThrownPose;
    hide Run;
    hide TargetOf;
    hide Initial;
    assert !InLimits(c.safety, TargetOf(c, Run(c, s, [snap]), stay, ArmId.Left));
  }

  // ---- The exact condition -----------------------------------------------------------------------

  /** Every target of every run is within the joint limits if and only if every joint brakes in time. */
  lemma WithinLimitsIff(c: Config)
    requires SoundLimits(c.safety) && Accepted(c)
    ensures AlwaysWithinLimits(c) <==> forall j :: 0 <= j < DOF ==> BrakesInTime(c, j)
  {
    hide AlwaysWithinLimits;
    if AllBrakeInTime(c) {
      BrakingInTimeConfines(c);
    } else {
      var j :| 0 <= j < DOF && !BrakesInTime(c, j);
      hide MinBrake;
      hide Fastest;
      hide Snappable;
      if Snappable(c) {
        SnappedJointEscapes(c, j);
      } else {
        FastJointEscapes(c, j);
      }
    }
  }

  /** Unless a tick may last for centuries, the longest dt is the one of the larger ratio. */
  lemma LongestDtIsMax(c: Config)
    requires Accepted(c) && MaxDt(c) <= Seconds(LONGEST_NS)
    ensures LongestDt(c) == MaxDt(c) && forall j :: 0 <= j < DOF ==> Fastest(c, j) == MaxStep(c, j)
  {
    DtOrder(c);
    hide Seconds;
    hide Period;
  }

  /** One tick a second, limits [0, 10], at most 1 per tick and a change of at most 0.5 per tick. */
  const CONFIG: Config := Config(Mock, Mock, ServoConfig(1, 1.0, 1.0),
    SafetyConfig(Uniform(0.0), Uniform(10.0), Uniform(1.0), Uniform(0.5), 100.0, TrackingErrorPolicy.FaultLatch,
                 true, true))

  function Uniform(x: real): JointArray {
    [x, x, x, x, x, x]
  }

  lemma ConfigIsValid()
    ensures SoundLimits(CONFIG.safety) && Accepted(CONFIG)
  {}

  /** The joint limits themselves are no bound: in this run from a valid start, with robots that follow and
      a clock that advances about a second a tick, every joint of both arms ends half a degree below the lower
      limit, where the command never asked the arms to go. */
  lemma LimitsAreExceeded()
    ensures SoundLimits(CONFIG.safety) && Accepted(CONFIG)
    ensures
      var s, run := Startup(StagePose(CONFIG, 0), StagePose(CONFIG, 0)), Escape(CONFIG);
      && Initial(CONFIG, s)
      && (forall side: ArmId, j :: 0 <= j < DOF ==> ArmOf(s, side).prev[j] == 1.5)
      && forall side: ArmId, j :: 0 <= j < DOF ==>
           ArmOf(Run(CONFIG, s, run), side).prev[j] == CONFIG.safety.qMin[j] - 0.5
  {
    ConfigIsValid();
    EscapeEnds(CONFIG);
    var s, run := Startup(StagePose(CONFIG, 0), StagePose(CONFIG, 0)), Escape(CONFIG);
    hide Run;
    hide Escape;
    hide SoundLimits;
    hide Accepted;
    hide Initial;
    forall j | 0 <= j < DOF
      ensures StagePose(CONFIG, 0)[j] == 1.5 && StagePose(CONFIG, 3)[j] == CONFIG.safety.qMin[j] - 0.5
    {
      ConfigSpare(j);
      hide Spare;
      hide MinBrake;
    }
    hide StagePose;
  }

  lemma ConfigSpare(j: nat)
    requires j < DOF && SoundLimits(CONFIG.safety) && Accepted(CONFIG)
    ensures MinBrake(CONFIG, j) == 0.5 && Spare(CONFIG, j) == 0.5 && CONFIG.safety.qMin[j] == 0.0
  {
    assert NominalNs(CONFIG.servo) == SEC_NS;
    assert Seconds(SEC_NS) == 1.0;
    assert 1.0 <= Seconds(LONGEST_NS);
    assert LongestDt(CONFIG) == 1.0;
    assert MinDt(CONFIG) == 1.0;
    hide Seconds;
  }
}
