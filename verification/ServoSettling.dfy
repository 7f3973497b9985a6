/** A steady goal brings both arms to rest: end to end through the ticks of the servo loop, however the ticks
    vary in length and whichever commands carry the goal. */
module ServoSettling {
  import opened Types
  import opened JointStep
  import opened Settling
  import opened Tick
  import opened Runs
  import opened Sends
  import opened Envelope
  import Safety
  import Trajectory

  /** What an arm is asked for: a joint target, joint velocities, or to stay where it is. */
  datatype ArmGoal = Reach(q: JointArray) | Drift(v: JointArray) | Remain

  datatype Goal = Goal(left: ArmGoal, right: ArmGoal)

  const STAY: Goal := Goal(Remain, Remain)

  function GoalOf(g: Goal, side: ArmId): ArmGoal {
    if side == ArmId.Left then g.left else g.right
  }

  predicate Pursues(a: ArmCommand, g: ArmGoal) {
    match g
    case Reach(q) => a.mode == JointTarget && a.hasJointTarget && a.qTarget == q
    case Drift(v) => a.mode == JointVelocity && a.hasJointVelocity && a.dqTarget == v
    case Remain => a.mode == Hold || a.mode == Idle
  }

  /** The command asks for the goal; sequence numbers, times, timeouts and anything else are free. */
  predicate Steers(cmd: DualCommand, g: Goal) {
    Pursues(cmd.left, g.left) && Pursues(cmd.right, g.right)
  }

  function AimOf(g: ArmGoal, j: nat): Aim
    requires j < DOF
  {
    match g
    case Reach(q) => At(q[j])
    case Drift(v) => Moving(v[j])
    case Remain => Stay
  }

  /** Valid readings, no arm off track, both sends succeed. */
  predicate Undisturbed(c: Config, s: State, i: Input) {
    BothValid(c, i) && !Lost(c, Ready(c, s, i), i) && !SendFailed(i)
  }

  /** The tick is undisturbed and obeys a command that asks for the goal. */
  predicate SteadyTick(c: Config, s: State, i: Input, g: Goal) {
    Undisturbed(c, s, i) && RequestOf(i.command) != Emergency && Steers(Obeyed(c, Started(s, i), i), g)
  }

  ghost predicate SteadyRun(c: Config, s: State, run: seq<Input>, g: Goal) {
    forall k :: 0 <= k < |run| ==> SteadyTick(c, Run(c, s, run[..k]), run[k], g)
  }

  function PairOf(a: Arm, j: nat): Pair
    requires j < DOF
  {
    Pair(a.prev[j], a.prevprev[j])
  }

  // ---- One tick ----------------------------------------------------------------------------------

  lemma SteersVerdict(cmd: DualCommand, g: Goal)
    requires Steers(cmd, g)
    ensures CommandVerdict(cmd) == Ok
  {}

  /** Without an emergency stop the lifecycle part of a tick leaves an unlatched loop unlatched and its
      arms alone. */
  lemma ReadyUnmoved(c: Config, s: State, i: Input, side: ArmId)
    requires !s.latched && RequestOf(i.command) != Emergency
    ensures !Ready(c, s, i).latched && ArmOf(Ready(c, s, i), side) == ArmOf(s, side)
  {
    hide RequestOf;
    hide SafeHold;
  }

  lemma SteadyRequest(c: Config, a: ArmCommand, g: ArmGoal, prev: JointArray, prevprev: JointArray, dt: real, j: nat)
    requires SoundLimits(c.safety) && j < DOF && Pursues(a, g)
    ensures Safety.FilteredPose(c.safety, Trajectory.Requested(c.safety, a, prev, dt), prev, prevprev, dt)[j]
         == FilterJoint(LimitsAt(c.safety, j), Asked(AimOf(g, j), prev[j], dt), prev[j], prevprev[j], dt)
  {
    hide FilterJoint;
    hide Safety.FilteredPose;
    hide Trajectory.TrackedPose;
    hide Trajectory.IntegratedPose;
    match g {
      case Reach(q) =>
        ReachRequest(c.safety, q, prev, prevprev, dt, j);
      case Drift(v) =>
        DriftRequest(c.safety, v, prev, prevprev, dt, j);
        AskedAhead(v[j], prev[j], dt);
        hide Asked;
        hide Ahead;
      case Remain =>
        RemainRequest(c.safety, prev, prevprev, dt, j);
    }
  }

  lemma RemainRequest(c: SafetyConfig, prev: JointArray, prevprev: JointArray, dt: real, j: nat)
    requires j < DOF
    ensures Safety.FilteredPose(c, prev, prev, prevprev, dt)[j]
         == FilterJoint(LimitsAt(c, j), prev[j], prev[j], prevprev[j], dt)
  {
    hide FilterJoint;
  }

  lemma ReachRequest(c: SafetyConfig, q: JointArray, prev: JointArray, prevprev: JointArray, dt: real, j: nat)
    requires SoundLimits(c) && j < DOF
    ensures Safety.FilteredPose(c, Trajectory.TrackedPose(c, q, prev, dt), prev, prevprev, dt)[j]
         == FilterJoint(LimitsAt(c, j), q[j], prev[j], prevprev[j], dt)
  {
    Trajectory.TargetComposition(c, q, prev, prevprev, dt);
    hide FilterJoint;
    hide Trajectory.TrackedPose;
  }

  lemma DriftRequest(c: SafetyConfig, v: JointArray, prev: JointArray, prevprev: JointArray, dt: real, j: nat)
    requires SoundLimits(c) && j < DOF
    ensures Safety.FilteredPose(c, Trajectory.IntegratedPose(c, v, prev, dt), prev, prevprev, dt)[j]
         == FilterJoint(LimitsAt(c, j), Ahead(v[j], prev[j], dt), prev[j], prevprev[j], dt)
  {
    Trajectory.VelocityComposition(c, v, prev, prevprev, dt);
    hide FilterJoint;
    hide Trajectory.IntegratedPose;
    hide Ahead;
  }

  lemma AskedAhead(v: real, p: real, dt: real)
    ensures Asked(Moving(v), p, dt) == Ahead(v, p, dt)
  {}

  lemma SteadyOutput(c: Config, s: State, i: Input, g: Goal, side: ArmId, j: nat)
    requires SoundLimits(c.safety) && !s.latched && SteadyTick(c, s, i, g) && j < DOF
    ensures
      var a := ArmOf(s, side);
      FilterOutput(c, s, i, side)[j]
      == FilterJoint(LimitsAt(c.safety, j), Asked(AimOf(GoalOf(g, side), j), a.prev[j], Dt(c, s, i)), a.prev[j],
                     a.prevprev[j], Dt(c, s, i))
  {
    hide FilterJoint;
    hide Safety.FilteredPose;
    hide Trajectory.Requested;
    hide Dt;
    hide Obeyed;
    hide RequestOf;
    hide Ready;
    hide Undisturbed;
    hide CommandVerdict;
    var cmd, a := Obeyed(c, Started(s, i), i), ArmOf(s, side);
    SteersVerdict(cmd, g);
    ReadyUnmoved(c, s, i, side);
    hide Pursues;
    SteadyRequest(c, if side == ArmId.Left then cmd.left else cmd.right, GoalOf(g, side), a.prev, a.prevprev,
                  Dt(c, s, i), j);
  }

  /** A steady tick is one step of the filter on every joint of both arms, and leaves the loop unlatched. */
  lemma SteadyStep(c: Config, s: State, i: Input, g: Goal, side: ArmId, j: nat)
    requires SoundLimits(c.safety) && Bookkept(s) && !s.latched && j < DOF && SteadyTick(c, s, i, g)
    ensures !After(c, s, i).latched
    ensures PairOf(ArmOf(After(c, s, i), side), j)
         == FilterOnce(LimitsAt(c.safety, j), AimOf(GoalOf(g, side), j), Dt(c, s, i), PairOf(ArmOf(s, side), j))
  {
    hide After;
    hide TargetOf;
    hide FilterOutput;
    hide Obeyed;
    hide CommandVerdict;
    hide RequestOf;
    hide BothValid;
    hide FilterJoint;
    hide Dt;
    hide Ready;
    hide Lost;
    hide Steers;
    SteersVerdict(Obeyed(c, Started(s, i), i), g);
    ReadyUnmoved(c, s, i, side);
    TargetTable(c, s, i, side);
    TickSends(c, s, i, side);
    TickLatches(c, s, i);
    NoCause(c, s, i);
    SteadyOutput(c, s, i, g, side, j);
  }

  lemma NoCause(c: Config, s: State, i: Input)
    requires Undisturbed(c, s, i) && RequestOf(i.command) != Emergency
    ensures Cause(c, s, i) == Ok
  {
    hide RequestOf;
    hide BothValid;
    hide Obeyed;
    hide CommandVerdict;
    hide Lost;
  }

  // ---- Runs --------------------------------------------------------------------------------------

  /** The filter dts of the ticks of a run. */
  function Dts(c: Config, s: State, run: seq<Input>): (dts: seq<real>)
    ensures |dts| == |run|
  {
    if run == [] then []
    else Dts(c, s, run[..|run| - 1]) + [Dt(c, Run(c, s, run[..|run| - 1]), run[|run| - 1])]
  }

  lemma SteadyPrefix(c: Config, s: State, run: seq<Input>, g: Goal)
    requires run != [] && SteadyRun(c, s, run, g)
    ensures SteadyRun(c, s, run[..|run| - 1], g)
    ensures SteadyTick(c, Run(c, s, run[..|run| - 1]), run[|run| - 1], g)
  {
    hide SteadyTick;
    hide Run;
    var before := run[..|run| - 1];
    forall k | 0 <= k < |before| ensures SteadyTick(c, Run(c, s, before[..k]), before[k], g) {
      assert before[..k] == run[..k] && before[k] == run[k];
    }
  }

  /** Over a steady run every joint is filtered toward its aim, at whatever dts the clock gives. */
  lemma {:induction false} SteadyRunIterates(c: Config, s: State, run: seq<Input>, g: Goal, side: ArmId, j: nat)
    requires SoundLimits(c.safety) && Accepted(c) && Bookkept(s) && !s.latched && j < DOF && SteadyRun(c, s, run, g)
    ensures Bookkept(Run(c, s, run)) && !Run(c, s, run).latched && AllAtLeast(Dts(c, s, run), MinDt(c))
    ensures PairOf(ArmOf(Run(c, s, run), side), j)
         == FilterAll(LimitsAt(c.safety, j), AimOf(GoalOf(g, side), j), Dts(c, s, run), PairOf(ArmOf(s, side), j))
  {
    if run != [] {
      var before, i := run[..|run| - 1], run[|run| - 1];
      SteadyPrefix(c, s, run, g);
      SteadyRunIterates(c, s, before, g, side, j);
      hide SteadyTick;
      hide SteadyRun;
      hide After;
      hide FilterOnce;
      hide Bookkept;
      hide Dt;
      hide MinDt;
      var t := Run(c, s, before);
      SteadyStep(c, t, i, g, side, j);
      TickKeepsBooks(c, t, i);
      DtAtLeast(c, t, i);
      FilterAllSnoc(LimitsAt(c.safety, j), AimOf(GoalOf(g, side), j), Dts(c, s, before), Dt(c, t, i),
                    PairOf(ArmOf(s, side), j));
    }
  }

  /** The joint rests where its goal puts it: at the clamped target, at the limit it is moved to, or within its
      limits. */
  predicate Settled(c: Config, g: Goal, s: State, side: ArmId, j: nat)
    requires j < DOF
  {
    AtRest(LimitsAt(c.safety, j), AimOf(GoalOf(g, side), j), PairOf(ArmOf(s, side), j))
  }

  predicate AllSettled(c: Config, g: Goal, s: State) {
    forall side: ArmId, j :: 0 <= j < DOF ==> Settled(c, g, s, side, j)
  }

  lemma JointSettles(c: Config, s: State, g: Goal, side: ArmId, j: nat) returns (n: nat)
    requires SoundLimits(c.safety) && Accepted(c) && 0.0 < MinDt(c) && Bookkept(s) && !s.latched && j < DOF
    ensures forall run :: SteadyRun(c, s, run, g) && n <= |run| ==> Settled(c, g, Run(c, s, run), side, j)
  {
    n := FilterComesToRest(LimitsAt(c.safety, j), AimOf(GoalOf(g, side), j), MinDt(c), PairOf(ArmOf(s, side), j));
    forall run | SteadyRun(c, s, run, g) && n <= |run| ensures Settled(c, g, Run(c, s, run), side, j) {
      hide SteadyRun;
      hide Run;
      hide FilterAll;
      hide AllAtLeast;
      hide MinDt;
      SteadyRunIterates(c, s, run, g, side, j);
    }
  }

  lemma ArmSettles(c: Config, s: State, g: Goal, side: ArmId) returns (n: nat)
    requires SoundLimits(c.safety) && Accepted(c) && 0.0 < MinDt(c) && Bookkept(s) && !s.latched
    ensures forall run, j :: SteadyRun(c, s, run, g) && n <= |run| && 0 <= j < DOF ==>
              Settled(c, g, Run(c, s, run), side, j)
  {
    hide SteadyRun;
    hide Settled;
    hide Run;
    n := 0;
    for k := 0 to DOF
      invariant forall run, j :: SteadyRun(c, s, run, g) && n <= |run| && 0 <= j < k ==>
                  Settled(c, g, Run(c, s, run), side, j)
    {
      var m := JointSettles(c, s, g, side, k);
      n := if n < m then m else n;
    }
  }

  /** From every unlatched state, one number of ticks is enough for every steady run: after it both arms rest
      for as long as the run stays steady, an arm with a target exactly at it, clamped to the limits, one that
      is moved with every moving joint at its limit, any other within its limits. */
  lemma SteadyRunSettles(c: Config, s: State, g: Goal) returns (n: nat)
    requires SoundLimits(c.safety) && Accepted(c) && c.servo.rateHz <= SEC_NS && Bookkept(s) && !s.latched
    ensures forall run :: SteadyRun(c, s, run, g) && n <= |run| ==> AllSettled(c, g, Run(c, s, run))
  {
    PeriodAbove(c);
    var l := ArmSettles(c, s, g, ArmId.Left);
    var r := ArmSettles(c, s, g, ArmId.Right);
    n := if l < r then r else l;
    forall run | SteadyRun(c, s, run, g) && n <= |run| ensures AllSettled(c, g, Run(c, s, run)) {
      hide SteadyRun;
      hide Settled;
      hide Run;
      forall side: ArmId, j | 0 <= j < DOF ensures Settled(c, g, Run(c, s, run), side, j) {
        if side == ArmId.Left {
          assert Settled(c, g, Run(c, s, run), ArmId.Left, j);
        } else {
          assert Settled(c, g, Run(c, s, run), ArmId.Right, j);
        }
      }
    }
  }

  // ---- Joints on the move ------------------------------------------------------------------------

  /** Every tick of the run has this dt. */
  ghost predicate Regular(c: Config, s: State, run: seq<Input>, dt: real) {
    forall k :: 0 <= k < |run| ==> Dt(c, Run(c, s, run[..k]), run[k]) == dt
  }

  lemma {:induction false} RegularDts(c: Config, s: State, run: seq<Input>, dt: real)
    requires Regular(c, s, run, dt)
    ensures Dts(c, s, run) == Repeated(dt, |run|)
  {
    if run != [] {
      var before := run[..|run| - 1];
      hide *;
      RegularPrefix(c, s, run, dt);
      RegularDts(c, s, before, dt);
      DtsLast(c, s, run);
      RepeatedLast(dt, |run|);
    } else {
      assert Repeated(dt, 0) == [];
    }
  }

  lemma RegularPrefix(c: Config, s: State, run: seq<Input>, dt: real)
    requires run != [] && Regular(c, s, run, dt)
    ensures Regular(c, s, run[..|run| - 1], dt)
    ensures Dt(c, Run(c, s, run[..|run| - 1]), run[|run| - 1]) == dt
  {
    hide Dt;
    hide Run;
    var before := run[..|run| - 1];
    assert forall k :: 0 <= k < |before| ==> before[..k] == run[..k] && before[k] == run[k];
  }

  lemma DtsLast(c: Config, s: State, run: seq<Input>)
    requires run != []
    ensures Dts(c, s, run)
         == Dts(c, s, run[..|run| - 1]) + [Dt(c, Run(c, s, run[..|run| - 1]), run[|run| - 1])]
  {
    hide Dt;
    hide Run;
  }

  lemma SteadyUpTo(c: Config, s: State, run: seq<Input>, g: Goal, dt: real, k: nat)
    requires SteadyRun(c, s, run, g) && Regular(c, s, run, dt) && k <= |run|
    ensures SteadyRun(c, s, run[..k], g) && Regular(c, s, run[..k], dt)
  {
    hide SteadyTick;
    hide Dt;
    hide Run;
    assert forall n :: 0 <= n < k ==> run[..k][..n] == run[..n] && run[..k][n] == run[n];
  }

  /** At a regular dt a joint commanded at velocity v speeds up by its acceleration limit in every tick until
      it makes steps of v * dt, or of its velocity limit, or reaches the limit it moves to. */
  lemma VelocityRunSpeedsUp(
      c: Config, s: State, run: seq<Input>, g: Goal, side: ArmId, j: nat, dt: real, v: real, u: real, a: real)
    requires SoundLimits(c.safety) && Accepted(c) && Bookkept(s) && !s.latched && j < DOF && 0.0 < dt
    requires SteadyRun(c, s, run, g) && Regular(c, s, run, dt)
    requires GoalOf(g, side).Drift? && v == GoalOf(g, side).v[j] && v != 0.0
    requires u == Min(Abs(v) * dt, c.safety.dqMax[j] * dt) && a == c.safety.ddqMax[j] * dt * dt
    requires forall k: nat :: k < |run| ==>
      !ReachedLimit(LimitsAt(c.safety, j), v, ArmOf(Run(c, s, run[..k]), side).prev[j])
    ensures
      var b, t := ArmOf(s, side), ArmOf(Run(c, s, run), side);
      || ReachedLimit(LimitsAt(c.safety, j), v, t.prev[j])
      || Forward(v, t.prev[j] - t.prevprev[j]) >= Min(u, Forward(v, b.prev[j] - b.prevprev[j]) + Times(|run|, a))
  {
    hide *;
    assert run[..|run|] == run;
    var l, p := LimitsAt(c.safety, j), PairOf(ArmOf(s, side), j);
    LimitsAre(c, s, side, j);
    StepIs(c, j, dt, v, u, a);
    forall k: nat | k <= |run|
      ensures FilterAll(l, Moving(v), Repeated(dt, k), p)
           == Pair(ArmOf(Run(c, s, run[..k]), side).prev[j], ArmOf(Run(c, s, run[..k]), side).prevprev[j])
    {
      PrefixMoves(c, s, run, g, side, j, dt, k);
    }
    MovingSpeedsUp(l, v, dt, p, |run|, u, a);
  }

  lemma StepIs(c: Config, j: nat, dt: real, v: real, u: real, a: real)
    requires j < DOF
    requires u == Min(Abs(v) * dt, c.safety.dqMax[j] * dt) && a == c.safety.ddqMax[j] * dt * dt
    ensures MovesBy(LimitsAt(c.safety, j), v, dt, u, a)
  {}

  lemma LimitsAre(c: Config, s: State, side: ArmId, j: nat)
    requires SoundLimits(c.safety) && j < DOF
    ensures
      var l, p := LimitsAt(c.safety, j), PairOf(ArmOf(s, side), j);
      && Sound(l) && l.dq == c.safety.dqMax[j] && l.ddq == c.safety.ddqMax[j]
      && p == Pair(ArmOf(s, side).prev[j], ArmOf(s, side).prevprev[j])
  {}

  lemma PrefixMoves(c: Config, s: State, run: seq<Input>, g: Goal, side: ArmId, j: nat, dt: real, k: nat)
    requires SoundLimits(c.safety) && Accepted(c) && Bookkept(s) && !s.latched && j < DOF && k <= |run|
    requires SteadyRun(c, s, run, g) && Regular(c, s, run, dt) && GoalOf(g, side).Drift?
    ensures
      var t := ArmOf(Run(c, s, run[..k]), side);
      FilterAll(LimitsAt(c.safety, j), Moving(GoalOf(g, side).v[j]), Repeated(dt, k), PairOf(ArmOf(s, side), j))
      == Pair(t.prev[j], t.prevprev[j])
  {
    assert |run[..k]| == k && AimOf(GoalOf(g, side), j) == Moving(GoalOf(g, side).v[j]);
    hide SteadyRun;
    hide Regular;
    hide Run;
    hide FilterAll;
    hide SoundLimits;
    hide Accepted;
    hide Bookkept;
    hide LimitsAt;
    SteadyUpTo(c, s, run, g, dt, k);
    RegularDts(c, s, run[..k], dt);
    SteadyRunIterates(c, s, run[..k], g, side, j);
  }

  // ---- Which commands keep a run steady ----------------------------------------------------------

  ghost predicate UndisturbedRun(c: Config, s: State, run: seq<Input>) {
    forall k :: 0 <= k < |run| ==> Undisturbed(c, Run(c, s, run[..k]), run[k])
  }

  predicate AllSteer(run: seq<Input>, g: Goal) {
    forall k :: 0 <= k < |run| ==> Steers(run[k].command, g)
  }

  /** The loop may pursue the goal: an arm with a target or a velocity needs motion to be allowed. */
  predicate Permitted(s: State, g: Goal) {
    g == STAY || MotionAllowed(s)
  }

  lemma SteersIsObeyed(c: Config, s: State, i: Input, g: Goal)
    requires Steers(i.command, g) && Permitted(s, g)
    ensures Obeyed(c, Started(s, i), i) == i.command
    ensures RequestOf(i.command) == Move || RequestOf(i.command) == Nothing
  {
    hide HoldAt;
  }

  /** One undisturbed tick of a command for the goal is steady and keeps the goal permitted. */
  lemma SteersKeepsGoing(c: Config, s: State, i: Input, g: Goal)
    requires SoundLimits(c.safety) && Bookkept(s) && !s.latched && Permitted(s, g)
    requires Undisturbed(c, s, i) && Steers(i.command, g)
    ensures SteadyTick(c, s, i, g)
    ensures var t := After(c, s, i); Bookkept(t) && !t.latched && Permitted(t, g)
  {
    hide After;
    hide Obeyed;
    hide RequestOf;
    hide Undisturbed;
    hide MotionAllowed;
    hide Steers;
    SteersIsObeyed(c, s, i, g);
    SteadyStep(c, s, i, g, ArmId.Left, 0);
    TickKeepsBooks(c, s, i);
    TickArms(c, s, i);
    hide Bookkept;
  }

  lemma UndisturbedPrefix(c: Config, s: State, run: seq<Input>)
    requires run != [] && UndisturbedRun(c, s, run)
    ensures UndisturbedRun(c, s, run[..|run| - 1])
    ensures Undisturbed(c, Run(c, s, run[..|run| - 1]), run[|run| - 1])
    ensures Run(c, s, run) == After(c, Run(c, s, run[..|run| - 1]), run[|run| - 1])
  {
    hide Undisturbed;
    hide After;
    var before := run[..|run| - 1];
    assert forall k :: 0 <= k < |before| ==> before[..k] == run[..k] && before[k] == run[k];
  }

  lemma {:induction false} SteeredRunIsSteady(c: Config, s: State, run: seq<Input>, g: Goal)
    requires SoundLimits(c.safety) && Bookkept(s) && !s.latched && Permitted(s, g)
    requires UndisturbedRun(c, s, run) && AllSteer(run, g)
    ensures SteadyRun(c, s, run, g)
    ensures var t := Run(c, s, run); Bookkept(t) && !t.latched && Permitted(t, g)
  {
    if run != [] {
      var before, i := run[..|run| - 1], run[|run| - 1];
      assert AllSteer(before, g) && Steers(i.command, g) by {
        hide Steers;
      }
      hide *;
      UndisturbedPrefix(c, s, run);
      SteeredRunIsSteady(c, s, before, g);
      SteersKeepsGoing(c, Run(c, s, before), i, g);
      SteadySnoc(c, s, run, g);
    }
  }

  lemma SteadySnoc(c: Config, s: State, run: seq<Input>, g: Goal)
    requires run != [] && SteadyRun(c, s, run[..|run| - 1], g)
    requires SteadyTick(c, Run(c, s, run[..|run| - 1]), run[|run| - 1], g)
    ensures SteadyRun(c, s, run, g)
  {
    hide SteadyTick;
    hide Run;
    var before := run[..|run| - 1];
    forall k | 0 <= k < |run| ensures SteadyTick(c, Run(c, s, run[..k]), run[k], g) {
      if k < |before| {
        assert before[..k] == run[..k] && before[k] == run[k];
      }
    }
  }

  /** Commands that keep asking for the same goal, re-sent or not, bring both arms to rest at it from every
      unlatched state, an armed one if an arm is to move. */
  lemma SteadyCommandSettles(c: Config, s: State, g: Goal) returns (n: nat)
    requires SoundLimits(c.safety) && Accepted(c) && c.servo.rateHz <= SEC_NS
    requires Bookkept(s) && !s.latched && Permitted(s, g)
    ensures forall run :: UndisturbedRun(c, s, run) && AllSteer(run, g) && n <= |run| ==>
              AllSettled(c, g, Run(c, s, run))
  {
    n := SteadyRunSettles(c, s, g);
    hide *;
    forall run | UndisturbedRun(c, s, run) && AllSteer(run, g) && n <= |run| ensures AllSettled(c, g, Run(c, s, run)) {
      SteeredRunIsSteady(c, s, run, g);
    }
  }

  // ---- A loop that is not armed ------------------------------------------------------------------

  predicate NoneArms(run: seq<Input>) {
    forall k :: 0 <= k < |run| ==>
      RequestOf(run[k].command) != ArmForMotion && RequestOf(run[k].command) != Emergency
  }

  /** A loop that is not armed obeys a hold, whatever the command. */
  lemma UnarmedHolds(c: Config, s: State, i: Input)
    requires !MotionAllowed(s) && RequestOf(i.command) != ArmForMotion
    ensures Steers(Obeyed(c, Started(s, i), i), STAY)
  {
    hide SafeHold;
  }

  lemma UnarmedKeepsGoing(c: Config, s: State, i: Input)
    requires SoundLimits(c.safety) && Bookkept(s) && !s.latched && !MotionAllowed(s) && Undisturbed(c, s, i)
    requires RequestOf(i.command) != ArmForMotion && RequestOf(i.command) != Emergency
    ensures SteadyTick(c, s, i, STAY)
    ensures var t := After(c, s, i); Bookkept(t) && !t.latched && !MotionAllowed(t)
  {
    hide After;
    hide Obeyed;
    hide RequestOf;
    hide Undisturbed;
    hide MotionAllowed;
    hide Steers;
    UnarmedHolds(c, s, i);
    SteadyStep(c, s, i, STAY, ArmId.Left, 0);
    TickKeepsBooks(c, s, i);
    TickArms(c, s, i);
    hide Bookkept;
  }

  lemma {:induction false} UnarmedRunIsSteady(c: Config, s: State, run: seq<Input>)
    requires SoundLimits(c.safety) && Bookkept(s) && !s.latched && !MotionAllowed(s)
    requires UndisturbedRun(c, s, run) && NoneArms(run)
    ensures SteadyRun(c, s, run, STAY)
    ensures var t := Run(c, s, run); Bookkept(t) && !t.latched && !MotionAllowed(t)
  {
    if run != [] {
      var before, i := run[..|run| - 1], run[|run| - 1];
      assert NoneArms(before) && RequestOf(i.command) != ArmForMotion && RequestOf(i.command) != Emergency by {
        hide RequestOf;
      }
      hide *;
      UndisturbedPrefix(c, s, run);
      UnarmedRunIsSteady(c, s, before);
      UnarmedKeepsGoing(c, Run(c, s, before), i);
      SteadySnoc(c, s, run, STAY);
    }
  }

  /** Once a loop is disarmed both arms come to rest within their limits, whatever motion is still asked for. */
  lemma UnarmedSettles(c: Config, s: State) returns (n: nat)
    requires SoundLimits(c.safety) && Accepted(c) && c.servo.rateHz <= SEC_NS
    requires Bookkept(s) && !s.latched && !MotionAllowed(s)
    ensures forall run :: UndisturbedRun(c, s, run) && NoneArms(run) && n <= |run| ==>
              AllSettled(c, STAY, Run(c, s, run))
  {
    n := SteadyRunSettles(c, s, STAY);
    hide *;
    forall run | UndisturbedRun(c, s, run) && NoneArms(run) && n <= |run| ensures AllSettled(c, STAY, Run(c, s, run)) {
      UnarmedRunIsSteady(c, s, run);
    }
  }
}
