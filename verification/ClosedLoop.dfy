/** The servo loop driving two mock robots: the arms never fall behind far enough for a tracking error. */
module ClosedLoop {
  import opened Types
  import opened JointStep
  import opened Tick
  import opened Runs
  import opened Sends
  import opened Envelope
  import Mock
  import Safety

  datatype Loop = Loop(servo: State, left: Mock.Plant, right: Mock.Plant)

  /** The times of the two reads and of the tick, and the command. */
  datatype Moment = Moment(leftNow: nat, rightNow: nat, start: nat, command: DualCommand)

  function PlantOf(x: Loop, side: ArmId): Mock.Plant {
    if side == ArmId.Left then x.left else x.right
  }

  function NowOf(m: Moment, side: ArmId): nat {
    if side == ArmId.Left then m.leftNow else m.rightNow
  }

  function PlantRead(x: Loop, m: Moment, side: ArmId): Mock.Plant {
    Mock.AfterRead(PlantOf(x, side), NowOf(m, side))
  }

  function InputOf(x: Loop, m: Moment): Input {
    var l, r := PlantRead(x, m, ArmId.Left), PlantRead(x, m, ArmId.Right);
    Input(m.start, true, Mock.Reported(l), Mock.Reported(r), m.command, Mock.Accepts(l), Mock.Accepts(r))
  }

  function PlantAfter(c: Config, x: Loop, m: Moment, side: ArmId): Mock.Plant {
    PlantRead(x, m, side).(target := TargetOf(c, x.servo, InputOf(x, m), side))
  }

  function Step(c: Config, x: Loop, m: Moment): Loop {
    Loop(After(c, x.servo, InputOf(x, m)), PlantAfter(c, x, m, ArmId.Left), PlantAfter(c, x, m, ArmId.Right))
  }

  function Steps(c: Config, x: Loop, run: seq<Moment>): Loop {
    if run == [] then x else Step(c, Steps(c, x, run[..|run| - 1]), run[|run| - 1])
  }

  /** Both robots rest at valid poses, which the servo loop has read when it started, for the first time or
      again. */
  predicate LoopInitial(c: Config, x: Loop) {
    && Mock.Accepts(x.left) && Mock.Accepts(x.right)
    && x.left.target == x.left.actual && x.right.target == x.right.actual
    && Initial(c, x.servo)
    && x.servo.left.prev == x.left.actual && x.servo.right.prev == x.right.actual
  }

  /** The read of one robot closes at least the fraction a0 of the gap. */
  predicate Quick(x: Loop, m: Moment, side: ArmId, a0: real) {
    a0 <= Mock.Alpha(PlantOf(x, side).lastUpdate, NowOf(m, side))
  }

  ghost predicate BothQuick(x: Loop, m: Moment, a0: real) {
    forall side: ArmId :: Quick(x, m, side, a0)
  }

  /** Every read of the run closes at least the fraction a0 of the gap. */
  ghost predicate Responsive(c: Config, x: Loop, run: seq<Moment>, a0: real) {
    forall k :: 0 <= k < |run| ==> BothQuick(Steps(c, x, run[..k]), run[k], a0)
  }

  /** The lag left after a read, when every step is at most s. */
  function Lag(s: real, a0: real): real
    requires 0.0 < a0
  {
    s * (1.0 - a0) / a0
  }

  lemma LagLaw(s: real, a0: real)
    requires 0.0 < a0 <= 1.0 && 0.0 <= s
    ensures 0.0 <= Lag(s, a0) && (1.0 - a0) * (Lag(s, a0) + s) == Lag(s, a0)
  {
    var g := Lag(s, a0);
    assert g * a0 == s * (1.0 - a0);
    assert 0.0 <= s * (1.0 - a0);
  }

  // ---- One joint ---------------------------------------------------------------------------------

  /** a: actual, p: last sent, pp: the one before, h: fault hold; s: the longest step, k: the largest gap. */
  predicate Near(latched: bool, a: real, p: real, pp: real, h: real, s: real, k: real) {
    && Abs(p - a) <= k
    && (latched ==> Abs(h - a) <= k && Abs(h - p) <= k)
    && (!latched ==> Abs(p - pp) <= s)
  }

  /** A read moves the joint toward the last sent pose and leaves at most the lag. */
  lemma ReadLeavesLag(latched: bool, a: real, p: real, pp: real, h: real, alpha: real, a0: real, s: real, g: real)
    requires 0.0 < a0 <= alpha <= 1.0 && 0.0 <= s && 0.0 <= g && (1.0 - a0) * (g + s) == g
    requires Near(latched, a, p, pp, h, s, g + s)
    ensures Abs(p - Mock.Toward(a, p, alpha)) <= g
    ensures Near(latched, Mock.Toward(a, p, alpha), p, pp, h, s, g + s)
  {
    hide Mock.Toward;
    GapShrinks(a, p, alpha, a0, g + s, g);
    if latched {
      MixStays(a, p, h, alpha, g + s);
    }
  }

  lemma GapShrinks(a: real, p: real, alpha: real, a0: real, k: real, g: real)
    requires 0.0 < a0 <= alpha <= 1.0 && Abs(p - a) <= k && (1.0 - a0) * k == g
    ensures Abs(p - Mock.Toward(a, p, alpha)) <= g
  {
    var x, gap := p - Mock.Toward(a, p, alpha), p - a;
    assert x == (1.0 - alpha) * gap;
    ProductBound(1.0 - alpha, gap, 1.0 - a0, k, x, g);
  }

  /** Moving part of the way toward p keeps the distance to h within any bound that held before. */
  lemma MixStays(a: real, p: real, h: real, alpha: real, k: real)
    requires 0.0 <= alpha <= 1.0 && Abs(h - a) <= k && Abs(h - p) <= k
    ensures Abs(h - Mock.Toward(a, p, alpha)) <= k
  {
    var x, y := (1.0 - alpha) * (h - a), alpha * (h - p);
    var kx, ky := (1.0 - alpha) * k, alpha * k;
    assert h - Mock.Toward(a, p, alpha) == x + y && kx + ky == k;
    ProductBound(1.0 - alpha, h - a, 1.0 - alpha, k, x, kx);
    ProductBound(alpha, h - p, alpha, k, y, ky);
  }

  lemma ProductBound(x: real, y: real, u: real, k: real, product: real, bound: real)
    requires 0.0 <= x <= u && -k <= y <= k && product == x * y && bound == u * k
    ensures -bound <= product <= bound
  {
    assert 0.0 <= x * (k - y) && 0.0 <= x * (k + y) && 0.0 <= (u - x) * k;
  }

  // ---- Both arms ---------------------------------------------------------------------------------

  predicate NearAt(c: Config, latched: bool, q: JointArray, a: Arm, a0: real, j: nat)
    requires 0.0 < a0 && j < DOF
  {
    Near(latched, q[j], a.prev[j], a.prevprev[j], a.faultHold[j], MaxStep(c, j), Lag(MaxStep(c, j), a0) + MaxStep(c, j))
  }

  predicate NearPose(c: Config, latched: bool, q: JointArray, a: Arm, a0: real)
    requires 0.0 < a0
  {
    forall j :: 0 <= j < DOF ==>
      NearAt(c, latched, q, a, a0, j)
  }

  /** The invariant of one robot and its arm. */
  predicate Following(c: Config, x: Loop, side: ArmId, a0: real)
    requires 0.0 < a0
  {
    var p, a := PlantOf(x, side), ArmOf(x.servo, side);
    Mock.Accepts(p) && p.target == a.prev && NearPose(c, x.servo.latched, p.actual, a, a0)
  }

  /** What a read establishes: the arm is within the lag of its robot. */
  predicate Caught(c: Config, q: JointArray, a: Arm, a0: real)
    requires 0.0 < a0
  {
    forall j :: 0 <= j < DOF ==> Abs(a.prev[j] - q[j]) <= Lag(MaxStep(c, j), a0)
  }

  lemma JointCatches(c: Config, j: nat, latched: bool, q: real, p: real, pp: real, h: real, alpha: real, a0: real)
    requires j < DOF && SoundLimits(c.safety) && Accepted(c) && 0.0 < a0 <= alpha <= 1.0
    requires Near(latched, q, p, pp, h, MaxStep(c, j), Lag(MaxStep(c, j), a0) + MaxStep(c, j))
    ensures Abs(p - Mock.Toward(q, p, alpha)) <= Lag(MaxStep(c, j), a0)
    ensures Near(latched, Mock.Toward(q, p, alpha), p, pp, h, MaxStep(c, j), Lag(MaxStep(c, j), a0) + MaxStep(c, j))
  {
    hide *;
    OverrunLaw(c, j);
    LagLaw(MaxStep(c, j), a0);
    ReadLeavesLag(latched, q, p, pp, h, alpha, a0, MaxStep(c, j), Lag(MaxStep(c, j), a0));
  }

  lemma ReadCatches(c: Config, x: Loop, m: Moment, side: ArmId, a0: real)
    requires SoundLimits(c.safety) && Accepted(c) && 0.0 < a0 <= 1.0 && Following(c, x, side, a0)
    requires Quick(x, m, side, a0)
    ensures var q, a := PlantRead(x, m, side).actual, ArmOf(x.servo, side);
            NearPose(c, x.servo.latched, q, a, a0) && Caught(c, q, a, a0)
  {
    hide Lag;
    hide MaxStep;
    hide Near;
    var p, q, a := PlantOf(x, side), PlantRead(x, m, side).actual, ArmOf(x.servo, side);
    var alpha := Mock.Alpha(p.lastUpdate, NowOf(m, side));
    assert alpha <= 1.0;
    hide Mock.Alpha;
    hide Mock.Toward;
    forall j | 0 <= j < DOF
      ensures Abs(a.prev[j] - q[j]) <= Lag(MaxStep(c, j), a0)
      ensures NearAt(c, x.servo.latched, q, a, a0, j)
    {
      assert q[j] == Mock.Toward(p.actual[j], a.prev[j], alpha);
      assert NearAt(c, x.servo.latched, p.actual, a, a0, j);
      JointCatches(c, j, x.servo.latched, p.actual[j], a.prev[j], a.prevprev[j], a.faultHold[j], alpha, a0);
    }
  }

  /** The arm is within the lag of the pose q its robot reported, and within one step of itself. */
  predicate Close(c: Config, q: JointArray, a: Arm, a0: real)
    requires 0.0 < a0
  {
    Caught(c, q, a, a0) && forall j :: 0 <= j < DOF ==> Abs(a.prev[j] - a.prevprev[j]) <= MaxStep(c, j)
  }

  lemma ReadyClose(c: Config, s: State, i: Input, side: ArmId, a0: real)
    requires SoundLimits(c.safety) && Accepted(c) && 0.0 < a0 <= 1.0
    requires !s.latched || Clears(s, i)
    requires var q, a := Reading(i, side).qActual, ArmOf(s, side);
             NearPose(c, s.latched, q, a, a0) && Caught(c, q, a, a0)
    ensures Close(c, Reading(i, side).qActual, ArmOf(Ready(c, s, i), side), a0)
  {
    hide Ready;
    hide Lag;
    hide MaxStep;
    hide ValidReading;
    hide Clears;
    ReadyArm(c, s, i, side);
    var q, a, b := Reading(i, side).qActual, ArmOf(s, side), ArmOf(Ready(c, s, i), side);
    forall j | 0 <= j < DOF
      ensures Abs(b.prev[j] - b.prevprev[j]) <= MaxStep(c, j) && Abs(b.prev[j] - q[j]) <= Lag(MaxStep(c, j), a0)
    {
      OverrunLaw(c, j);
      LagLaw(MaxStep(c, j), a0);
      assert NearAt(c, s.latched, q, a, a0, j);
    }
  }

  /** The target of a tick that starts unlatched or clears the latch, when no arm is off track. */
  lemma OnTrackTarget(c: Config, s: State, i: Input, side: ArmId)
    requires Bookkept(s) && (!s.latched || Clears(s, i)) && !Lost(c, Ready(c, s, i), i)
    ensures
      var t, p, u := TargetOf(c, s, i, side), ArmOf(Ready(c, s, i), side).prev, After(c, s, i);
      var safe := SafeHold(c.safety, Reading(i, side), p);
      && (t == p || (Filters(c, s, i) && t == FilterOutput(c, s, i, side)) || (u.latched && t == safe))
      && (u.latched ==> ArmOf(u, side).faultHold == safe)
  {
    hide SafeHold;
    hide RequestOf;
    hide Obeyed;
    hide CommandVerdict;
    hide Lost;
    hide FilterOutput;
    hide TargetOf;
    hide After;
    hide BothValid;
    TargetTable(c, s, i, side);
    TickLatches(c, s, i);
    AdmittedLatches(c, Started(s, i), i);
    LatchStays(c, s, i);
  }

  lemma OutputIsOneStep(c: Config, s: State, i: Input, side: ArmId, a0: real)
    requires SoundLimits(c.safety) && Accepted(c) && 0.0 < a0
    requires Close(c, Reading(i, side).qActual, ArmOf(Ready(c, s, i), side), a0)
    ensures forall j :: 0 <= j < DOF ==>
      Abs(FilterOutput(c, s, i, side)[j] - ArmOf(Ready(c, s, i), side).prev[j]) <= MaxStep(c, j)
  {
    hide Ready;
    hide Desired;
    hide Obeyed;
    hide Lag;
    hide Dt;
    DtInRange(c, s, i);
    var a, dt := ArmOf(Ready(c, s, i), side), Dt(c, s, i);
    var desired := Pose(Desired(c, Ready(c, s, i), Obeyed(c, Started(s, i), i), dt), side);
    forall j | 0 <= j < DOF
      ensures
        Abs(FilterJoint(LimitsAt(c.safety, j), desired[j], a.prev[j], a.prevprev[j], dt) - a.prev[j]) <= MaxStep(c, j)
    {
      OverrunLaw(c, j);
      MaxStepIs(c, j);
      ScaleMonotone(c.safety.dqMax[j], dt, Period(c) * c.servo.dtMaxRatio);
      hide Period;
      hide FilterJoint;
      FilterStepBound(LimitsAt(c.safety, j), desired[j], a.prev[j], a.prevprev[j], dt, MaxStep(c, j));
    }
    hide FilterJoint;
  }

  lemma ScaleMonotone(k: real, x: real, y: real)
    requires 0.0 <= k && x <= y
    ensures k * x <= k * y
  {}

  /** After a tick without a tracking error every arm is again near its robot. */
  lemma TickStaysNear(c: Config, s: State, i: Input, side: ArmId, a0: real)
    requires SoundLimits(c.safety) && Accepted(c) && 0.0 < a0 <= 1.0
    requires Bookkept(s) && WasSent(i, side) && !Lost(c, Ready(c, s, i), i)
    requires var q, a := Reading(i, side).qActual, ArmOf(s, side);
             NearPose(c, s.latched, q, a, a0) && Caught(c, q, a, a0)
    ensures NearPose(c, After(c, s, i).latched, Reading(i, side).qActual, ArmOf(After(c, s, i), side), a0)
  {
    hide Lag;
    hide MaxStep;
    hide ValidReading;
    hide RequestOf;
    hide Ready;
    hide After;
    hide TargetOf;
    hide FilterOutput;
    hide Filters;
    hide Lost;
    hide BothValid;
    var q, a, b := Reading(i, side).qActual, ArmOf(s, side), ArmOf(Ready(c, s, i), side);
    var u := ArmOf(After(c, s, i), side);
    var latched := After(c, s, i).latched;
    TickSends(c, s, i, side);
    if s.latched && !Clears(s, i) {
      LatchedTick(c, s, i);
      LatchedTargets(c, s, i, side);
      ReadyArm(c, s, i, side);
      assert u.faultHold == a.faultHold && (u.prev == a.faultHold || u.prev == a.prev);
      forall j | 0 <= j < DOF
        ensures NearAt(c, latched, q, u, a0, j)
      {
        OverrunLaw(c, j);
        LagLaw(MaxStep(c, j), a0);
        assert NearAt(c, s.latched, q, a, a0, j);
      }
    } else {
      ReadyClose(c, s, i, side, a0);
      OnTrackTarget(c, s, i, side);
      OutputIsOneStep(c, s, i, side, a0);
      forall j | 0 <= j < DOF
        ensures NearAt(c, latched, q, u, a0, j)
      {
        OverrunLaw(c, j);
        LagLaw(MaxStep(c, j), a0);
        assert Abs(b.prev[j] - q[j]) <= Lag(MaxStep(c, j), a0);
      }
    }
  }

  lemma LatchedTargets(c: Config, s: State, i: Input, side: ArmId)
    requires s.latched && RequestOf(i.command) != Reset
    ensures TargetOf(c, s, i, side) == ArmOf(s, side).faultHold || TargetOf(c, s, i, side) == ArmOf(s, side).prev
  {
    hide RequestOf;
    hide BothValid;
    hide ReportOf;
    LatchedTick(c, s, i);
  }

  /** The lag is within the tracking tolerance of every joint. */
  predicate Tolerant(c: Config, a0: real)
    requires 0.0 < a0
  {
    forall j :: 0 <= j < DOF ==> Lag(MaxStep(c, j), a0) <= c.safety.maxTrackingError
  }

  lemma CaughtIsOnTrack(c: Config, s: State, i: Input, side: ArmId, a0: real)
    requires SoundLimits(c.safety) && Accepted(c) && 0.0 < a0 <= 1.0 && Tolerant(c, a0)
    requires Caught(c, Reading(i, side).qActual, ArmOf(s, side), a0)
    ensures !Safety.OffTrack(c.safety, ArmOf(Ready(c, s, i), side).prev, Reading(i, side))
  {
    hide Ready;
    hide Lag;
    hide MaxStep;
    hide ValidReading;
    hide Clears;
    ReadyArm(c, s, i, side);
    var q, b := Reading(i, side).qActual, ArmOf(Ready(c, s, i), side);
    forall j | 0 <= j < DOF ensures Abs(b.prev[j] - q[j]) <= c.safety.maxTrackingError {
      OverrunLaw(c, j);
      LagLaw(MaxStep(c, j), a0);
    }
  }

  lemma StepFollows(c: Config, x: Loop, m: Moment, a0: real)
    requires SoundLimits(c.safety) && Accepted(c) && 0.0 < a0 <= 1.0 && Tolerant(c, a0)
    requires Bookkept(x.servo) && forall side: ArmId :: Following(c, x, side, a0)
    requires BothQuick(x, m, a0)
    ensures !Lost(c, Ready(c, x.servo, InputOf(x, m)), InputOf(x, m))
    ensures forall side: ArmId :: Following(c, Step(c, x, m), side, a0)
  {
    hide NearPose;
    hide Caught;
    hide Ready;
    hide After;
    hide TargetOf;
    hide Mock.Alpha;
    hide Tolerant;
    var i := InputOf(x, m);
    forall side: ArmId ensures !Safety.OffTrack(c.safety, ArmOf(Ready(c, x.servo, i), side).prev, Reading(i, side)) {
      ReadCatches(c, x, m, side, a0);
      CaughtIsOnTrack(c, x.servo, i, side, a0);
    }
    assert !Lost(c, Ready(c, x.servo, i), i) by {
      hide Safety.OffTrack;
      assert !Safety.OffTrack(c.safety, ArmOf(Ready(c, x.servo, i), ArmId.Left).prev, Reading(i, ArmId.Left));
      assert !Safety.OffTrack(c.safety, ArmOf(Ready(c, x.servo, i), ArmId.Right).prev, Reading(i, ArmId.Right));
    }
    hide Lost;
    forall side: ArmId ensures Following(c, Step(c, x, m), side, a0) {
      ReadCatches(c, x, m, side, a0);
      TickStaysNear(c, x.servo, i, side, a0);
      TickSends(c, x.servo, i, side);
    }
  }

  lemma {:induction false} RunFollows(c: Config, x: Loop, run: seq<Moment>, a0: real)
    requires SoundLimits(c.safety) && Accepted(c) && 0.0 < a0 <= 1.0 && Tolerant(c, a0)
    requires LoopInitial(c, x) && Responsive(c, x, run, a0)
    ensures Bookkept(Steps(c, x, run).servo)
    ensures forall side: ArmId :: Following(c, Steps(c, x, run), side, a0)
  {
    if run == [] {
      forall side: ArmId ensures Following(c, x, side, a0) {
        StartFollows(c, x, side, a0);
      }
    } else {
      var before, m := run[..|run| - 1], run[|run| - 1];
      ResponsivePrefix(c, x, run, a0);
      RunFollows(c, x, before, a0);
      hide *;
      var y := Steps(c, x, before);
      StepsLast(c, x, run);
      StepFollows(c, y, m, a0);
      TickKeepsBooks(c, y.servo, InputOf(y, m));
    }
  }

  lemma StartFollows(c: Config, x: Loop, side: ArmId, a0: real)
    requires SoundLimits(c.safety) && Accepted(c) && 0.0 < a0 <= 1.0 && LoopInitial(c, x)
    ensures Following(c, x, side, a0) && Bookkept(x.servo)
  {
    forall j | 0 <= j < DOF ensures 0.0 <= MaxStep(c, j) && 0.0 <= Lag(MaxStep(c, j), a0) {
      OverrunLaw(c, j);
      LagLaw(MaxStep(c, j), a0);
    }
    hide Lag;
    hide MaxStep;
  }

  lemma StepsLast(c: Config, x: Loop, run: seq<Moment>)
    requires run != []
    ensures var y := Steps(c, x, run[..|run| - 1]);
            Steps(c, x, run) == Step(c, y, run[|run| - 1])
            && Steps(c, x, run).servo == After(c, y.servo, InputOf(y, run[|run| - 1]))
  {}

  lemma ResponsivePrefix(c: Config, x: Loop, run: seq<Moment>, a0: real)
    requires run != [] && Responsive(c, x, run, a0)
    ensures Responsive(c, x, run[..|run| - 1], a0)
    ensures BothQuick(Steps(c, x, run[..|run| - 1]), run[|run| - 1], a0)
  {
    hide Steps;
    hide Quick;
    var before := run[..|run| - 1];
    forall k | 0 <= k < |before| ensures BothQuick(Steps(c, x, before[..k]), before[k], a0)
    {
      assert before[..k] == run[..k] && before[k] == run[k];
    }
  }

  /** If every read of the two mock robots closes at least a0 of the gap and the lag that leaves is within
      the tracking tolerance, no run of the servo loop, under any commands, ever has a tracking error:
      after every read each joint is within the lag of its last sent target. */
  lemma NoTrackingError(c: Config, x: Loop, run: seq<Moment>, m: Moment, a0: real)
    requires SoundLimits(c.safety) && Accepted(c) && 0.0 < a0 <= 1.0 && Tolerant(c, a0)
    requires LoopInitial(c, x) && Responsive(c, x, run + [m], a0)
    ensures
      var y := Steps(c, x, run);
      var i := InputOf(y, m);
      && !Lost(c, Ready(c, y.servo, i), i)
      && forall side: ArmId, j :: 0 <= j < DOF ==>
           Abs(ArmOf(y.servo, side).prev[j] - Reading(i, side).qActual[j]) <= Lag(MaxStep(c, j), a0)
  {
    var all, y := run + [m], Steps(c, x, run);
    assert all[..|all| - 1] == run && all[|all| - 1] == m;
    ResponsivePrefix(c, x, all, a0);
    RunFollows(c, x, run, a0);
    StepFollows(c, y, m, a0);
    hide Lag;
    hide Steps;
    hide Lost;
    hide Ready;
    hide Mock.Alpha;
    forall side: ArmId ensures Caught(c, Reading(InputOf(y, m), side).qActual, ArmOf(y.servo, side), a0) {
      ReadCatches(c, y, m, side, a0);
    }
  }
}
