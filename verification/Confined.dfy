/** When the joint limits themselves bound every target: the configurations that brake in time. */
module Confined {
  import opened Types
  import opened JointStep
  import opened Tick
  import opened Runs
  import opened Sends
  import opened Envelope
  import Safety

  /** The distance between the limits of a joint. */
  function Range(c: Config, j: nat): real
    requires j < DOF
  {
    c.safety.qMax[j] - c.safety.qMin[j]
  }

  /** The longest period a 64-bit clock can show. */
  const LONGEST_NS: nat := UINT64 - 1

  /** The longest dt of any tick. */
  function LongestDt(c: Config): real {
    Clamp(Seconds(LONGEST_NS), Period(c) * c.servo.dtMinRatio, Period(c) * c.servo.dtMaxRatio)
  }

  /** The longest step of a joint in one tick. */
  function Fastest(c: Config, j: nat): real
    requires j < DOF
  {
    c.safety.dqMax[j] * LongestDt(c)
  }

  /** An arm inside its limits can be far enough from its last pose for the policy to snap. */
  predicate Snappable(c: Config) {
    c.safety.trackingPolicy == SnapToActual && exists j :: 0 <= j < DOF && c.safety.maxTrackingError < Range(c, j)
  }

  /** The shortest tick can take off the longest step the joint can be left with: any step between its limits,
      and, if the config never snaps, the longest filtered one. At a rate beyond 1 GHz nothing moves. */
  predicate BrakesInTime(c: Config, j: nat)
    requires j < DOF
  {
    || Range(c, j) <= MinBrake(c, j)
    || (Fastest(c, j) <= MinBrake(c, j) && !Snappable(c))
    || SEC_NS < c.servo.rateHz
  }

  predicate AllBrakeInTime(c: Config) {
    forall j :: 0 <= j < DOF ==> BrakesInTime(c, j)
  }

  /** From every start, in every run, every target of both arms is within the joint limits. */
  ghost predicate AlwaysWithinLimits(c: Config) {
    forall s, run, i, side: ArmId :: Initial(c, s) ==> InLimits(c.safety, TargetOf(c, Run(c, s, run), i, side))
  }

  // ---- Braking in time is enough -----------------------------------------------------------------

  lemma DtAtMostLongest(c: Config, s: State, i: Input)
    requires Accepted(c)
    ensures Dt(c, s, i) <= LongestDt(c) && 0.0 <= LongestDt(c)
  {
    hide *;
    PeriodIsPositive(c);
    RatioOrder(Period(c), c.servo.dtMinRatio, c.servo.dtMaxRatio);
    DtIsClamped(c, s, i);
    ElapsedFits(c, s, i);
    SecondsMonotone(ElapsedNs(c, s, i), LONGEST_NS);
    ClampMonotone(Seconds(ElapsedNs(c, s, i)), Seconds(LONGEST_NS), Period(c) * c.servo.dtMinRatio,
                  Period(c) * c.servo.dtMaxRatio);
    LongestIs(c);
  }

  lemma LongestIs(c: Config)
    ensures LongestDt(c)
         == Clamp(Seconds(LONGEST_NS), Period(c) * c.servo.dtMinRatio, Period(c) * c.servo.dtMaxRatio)
  {}

  lemma ElapsedFits(c: Config, s: State, i: Input)
    ensures ElapsedNs(c, s, i) <= LONGEST_NS
  {
    assert NominalNs(c.servo) <= SEC_NS;
  }

  lemma SecondsMonotone(m: nat, n: nat)
    requires m <= n
    ensures 0.0 <= Seconds(m) <= Seconds(n)
  {}

  lemma ClampMonotone(x: real, y: real, lo: real, hi: real)
    requires x <= y && 0.0 <= lo <= hi
    ensures 0.0 <= Clamp(x, lo, hi) <= Clamp(y, lo, hi)
  {}

  /** One joint: two poses within the limits whose difference the brake covers lead to a third. */
  lemma JointStaysWithin(l: Limits, desired: real, p: real, pp: real, dt: real, a: real)
    requires Sound(l) && (0.0 < dt ==> a <= l.ddq * dt * dt)
    requires l.lo <= p <= l.hi && l.lo <= pp <= l.hi && Abs(p - pp) <= a
    ensures l.lo <= FilterJoint(l, desired, p, pp, dt) <= l.hi
  {
    if 0.0 < dt {
      hide FilterJoint;
      StepForm(l, desired, p, pp, dt, l.dq * dt, l.ddq * dt * dt);
      StaysWithinLimitsIff(l, desired, p, pp, dt);
    }
  }

  /** The invariant of one arm. */
  predicate Within(c: Config, a: Arm, latched: bool) {
    && InLimits(c.safety, a.prev) && InLimits(c.safety, a.prevprev) && InLimits(c.safety, a.faultHold)
    && (!latched && !Snappable(c) ==> StepsWithin(c, a.prev, a.prevprev))
  }

  predicate StepsWithin(c: Config, p: JointArray, pp: JointArray) {
    forall j :: 0 <= j < DOF ==> Abs(p[j] - pp[j]) <= Fastest(c, j)
  }

  lemma FastestIsPositive(c: Config, j: nat)
    requires SoundLimits(c.safety) && Accepted(c) && j < DOF
    ensures 0.0 <= Fastest(c, j)
  {
    hide *;
    LongestIsPositive(c);
    FastestIs(c, j);
    ScaleIsPositive(c.safety.dqMax[j], LongestDt(c));
  }

  lemma LongestIsPositive(c: Config)
    requires Accepted(c)
    ensures 0.0 <= LongestDt(c)
  {
    hide *;
    PeriodIsPositive(c);
    RatioOrder(Period(c), c.servo.dtMinRatio, c.servo.dtMaxRatio);
    SecondsMonotone(LONGEST_NS, LONGEST_NS);
    ClampMonotone(Seconds(LONGEST_NS), Seconds(LONGEST_NS), Period(c) * c.servo.dtMinRatio,
                  Period(c) * c.servo.dtMaxRatio);
    LongestIs(c);
  }

  lemma FastestIs(c: Config, j: nat)
    requires SoundLimits(c.safety) && j < DOF
    ensures Fastest(c, j) == c.safety.dqMax[j] * LongestDt(c) && 0.0 < c.safety.dqMax[j]
    ensures LimitsAt(c.safety, j).dq == c.safety.dqMax[j]
  {}

  lemma ScaleIsPositive(x: real, y: real)
    requires 0.0 <= x && 0.0 <= y
    ensures 0.0 <= x * y
  {}

  lemma RestsWithin(c: Config, p: JointArray)
    requires SoundLimits(c.safety) && Accepted(c)
    ensures StepsWithin(c, p, p)
  {
    forall j | 0 <= j < DOF ensures Abs(p[j] - p[j]) <= Fastest(c, j) {
      FastestIsPositive(c, j);
    }
  }

  lemma SafeHoldWithin(c: Config, r: RobotState, prev: JointArray)
    requires InLimits(c.safety, prev)
    ensures InLimits(c.safety, SafeHold(c.safety, r, prev))
  {}

  lemma ReadyWithin(c: Config, s: State, i: Input, side: ArmId)
    requires SoundLimits(c.safety) && Accepted(c) && Within(c, ArmOf(s, side), s.latched)
    ensures Within(c, ArmOf(Ready(c, s, i), side), Ready(c, s, i).latched)
  {
    hide InLimits;
    hide StepsWithin;
    hide SafeHold;
    hide RequestOf;
    hide Snappable;
    SafeHoldWithin(c, Reading(i, side), ArmOf(s, side).prev);
    RestsWithin(c, SafeHold(c.safety, Reading(i, side), ArmOf(s, side).prev));
  }

  lemma JointOutputWithin(c: Config, j: nat, desired: real, p: real, pp: real, dt: real)
    requires SoundLimits(c.safety) && Accepted(c) && j < DOF && BrakesInTime(c, j)
    requires Period(c) * c.servo.dtMinRatio <= dt <= LongestDt(c)
    requires c.safety.qMin[j] <= p <= c.safety.qMax[j] && c.safety.qMin[j] <= pp <= c.safety.qMax[j]
    requires !Snappable(c) ==> Abs(p - pp) <= Fastest(c, j)
    ensures
      var out := FilterJoint(LimitsAt(c.safety, j), desired, p, pp, dt);
      c.safety.qMin[j] <= out <= c.safety.qMax[j] && (!Snappable(c) ==> Abs(out - p) <= Fastest(c, j))
  {
    hide *;
    MaxStepIs(c, j);
    FastestIs(c, j);
    FastestIsPositive(c, j);
    PeriodIsPositive(c);
    RatioOrder(Period(c), c.servo.dtMinRatio, c.servo.dtMaxRatio);
    var l, t := LimitsAt(c.safety, j), Period(c) * c.servo.dtMinRatio;
    if SEC_NS < c.servo.rateHz {
      NothingMoves(c, l, desired, p, pp, dt);
    } else {
      BrakeCovers(c, j, p, pp);
      StepWithinMax(l.dq, l.ddq, t, dt, LongestDt(c));
      JointStaysWithin(l, desired, p, pp, dt, MinBrake(c, j));
    }
    if !Snappable(c) {
      StepWithinMax(l.dq, l.ddq, t, dt, LongestDt(c));
      FilterStepBound(l, desired, p, pp, dt, Fastest(c, j));
    }
  }

  lemma NothingMoves(c: Config, l: Limits, desired: real, p: real, pp: real, dt: real)
    requires Accepted(c) && SEC_NS < c.servo.rateHz && dt <= LongestDt(c)
    ensures FilterJoint(l, desired, p, pp, dt) == p
  {
    assert NominalNs(c.servo) == 0;
    assert Period(c) == 0.0;
    hide Seconds;
  }

  lemma BrakeCovers(c: Config, j: nat, p: real, pp: real)
    requires j < DOF && BrakesInTime(c, j) && c.servo.rateHz <= SEC_NS
    requires c.safety.qMin[j] <= p <= c.safety.qMax[j] && c.safety.qMin[j] <= pp <= c.safety.qMax[j]
    requires !Snappable(c) ==> Abs(p - pp) <= Fastest(c, j)
    ensures Abs(p - pp) <= MinBrake(c, j)
  {
    hide MinBrake;
    hide Fastest;
    hide Snappable;
  }

  lemma OutputWithin(c: Config, s: State, i: Input, side: ArmId)
    requires SoundLimits(c.safety) && Accepted(c) && AllBrakeInTime(c) && Filters(c, s, i)
    requires Within(c, ArmOf(Ready(c, s, i), side), Ready(c, s, i).latched)
    ensures InLimits(c.safety, FilterOutput(c, s, i, side))
    ensures !Snappable(c) ==> StepsWithin(c, FilterOutput(c, s, i, side), ArmOf(Ready(c, s, i), side).prev)
  {
    hide Ready;
    hide Obeyed;
    hide Desired;
    hide Dt;
    hide BothValid;
    hide Lost;
    hide CommandVerdict;
    DtInRange(c, s, i);
    DtAtMostLongest(c, s, i);
    hide LongestDt;
    hide Period;
    hide BrakesInTime;
    hide Snappable;
    hide Fastest;
    hide FilterJoint;
    var a, dt := ArmOf(Ready(c, s, i), side), Dt(c, s, i);
    var desired := Pose(Desired(c, Ready(c, s, i), Obeyed(c, Started(s, i), i), dt), side);
    forall j | 0 <= j < DOF
      ensures
        var out := FilterJoint(LimitsAt(c.safety, j), desired[j], a.prev[j], a.prevprev[j], dt);
        c.safety.qMin[j] <= out <= c.safety.qMax[j] && (!Snappable(c) ==> Abs(out - a.prev[j]) <= Fastest(c, j))
    {
      JointOutputWithin(c, j, desired[j], a.prev[j], a.prevprev[j], dt);
    }
  }

  /** Two poses within the limits are on track unless the config can snap. */
  lemma SnapsOnlyIfSnappable(c: Config, s: State, i: Input)
    requires InLimits(c.safety, Ready(c, s, i).left.prev) && InLimits(c.safety, Ready(c, s, i).right.prev)
    ensures Snaps(c, s, i) ==> Snappable(c)
  {
    hide Ready;
    hide Obeyed;
    hide CommandVerdict;
    if Snaps(c, s, i) {
      var p, r := Ready(c, s, i), i;
      var left := Safety.OffTrack(c.safety, p.left.prev, r.left);
      var q, x := (if left then p.left.prev else p.right.prev), if left then r.left.qActual else r.right.qActual;
      var j :| 0 <= j < DOF && Abs(q[j] - x[j]) > c.safety.maxTrackingError;
      assert c.safety.maxTrackingError < Range(c, j);
    }
  }

  lemma TargetWithin(c: Config, s: State, i: Input, side: ArmId)
    requires SoundLimits(c.safety) && Accepted(c) && AllBrakeInTime(c) && Bookkept(s)
    requires forall sd: ArmId :: Within(c, ArmOf(Ready(c, s, i), sd), Ready(c, s, i).latched)
    ensures InLimits(c.safety, TargetOf(c, s, i, side))
    ensures !After(c, s, i).latched && !Snappable(c) ==>
      StepsWithin(c, TargetOf(c, s, i, side), ArmOf(Ready(c, s, i), side).prev)
  {
    hide InLimits;
    hide StepsWithin;
    hide TargetOf;
    hide FilterOutput;
    hide After;
    hide Ready;
    hide Filters;
    hide Snaps;
    hide SafeHold;
    hide ValidReading;
    hide Snappable;
    hide AllBrakeInTime;
    var a, r := ArmOf(Ready(c, s, i), side), Reading(i, side);
    TargetCases(c, s, i, side);
    RestsWithin(c, a.prev);
    SafeHoldWithin(c, r, a.prev);
    assert Within(c, ArmOf(Ready(c, s, i), ArmId.Left), Ready(c, s, i).latched);
    assert Within(c, ArmOf(Ready(c, s, i), ArmId.Right), Ready(c, s, i).latched);
    SnapsOnlyIfSnappable(c, s, i);
    if Filters(c, s, i) {
      OutputWithin(c, s, i, side);
    }
    if ValidReading(c.safety, r) {
      ReadingWithin(c, r);
    }
  }

  lemma ReadingWithin(c: Config, r: RobotState)
    requires ValidReading(c.safety, r)
    ensures InLimits(c.safety, r.qActual)
  {}

  lemma HoldWithin(c: Config, s: State, i: Input, side: ArmId)
    requires SoundLimits(c.safety) && Accepted(c) && AllBrakeInTime(c)
    requires Within(c, ArmOf(Ready(c, s, i), side), Ready(c, s, i).latched)
    ensures InLimits(c.safety, ArmOf(After(c, s, i), side).faultHold)
  {
    hide InLimits;
    hide StepsWithin;
    hide After;
    hide FilterOutput;
    hide Filters;
    hide Ready;
    hide ValidReading;
    hide Snappable;
    hide AllBrakeInTime;
    var h := ArmOf(After(c, s, i), side).faultHold;
    HoldGiven(c, s, i, side);
    if Filters(c, s, i) && h == FilterOutput(c, s, i, side) {
      OutputWithin(c, s, i, side);
    } else if ValidReading(c.safety, Reading(i, side)) {
      ReadingWithin(c, Reading(i, side));
    }
  }

  /** Every tick keeps both arms within their limits. */
  lemma TickWithin(c: Config, s: State, i: Input, side: ArmId)
    requires SoundLimits(c.safety) && Accepted(c) && AllBrakeInTime(c) && Bookkept(s)
    requires forall sd: ArmId :: Within(c, ArmOf(s, sd), s.latched)
    ensures InLimits(c.safety, TargetOf(c, s, i, side))
    ensures Within(c, ArmOf(After(c, s, i), side), After(c, s, i).latched)
  {
    hide InLimits;
    hide StepsWithin;
    hide After;
    hide TargetOf;
    hide Ready;
    hide Snappable;
    hide AllBrakeInTime;
    forall sd: ArmId ensures Within(c, ArmOf(Ready(c, s, i), sd), Ready(c, s, i).latched) {
      ReadyWithin(c, s, i, sd);
    }
    TargetWithin(c, s, i, side);
    HoldWithin(c, s, i, side);
    TickSends(c, s, i, side);
    LatchStays(c, s, i);
  }

  lemma {:induction false} RunWithin(c: Config, s: State, run: seq<Input>)
    requires SoundLimits(c.safety) && Accepted(c) && AllBrakeInTime(c) && Initial(c, s)
    ensures forall side: ArmId :: Within(c, ArmOf(Run(c, s, run), side), Run(c, s, run).latched)
  {
    hide AllBrakeInTime;
    hide StepsWithin;
    hide InLimits;
    hide After;
    if run == [] {
      RestsWithin(c, s.left.prev);
      RestsWithin(c, s.right.prev);
    } else {
      hide Within;
      var before := run[..|run| - 1];
      RunWithin(c, s, before);
      BooksAlwaysKept(c, s, before);
      forall side: ArmId ensures Within(c, ArmOf(Run(c, s, run), side), Run(c, s, run).latched) {
        TickWithin(c, Run(c, s, before), run[|run| - 1], side);
      }
    }
  }

  lemma BrakingInTimeConfines(c: Config)
    requires SoundLimits(c.safety) && Accepted(c) && AllBrakeInTime(c)
    ensures AlwaysWithinLimits(c)
  {
    hide AllBrakeInTime;
    hide Within;
    hide InLimits;
    hide Run;
    hide TargetOf;
    hide Initial;
    forall s, run, i, side: ArmId | Initial(c, s) ensures InLimits(c.safety, TargetOf(c, Run(c, s, run), i, side)) {
      RunWithin(c, s, run);
      BooksAlwaysKept(c, s, run);
      TickWithin(c, Run(c, s, run), i, side);
    }
  }
}
