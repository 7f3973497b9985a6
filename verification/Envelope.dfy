/** How far outside its limits a joint can be driven: never further than its braking distance. */
module Envelope {
  import opened Types
  import opened JointStep
  import opened Tick
  import opened Runs
  import opened Sends
  import Safety

  /** What config validation demands of the numbers used here, and in real mode of the policies. */
  predicate Accepted(c: Config) {
    && 0 < c.servo.rateHz
    && 0.0 < c.safety.maxTrackingError
    && 0.0 < c.servo.dtMinRatio <= c.servo.dtMaxRatio
    && (IsReal(c) ==>
          && c.safety.trackingPolicy == TrackingErrorPolicy.FaultLatch
          && c.safety.stopBothArms && c.safety.latchOnStateError)
  }

  /** The nominal period in seconds. */
  function Period(c: Config): real {
    Seconds(NominalNs(c.servo))
  }

  /** The longest step of a joint in one tick. */
  function MaxStep(c: Config, j: nat): real
    requires j < DOF
  {
    c.safety.dqMax[j] * (Period(c) * c.servo.dtMaxRatio)
  }

  /** The largest change of step over a duration. */
  function BrakeAt(ddq: real, t: real): (a: real)
    ensures 0.0 < ddq && 0.0 < t ==> 0.0 < a
  {
    var z := ddq * t;
    var r := z * t;
    BrakePositive(ddq, t, z, r);
    r
  }

  lemma BrakePositive(x: real, y: real, z: real, r: real)
    requires z == x * y && r == z * y
    ensures 0.0 < x && 0.0 < y ==> 0.0 < r
  {
    if 0.0 < x && 0.0 < y {
      PositiveProduct(x, y, z);
      PositiveProduct(z, y, r);
    }
  }

  /** The smallest bound on the change of step of a joint in one tick. */
  function MinBrake(c: Config, j: nat): real
    requires j < DOF
  {
    BrakeAt(c.safety.ddqMax[j], Period(c) * c.servo.dtMinRatio)
  }

  /** How far past a limit a joint may coast; the period cancels out. */
  function Overrun(c: Config, j: nat): real
    requires j < DOF && SoundLimits(c.safety) && Accepted(c)
  {
    BrakingDistance(c.safety.dqMax[j] * c.servo.dtMaxRatio, BrakeAt(c.safety.ddqMax[j], c.servo.dtMinRatio))
  }

  /** How far past a limit a target can be: also no further than one step from a pose that was on track. */
  function Margin(c: Config, j: nat): real
    requires j < DOF && SoundLimits(c.safety) && Accepted(c)
  {
    Min(Overrun(c, j), c.safety.maxTrackingError + MaxStep(c, j))
  }

  lemma PositiveProduct(x: real, y: real, z: real)
    requires 0.0 < x && 0.0 < y && z == x * y
    ensures 0.0 < z
  {}

  predicate InEnvelope(c: Config, q: JointArray)
    requires SoundLimits(c.safety) && Accepted(c)
  {
    forall j :: 0 <= j < DOF ==> c.safety.qMin[j] - Margin(c, j) <= q[j] <= c.safety.qMax[j] + Margin(c, j)
  }

  /** Every joint steps by at most its longest step and can be stopped within its overrun. */
  predicate Stoppable(c: Config, p: JointArray, pp: JointArray)
    requires SoundLimits(c.safety) && Accepted(c)
  {
    forall j :: 0 <= j < DOF ==>
      Contained(LimitsAt(c.safety, j), p[j], pp[j], MaxStep(c, j), MinBrake(c, j), Overrun(c, j))
  }

  // ---- The arithmetic of the period --------------------------------------------------------------

  lemma ScaledSquares(v: real, a: real, b: real, t: real)
    requires v * v == 2.0 * (a * b)
    ensures (v * t) * (v * t) == 2.0 * ((a * (t * t)) * b)
  {
    calc {
      (v * t) * (v * t);
      (v * v) * (t * t);
      2.0 * (a * b) * (t * t);
      2.0 * ((a * (t * t)) * b);
    }
  }

  /** The overrun is the braking distance at the longest step and the smallest brake. */
  lemma OverrunLaw(c: Config, j: nat)
    requires j < DOF && SoundLimits(c.safety) && Accepted(c)
    ensures 0.0 <= MaxStep(c, j) && 0.0 <= MinBrake(c, j) && 0.0 <= Overrun(c, j)
    ensures MaxStep(c, j) * MaxStep(c, j) <= 2.0 * (MinBrake(c, j) * Overrun(c, j))
  {
    var dq, ddq, t, lo, hi := c.safety.dqMax[j], c.safety.ddqMax[j], Period(c), c.servo.dtMinRatio, c.servo.dtMaxRatio;
    BrakingDistanceLaw(dq * hi, BrakeAt(ddq, lo));
    ScaledSquares(dq * hi, ddq * lo * lo, Overrun(c, j), t);
    Rearranged(dq, t, hi);
    RearrangedBrake(ddq, t, lo);
    assert 0.0 <= t;
    PeriodSigns(dq, ddq, t, lo, hi);
  }

  lemma Rearranged(dq: real, t: real, hi: real)
    ensures dq * (t * hi) == dq * hi * t
  {}

  lemma RearrangedBrake(ddq: real, t: real, lo: real)
    ensures ddq * (t * lo) * (t * lo) == ddq * lo * lo * (t * t)
  {}

  lemma PeriodSigns(dq: real, ddq: real, t: real, lo: real, hi: real)
    requires 0.0 < dq && 0.0 < ddq && 0.0 <= t && 0.0 < lo && 0.0 < hi
    ensures 0.0 <= dq * (t * hi) && 0.0 <= ddq * (t * lo) * (t * lo)
  {
    assert 0.0 <= t * hi && 0.0 <= t * lo;
    assert 0.0 <= ddq * (t * lo);
  }

  /** The filter dt stays within the two ratios of the period, whatever the clock does. */
  lemma DtInRange(c: Config, s: State, i: Input)
    requires Accepted(c)
    ensures 0.0 <= Period(c) * c.servo.dtMinRatio <= Dt(c, s, i) <= Period(c) * c.servo.dtMaxRatio
  {
    hide *;
    PeriodIsPositive(c);
    RatioOrder(Period(c), c.servo.dtMinRatio, c.servo.dtMaxRatio);
    DtIsClamped(c, s, i);
    ClampBetween(Seconds(ElapsedNs(c, s, i)), Period(c) * c.servo.dtMinRatio, Period(c) * c.servo.dtMaxRatio);
  }

  lemma ClampBetween(x: real, lo: real, hi: real)
    requires lo <= hi
    ensures lo <= Clamp(x, lo, hi) <= hi
  {}

  lemma PeriodIsPositive(c: Config)
    ensures 0.0 <= Period(c)
    ensures Accepted(c) ==> 0.0 < c.servo.dtMinRatio <= c.servo.dtMaxRatio
  {}

  lemma DtIsClamped(c: Config, s: State, i: Input)
    requires Accepted(c)
    ensures Dt(c, s, i)
         == Clamp(Seconds(ElapsedNs(c, s, i)), Period(c) * c.servo.dtMinRatio, Period(c) * c.servo.dtMaxRatio)
  {
    hide Seconds;
    hide NominalNs;
    var lo, hi := c.servo.dtMinRatio, c.servo.dtMaxRatio;
    assert Max(0.0, lo) == lo && Max(lo, hi) == hi;
  }

  function ElapsedNs(c: Config, s: State, i: Input): nat {
    if s.lastStart == 0 then NominalNs(c.servo) else (i.start - s.lastStart) % UINT64
  }

  lemma RatioOrder(t: real, lo: real, hi: real)
    requires 0.0 <= t && 0.0 < lo <= hi
    ensures 0.0 <= t * lo <= t * hi
  {}

  /** The shortest and the longest dt, in seconds. */
  function MinDt(c: Config): real
    requires Accepted(c)
  {
    Period(c) * c.servo.dtMinRatio
  }

  function MaxDt(c: Config): real
    requires Accepted(c)
  {
    Period(c) * c.servo.dtMaxRatio
  }

  lemma DtOrder(c: Config)
    requires Accepted(c)
    ensures 0.0 <= MinDt(c) <= MaxDt(c)
  {
    PeriodIsPositive(c);
    RatioOrder(Period(c), c.servo.dtMinRatio, c.servo.dtMaxRatio);
  }

  lemma DtAtLeast(c: Config, s: State, i: Input)
    requires Accepted(c)
    ensures MinDt(c) <= Dt(c, s, i) && 0.0 <= MinDt(c) <= MaxDt(c)
  {
    DtInRange(c, s, i);
    DtOrder(c);
    hide Dt;
  }

  lemma PeriodAbove(c: Config)
    requires Accepted(c) && c.servo.rateHz <= SEC_NS
    ensures 0.0 < MinDt(c)
  {
    assert 0 < NominalNs(c.servo);
    assert 0.0 < Period(c);
    PositiveProduct(Period(c), c.servo.dtMinRatio, MinDt(c));
  }

  lemma StepWithinMax(dq: real, ddq: real, lo: real, dt: real, hi: real)
    requires 0.0 < dq && 0.0 < ddq && 0.0 <= lo <= dt <= hi
    ensures dq * dt <= dq * hi && ddq * lo * lo <= ddq * dt * dt
  {
    assert lo * lo <= dt * dt;
    assert ddq * lo * lo == ddq * (lo * lo) && ddq * dt * dt == ddq * (dt * dt);
  }

  // ---- One filtered pose -------------------------------------------------------------------------

  lemma FilterKeepsStoppable(c: Config, desired: JointArray, p: JointArray, pp: JointArray, dt: real)
    requires SoundLimits(c.safety) && Accepted(c) && Stoppable(c, p, pp)
    requires Period(c) * c.servo.dtMinRatio <= dt <= Period(c) * c.servo.dtMaxRatio
    ensures Stoppable(c, Safety.FilteredPose(c.safety, desired, p, pp, dt), p)
  {
    forall j | 0 <= j < DOF
      ensures Contained(LimitsAt(c.safety, j), FilterJoint(LimitsAt(c.safety, j), desired[j], p[j], pp[j], dt), p[j],
                        MaxStep(c, j), MinBrake(c, j), Overrun(c, j))
    {
      JointKeepsStoppable(c, j, desired[j], p[j], pp[j], dt);
    }
    hide Contained;
    hide FilterJoint;
  }

  lemma JointKeepsStoppable(c: Config, j: nat, desired: real, p: real, pp: real, dt: real)
    requires j < DOF && SoundLimits(c.safety) && Accepted(c)
    requires Period(c) * c.servo.dtMinRatio <= dt <= Period(c) * c.servo.dtMaxRatio
    requires Contained(LimitsAt(c.safety, j), p, pp, MaxStep(c, j), MinBrake(c, j), Overrun(c, j))
    ensures Contained(LimitsAt(c.safety, j), FilterJoint(LimitsAt(c.safety, j), desired, p, pp, dt), p,
                      MaxStep(c, j), MinBrake(c, j), Overrun(c, j))
  {
    hide *;
    var l, t := LimitsAt(c.safety, j), Period(c);
    PeriodIsPositive(c);
    RatioOrder(t, c.servo.dtMinRatio, c.servo.dtMaxRatio);
    OverrunLaw(c, j);
    MaxStepIs(c, j);
    RangeKeepsEnvelope(l, desired, p, pp, dt, t * c.servo.dtMinRatio, t * c.servo.dtMaxRatio,
                       MaxStep(c, j), MinBrake(c, j), Overrun(c, j));
  }

  lemma RangeKeepsEnvelope(l: Limits, desired: real, p: real, pp: real, dt: real, tLo: real, tHi: real,
                           v: real, a: real, b: real)
    requires Sound(l) && 0.0 <= tLo <= dt <= tHi
    requires v == l.dq * tHi && a == l.ddq * tLo * tLo
    requires 0.0 <= v && 0.0 <= a && 0.0 <= b && v * v <= 2.0 * (a * b)
    requires Contained(l, p, pp, v, a, b)
    ensures Contained(l, FilterJoint(l, desired, p, pp, dt), p, v, a, b)
  {
    hide FilterJoint;
    hide CanStop;
    if dt <= 0.0 {
      FilterAtRest(l, desired, p, pp, dt, v, a, b);
    } else {
      StepWithinMax(l.dq, l.ddq, tLo, dt, tHi);
      FilterKeepsEnvelope(l, desired, p, pp, dt, v, a, b);
    }
  }

  lemma FilterAtRest(l: Limits, desired: real, p: real, pp: real, dt: real, v: real, a: real, b: real)
    requires dt <= 0.0 && 0.0 <= v && Contained(l, p, pp, v, a, b)
    ensures Contained(l, FilterJoint(l, desired, p, pp, dt), p, v, a, b)
  {}

  lemma MaxStepIs(c: Config, j: nat)
    requires j < DOF && SoundLimits(c.safety)
    ensures Sound(LimitsAt(c.safety, j)) && 0.0 < LimitsAt(c.safety, j).dq && 0.0 < LimitsAt(c.safety, j).ddq
    ensures var l, t := LimitsAt(c.safety, j), Period(c);
      && l.lo == c.safety.qMin[j] && l.hi == c.safety.qMax[j]
      && MaxStep(c, j) == l.dq * (t * c.servo.dtMaxRatio)
      && MinBrake(c, j) == l.ddq * (t * c.servo.dtMinRatio) * (t * c.servo.dtMinRatio)
  {}

  lemma RestIsStoppable(c: Config, p: JointArray)
    requires SoundLimits(c.safety) && Accepted(c) && InEnvelope(c, p)
    ensures Stoppable(c, p, p)
  {
    forall j | 0 <= j < DOF
      ensures Contained(LimitsAt(c.safety, j), p[j], p[j], MaxStep(c, j), MinBrake(c, j), Overrun(c, j))
    {
      OverrunLaw(c, j);
      hide Overrun;
      hide MaxStep;
      RestIsContained(LimitsAt(c.safety, j), p[j], MaxStep(c, j), MinBrake(c, j), Overrun(c, j));
    }
  }

  /** A stoppable step from a pose on track ends in the envelope. */
  lemma StepIsInside(c: Config, r: RobotState, p: JointArray, q: JointArray)
    requires SoundLimits(c.safety) && Accepted(c) && Stoppable(c, q, p)
    requires ValidReading(c.safety, r) && !Safety.OffTrack(c.safety, p, r)
    ensures InEnvelope(c, q)
  {
    hide Overrun;
    hide MaxStep;
    hide MinBrake;
    forall j | 0 <= j < DOF ensures c.safety.qMin[j] - Margin(c, j) <= q[j] <= c.safety.qMax[j] + Margin(c, j) {
      assert Contained(LimitsAt(c.safety, j), q[j], p[j], MaxStep(c, j), MinBrake(c, j), Overrun(c, j));
      assert Abs(p[j] - r.qActual[j]) <= c.safety.maxTrackingError;
    }
  }

  lemma LimitsAreInside(c: Config, q: JointArray)
    requires SoundLimits(c.safety) && Accepted(c) && InLimits(c.safety, q)
    ensures InEnvelope(c, q)
  {
    forall j | 0 <= j < DOF ensures c.safety.qMin[j] - Margin(c, j) <= q[j] <= c.safety.qMax[j] + Margin(c, j) {
      OverrunLaw(c, j);
    }
  }

  // ---- Ticks and runs ----------------------------------------------------------------------------

  /** The invariant of one arm. */
  predicate Enveloped(c: Config, a: Arm, latched: bool)
    requires SoundLimits(c.safety) && Accepted(c)
  {
    && InEnvelope(c, a.prev) && InEnvelope(c, a.faultHold)
    && (!latched ==> Stoppable(c, a.prev, a.prevprev))
  }

  lemma SafeHoldInside(c: Config, r: RobotState, prev: JointArray)
    requires SoundLimits(c.safety) && Accepted(c) && InEnvelope(c, prev)
    ensures InEnvelope(c, SafeHold(c.safety, r, prev))
  {
    hide InEnvelope;
    if ValidReading(c.safety, r) {
      LimitsAreInside(c, r.qActual);
    }
  }

  lemma ReadyEnveloped(c: Config, s: State, i: Input, side: ArmId)
    requires SoundLimits(c.safety) && Accepted(c) && Enveloped(c, ArmOf(s, side), s.latched)
    ensures Enveloped(c, ArmOf(Ready(c, s, i), side), Ready(c, s, i).latched)
  {
    hide InEnvelope;
    hide Stoppable;
    hide SafeHold;
    hide RequestOf;
    var a := ArmOf(s, side);
    var q := SafeHold(c.safety, Reading(i, side), a.prev);
    SafeHoldInside(c, Reading(i, side), a.prev);
    RestIsStoppable(c, q);
  }

  lemma OutputStoppable(c: Config, s: State, i: Input, side: ArmId)
    requires SoundLimits(c.safety) && Accepted(c) && Filters(c, s, i)
    requires Enveloped(c, ArmOf(Ready(c, s, i), side), Ready(c, s, i).latched)
    ensures Stoppable(c, FilterOutput(c, s, i, side), ArmOf(Ready(c, s, i), side).prev)
  {
    hide InEnvelope;
    hide Stoppable;
    hide Ready;
    hide Obeyed;
    hide Desired;
    var a := ArmOf(Ready(c, s, i), side);
    DtInRange(c, s, i);
    hide Dt;
    hide Period;
    FilterKeepsStoppable(c, Pose(Desired(c, Ready(c, s, i), Obeyed(c, Started(s, i), i), Dt(c, s, i)), side),
                         a.prev, a.prevprev, Dt(c, s, i));
  }

  lemma OutputInside(c: Config, s: State, i: Input, side: ArmId)
    requires SoundLimits(c.safety) && Accepted(c) && Filters(c, s, i)
    requires Enveloped(c, ArmOf(Ready(c, s, i), side), Ready(c, s, i).latched)
    ensures InEnvelope(c, FilterOutput(c, s, i, side))
  {
    hide InEnvelope;
    hide Stoppable;
    hide Ready;
    hide Obeyed;
    hide CommandVerdict;
    hide FilterOutput;
    hide ValidReading;
    hide Safety.OffTrack;
    OutputStoppable(c, s, i, side);
    StepIsInside(c, Reading(i, side), ArmOf(Ready(c, s, i), side).prev, FilterOutput(c, s, i, side));
  }

  /** The target of every tick is in the envelope, and on a tick that ends unlatched without a snap it
      continues the previous pose within it. */
  lemma TargetStoppable(c: Config, s: State, i: Input, side: ArmId)
    requires SoundLimits(c.safety) && Accepted(c)
    requires Bookkept(s) && Enveloped(c, ArmOf(Ready(c, s, i), side), Ready(c, s, i).latched)
    ensures !After(c, s, i).latched && !Snaps(c, s, i) ==>
      Stoppable(c, TargetOf(c, s, i, side), ArmOf(Ready(c, s, i), side).prev)
    ensures InEnvelope(c, TargetOf(c, s, i, side))
  {
    hide InEnvelope;
    hide Stoppable;
    hide TargetOf;
    hide FilterOutput;
    hide After;
    hide Ready;
    hide Filters;
    hide Snaps;
    hide SafeHold;
    hide ValidReading;
    var a, r := ArmOf(Ready(c, s, i), side), Reading(i, side);
    TargetCases(c, s, i, side);
    RestIsStoppable(c, a.prev);
    SafeHoldInside(c, r, a.prev);
    if Filters(c, s, i) {
      OutputStoppable(c, s, i, side);
      OutputInside(c, s, i, side);
    }
    if ValidReading(c.safety, r) {
      ReadingInside(c, r);
    }
  }

  lemma ReadingInside(c: Config, r: RobotState)
    requires SoundLimits(c.safety) && Accepted(c) && ValidReading(c.safety, r)
    ensures InEnvelope(c, r.qActual)
  {
    LimitsAreInside(c, r.qActual);
  }

  lemma HoldInside(c: Config, s: State, i: Input, side: ArmId)
    requires SoundLimits(c.safety) && Accepted(c)
    requires Enveloped(c, ArmOf(Ready(c, s, i), side), Ready(c, s, i).latched)
    ensures InEnvelope(c, ArmOf(After(c, s, i), side).faultHold)
  {
    hide InEnvelope;
    hide Stoppable;
    hide After;
    hide FilterOutput;
    hide Filters;
    hide Ready;
    hide ValidReading;
    var h, a := ArmOf(After(c, s, i), side).faultHold, ArmOf(Ready(c, s, i), side);
    HoldGiven(c, s, i, side);
    if Filters(c, s, i) && h == FilterOutput(c, s, i, side) {
      OutputInside(c, s, i, side);
    } else if ValidReading(c.safety, Reading(i, side)) {
      ReadingInside(c, Reading(i, side));
    }
  }

  lemma TickEnveloped(c: Config, s: State, i: Input, side: ArmId)
    requires SoundLimits(c.safety) && Accepted(c)
    requires Bookkept(s) && Enveloped(c, ArmOf(s, side), s.latched)
    ensures InEnvelope(c, TargetOf(c, s, i, side))
    ensures !Snaps(c, s, i) ==> Enveloped(c, ArmOf(After(c, s, i), side), After(c, s, i).latched)
  {
    hide InEnvelope;
    hide Stoppable;
    hide After;
    hide TargetOf;
    hide Ready;
    hide Snaps;
    ReadyEnveloped(c, s, i, side);
    TargetStoppable(c, s, i, side);
    HoldInside(c, s, i, side);
    TickSends(c, s, i, side);
    LatchStays(c, s, i);
  }

  /** No tick of the run snaps to the readings; under the fault-latch policy none ever does. */
  ghost predicate NoSnaps(c: Config, s: State, run: seq<Input>) {
    c.safety.trackingPolicy == TrackingErrorPolicy.FaultLatch
    || forall k :: 0 <= k < |run| ==> !Snaps(c, Run(c, s, run[..k]), run[k])
  }

  lemma NoSnapsPrefix(c: Config, s: State, run: seq<Input>)
    requires run != [] && NoSnaps(c, s, run)
    ensures NoSnaps(c, s, run[..|run| - 1]) && !Snaps(c, Run(c, s, run[..|run| - 1]), run[|run| - 1])
  {
    hide Run;
    hide Ready;
    hide BothValid;
    hide Lost;
    var before := run[..|run| - 1];
    assert forall k :: 0 <= k < |before| ==> before[..k] == run[..k] && before[k] == run[k];
  }

  lemma {:induction false} RunEnveloped(c: Config, s: State, run: seq<Input>, side: ArmId)
    requires SoundLimits(c.safety) && Accepted(c) && NoSnaps(c, s, run)
    requires Initial(c, s)
    ensures Enveloped(c, ArmOf(Run(c, s, run), side), Run(c, s, run).latched)
  {
    hide InEnvelope;
    hide Stoppable;
    if run == [] {
      LimitsAreInside(c, ArmOf(s, side).prev);
      RestIsStoppable(c, ArmOf(s, side).prev);
    } else {
      hide Enveloped;
      hide After;
      hide NoSnaps;
      hide Snaps;
      var before := run[..|run| - 1];
      NoSnapsPrefix(c, s, run);
      RunEnveloped(c, s, before, side);
      BooksAlwaysKept(c, s, before);
      hide Initial;
      TickEnveloped(c, Run(c, s, before), run[|run| - 1], side);
    }
  }

  /** In every run without a snap, and so in every run under the fault-latch policy, each joint of every target
      sent to an arm is within its limits widened by its braking distance, or by the tracking tolerance
      and one step if that is less; and while no fault is latched every step taken is at most
      dq_max * r_max * T, whatever commands, readings, timings and send outcomes occur. */
  lemma EnvelopeHolds(c: Config, s: State, run: seq<Input>, i: Input, side: ArmId, j: nat)
    requires SoundLimits(c.safety) && Accepted(c) && NoSnaps(c, s, run)
    requires Initial(c, s) && j < DOF
    ensures
      var t := Run(c, s, run);
      var q, p, pp := TargetOf(c, t, i, side)[j], ArmOf(t, side).prev[j], ArmOf(t, side).prevprev[j];
      && c.safety.qMin[j] - Overrun(c, j) <= q <= c.safety.qMax[j] + Overrun(c, j)
      && c.safety.qMin[j] - (c.safety.maxTrackingError + MaxStep(c, j)) <= q
      && q <= c.safety.qMax[j] + (c.safety.maxTrackingError + MaxStep(c, j))
      && (!t.latched ==> Abs(p - pp) <= c.safety.dqMax[j] * (Period(c) * c.servo.dtMaxRatio))
  {
    hide *;
    var t := Run(c, s, run);
    RunEnveloped(c, s, run, side);
    BooksAlwaysKept(c, s, run);
    TickEnveloped(c, t, i, side);
    InsideAt(c, TargetOf(c, t, i, side), j);
    StepAt(c, ArmOf(t, side), t.latched, j);
  }

  lemma InsideAt(c: Config, q: JointArray, j: nat)
    requires SoundLimits(c.safety) && Accepted(c) && InEnvelope(c, q) && j < DOF
    ensures c.safety.qMin[j] - Overrun(c, j) <= q[j] <= c.safety.qMax[j] + Overrun(c, j)
    ensures c.safety.qMin[j] - (c.safety.maxTrackingError + MaxStep(c, j)) <= q[j]
    ensures q[j] <= c.safety.qMax[j] + (c.safety.maxTrackingError + MaxStep(c, j))
  {
    hide Overrun;
    hide MaxStep;
  }

  lemma StepAt(c: Config, a: Arm, latched: bool, j: nat)
    requires SoundLimits(c.safety) && Accepted(c) && Enveloped(c, a, latched) && j < DOF
    ensures !latched ==> Abs(a.prev[j] - a.prevprev[j]) <= c.safety.dqMax[j] * (Period(c) * c.servo.dtMaxRatio)
  {
    hide Overrun;
    hide MinBrake;
    hide InEnvelope;
    hide Period;
    if !latched {
      assert Contained(LimitsAt(c.safety, j), a.prev[j], a.prevprev[j], MaxStep(c, j), MinBrake(c, j), Overrun(c, j));
    }
  }

  /** In real mode a config that is accepted never snaps, so every run has the bound. */
  lemma RealModeEnvelope(c: Config, s: State, run: seq<Input>, i: Input, side: ArmId, j: nat)
    requires SoundLimits(c.safety) && Accepted(c) && IsReal(c) && Initial(c, s) && j < DOF
    ensures
      var q := TargetOf(c, Run(c, s, run), i, side)[j];
      c.safety.qMin[j] - Overrun(c, j) <= q <= c.safety.qMax[j] + Overrun(c, j)
  {
    hide *;
    RealModeNeverSnaps(c, s, run);
    EnvelopeHolds(c, s, run, i, side, j);
  }

  lemma RealModeNeverSnaps(c: Config, s: State, run: seq<Input>)
    requires Accepted(c) && IsReal(c)
    ensures NoSnaps(c, s, run)
  {}
}
