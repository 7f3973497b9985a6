/** What snapping to the readings does to the bound on targets: when it destroys it, and when there is one. */
module Snapping {
  import opened Types
  import opened JointStep
  import opened Settling
  import opened Tick
  import opened Runs
  import opened Sends
  import opened Envelope
  import opened Confined
  import opened ServoSettling
  import opened Overshoot
  import Safety

  /** No target of any run is further than some distance from its limits. */
  ghost predicate Bounded(c: Config) {
    exists b: real :: AlwaysWithin(c, b)
  }

  ghost predicate AlwaysWithin(c: Config, b: real) {
    forall s, run, i, side: ArmId :: Initial(c, s) ==> WithinBy(c, TargetOf(c, Run(c, s, run), i, side), b)
  }

  predicate WithinBy(c: Config, q: JointArray, b: real) {
    forall j :: 0 <= j < DOF ==> c.safety.qMin[j] - b <= q[j] <= c.safety.qMax[j] + b
  }

  // ---- A swing: a snap across the range and a tick that coasts on --------------------------------

  function LimitPose(c: Config, high: bool): JointArray {
    if high then c.safety.qMax else c.safety.qMin
  }

  /** Past its upper or lower limit by n times what one swing adds. */
  function Beyond(c: Config, n: nat, high: bool): JointArray {
    seq(DOF, j requires 0 <= j < DOF =>
      if high then c.safety.qMax[j] + Times(n, Thrown(c, j)) else c.safety.qMin[j] - Times(n, Thrown(c, j)))
  }

  /** What both arms are asked for after a snap: the lower limit, for a joint that coasts on. */
  function SwingPose(c: Config, high: bool): JointArray {
    seq(DOF, j requires 0 <= j < DOF =>
      if high && Range(c, j) <= MinBrake(c, j) then c.safety.qMax[j] else c.safety.qMin[j])
  }

  lemma CoastsDown(l: Limits, x: real, dt: real, v: real, a: real, thrown: real)
    requires Sound(l) && 0.0 < dt && v == l.dq * dt && a == l.ddq * dt * dt
    requires thrown == Max(0.0, l.hi - l.lo - a) && 0.0 <= x && (thrown == 0.0 ==> x == 0.0)
    ensures FilterJoint(l, l.lo, l.lo, l.hi + x, dt) == l.lo - (x + thrown)
  {
    hide FilterJoint;
    StepForm(l, l.lo, l.lo, l.hi + x, dt, v, a);
  }

  lemma CoastsUp(l: Limits, x: real, dt: real, v: real, a: real, thrown: real)
    requires Sound(l) && 0.0 < dt && v == l.dq * dt && a == l.ddq * dt * dt
    requires thrown == Max(0.0, l.hi - l.lo - a) && 0.0 <= x && (thrown == 0.0 ==> x == 0.0)
    ensures FilterJoint(l, if l.hi - l.lo <= a then l.hi else l.lo, l.hi, l.lo - x, dt) == l.hi + (x + thrown)
  {
    hide FilterJoint;
    StepForm(l, if l.hi - l.lo <= a then l.hi else l.lo, l.hi, l.lo - x, dt, v, a);
  }

  lemma ThrownTimes(c: Config, j: nat, n: nat)
    requires j < DOF
    ensures
      var x, t := Times(n, Thrown(c, j)), Thrown(c, j);
      0.0 <= t && 0.0 <= x && Times(n + 1, t) == x + t && (t == 0.0 ==> x == 0.0)
  {
    TimesNext(n, Thrown(c, j));
    hide MinBrake;
  }

  lemma JointSwings(c: Config, j: nat, n: nat, high: bool, dt: real)
    requires SoundLimits(c.safety) && Accepted(c) && dt == MinDt(c) && 0.0 < dt && j < DOF
    ensures FilterJoint(LimitsAt(c.safety, j), SwingPose(c, high)[j], LimitPose(c, high)[j], Beyond(c, n, !high)[j], dt)
         == Beyond(c, n + 1, high)[j]
  {
    hide FilterJoint;
    hide Times;
    hide MinBrake;
    hide Period;
    hide SoundLimits;
    hide Accepted;
    hide Sound;
    MaxStepIs(c, j);
    ThrownTimes(c, j, n);
    var l, x := LimitsAt(c.safety, j), Times(n, Thrown(c, j));
    if high {
      CoastsUp(l, x, dt, l.dq * dt, l.ddq * dt * dt, Thrown(c, j));
    } else {
      CoastsDown(l, x, dt, l.dq * dt, l.ddq * dt * dt, Thrown(c, j));
    }
  }

  lemma SwingFilters(c: Config, n: nat, high: bool, dt: real)
    requires SoundLimits(c.safety) && Accepted(c) && dt == MinDt(c) && 0.0 < dt
    ensures FiltersTo(c, SwingPose(c, high), LimitPose(c, high), Beyond(c, n, !high), dt, Beyond(c, n + 1, high))
  {
    forall j | 0 <= j < DOF
      ensures
        FilterJoint(LimitsAt(c.safety, j), SwingPose(c, high)[j], LimitPose(c, high)[j], Beyond(c, n, !high)[j], dt)
        == Beyond(c, n + 1, high)[j]
    {
      JointSwings(c, j, n, high, dt);
    }
    hide FilterJoint;
    hide SwingPose;
    hide LimitPose;
    hide Beyond;
  }

  /** Whatever has been added so far, a reading at the other limit is too far away. */
  lemma FarApart(c: Config, n: nat, high: bool)
    requires SoundLimits(c.safety) && Snappable(c)
    ensures exists j :: 0 <= j < DOF
              && Abs(Beyond(c, n, !high)[j] - LimitPose(c, high)[j]) > c.safety.maxTrackingError
  {
    var j :| 0 <= j < DOF && c.safety.maxTrackingError < Range(c, j);
    ThrownTimes(c, j, n);
    hide Times;
    hide Thrown;
    assert Abs(Beyond(c, n, !high)[j] - LimitPose(c, high)[j]) > c.safety.maxTrackingError;
  }

  lemma LimitPoseInLimits(c: Config, high: bool)
    requires SoundLimits(c.safety)
    ensures InLimits(c.safety, LimitPose(c, high))
  {}

  lemma SnappablePolicy(c: Config)
    requires Snappable(c)
    ensures c.safety.trackingPolicy == SnapToActual
  {}

  /** Both arms are past one limit; readings at the other snap them there, and they coast past it, by more. */
  lemma Swing(c: Config, s: State, n: nat, high: bool, pp: JointArray, last: nat)
      returns (snap: Input, go: Input, start: nat)
    requires SoundLimits(c.safety) && Accepted(c) && Snappable(c) && c.servo.rateHz <= SEC_NS
    requires Going(s, Beyond(c, n, !high), pp, last) && MotionAllowed(s)
    ensures
      var t := After(c, s, snap);
      && Going(After(c, t, go), Beyond(c, n + 1, high), LimitPose(c, high), start) && MotionAllowed(After(c, t, go))
      && forall side: ArmId :: TargetOf(c, t, go, side) == Beyond(c, n + 1, high)
  {
    hide *;
    var p, q := Beyond(c, n, !high), LimitPose(c, high);
    var first := last + 1;
    snap := InputAt(first, q, StayCommand(first));
    GoingLast(s, p, pp, last);
    FarApart(c, n, high);
    SnappablePolicy(c);
    LimitPoseInLimits(c, high);
    SnapTick(c, s, first, p, pp, q);
    var t := After(c, s, snap);
    GoingLast(t, q, p, first);
    DtOrder(c);
    PeriodAbove(c);
    start := first + NsBelow(MinDt(c));
    go := InputAt(start, q, GoCommand(start, SwingPose(c, high)));
    DtAfterWait(c, t, start, q, GoCommand(start, SwingPose(c, high)));
    SwingFilters(c, n, high, Dt(c, t, go));
    MoveTick(c, t, start, SwingPose(c, high), q, p, Beyond(c, n + 1, high));
  }

  function Upper(c: Config): State {
    Startup(c.safety.qMax, c.safety.qMax)
  }

  lemma RestAtUpper(c: Config, dt: real)
    requires SoundLimits(c.safety) && Accepted(c)
    ensures var p := c.safety.qMax; FiltersTo(c, p, p, p, dt, p) && Beyond(c, 0, true) == p
  {
    forall j | 0 <= j < DOF
      ensures FilterJoint(LimitsAt(c.safety, j), c.safety.qMax[j], c.safety.qMax[j], c.safety.qMax[j], dt)
              == c.safety.qMax[j]
      ensures Times(0, Thrown(c, j)) == 0.0
    {
      MaxStepIs(c, j);
      RestFilters(LimitsAt(c.safety, j), c.safety.qMax[j], dt);
      TimesNext(0, Thrown(c, j));
    }
    hide FilterJoint;
    hide Times;
  }

  lemma Armed(c: Config)
    requires SoundLimits(c.safety) && Accepted(c)
    ensures
      var run := [InputAt(1, c.safety.qMax, ArmingCommand(1))];
      && Initial(c, Upper(c))
      && Going(Run(c, Upper(c), run), Beyond(c, 0, true), c.safety.qMax, 1) && MotionAllowed(Run(c, Upper(c), run))
  {
    hide *;
    var p := c.safety.qMax;
    var i := InputAt(1, p, ArmingCommand(1));
    EndsInLimits(c);
    UpperIs(c);
    RestingStart(c, p);
    GoingLast(Startup(p, p), p, p, 0);
    ArmingStays(1);
    RestAtUpper(c, Dt(c, Startup(p, p), i));
    StayTick(c, Startup(p, p), 1, ArmingCommand(1), p, p, p);
    OneTick(c, Startup(p, p), i);
  }

  lemma UpperIs(c: Config)
    ensures Upper(c) == Startup(c.safety.qMax, c.safety.qMax)
  {}

  lemma {:induction false} Swings(c: Config, n: nat) returns (run: seq<Input>, pp: JointArray, last: nat)
    requires SoundLimits(c.safety) && Accepted(c) && Snappable(c) && c.servo.rateHz <= SEC_NS
    ensures
      var t := Run(c, Upper(c), run);
      Going(t, Beyond(c, n, n % 2 == 0), pp, last) && MotionAllowed(t)
  {
    hide *;
    if n == 0 {
      Armed(c);
      run, pp, last := [InputAt(1, c.safety.qMax, ArmingCommand(1))], c.safety.qMax, 1;
    } else {
      var before, pp0, last0 := Swings(c, n - 1);
      var s := Run(c, Upper(c), before);
      var snap, go, start := Swing(c, s, n - 1, n % 2 == 0, pp0, last0);
      RunSnoc(c, Upper(c), before, snap);
      RunSnoc(c, Upper(c), before + [snap], go);
      run, pp, last := before + [snap] + [go], LimitPose(c, n % 2 == 0), start;
    }
  }

  /** If the configuration can snap and a range exceeds its brake, targets are unbounded: readings that jump
      between the limits drive that joint further out each time. */
  lemma SnapsUnbounded(c: Config, j: nat)
    requires SoundLimits(c.safety) && Accepted(c) && Snappable(c) && c.servo.rateHz <= SEC_NS
    requires j < DOF && MinBrake(c, j) < Range(c, j)
    ensures !Bounded(c)
  {
    forall b: real ensures !AlwaysWithin(c, b) {
      hide *;
      ThrownPositive(c, j);
      var n := Steps(b, Thrown(c, j));
      var run, pp, last := Swings(c, n);
      var high := n % 2 != 0;
      var snap, go, start := Swing(c, Run(c, Upper(c), run), n, high, pp, last);
      RunSnoc(c, Upper(c), run, snap);
      Armed(c);
      FarOut(c, j, n, high, b);
      Escapes(c, b, Upper(c), run + [snap], go);
    }
  }

  lemma ThrownPositive(c: Config, j: nat)
    requires j < DOF && MinBrake(c, j) < Range(c, j)
    ensures 0.0 < Thrown(c, j)
  {
    hide MinBrake;
  }

  lemma FarOut(c: Config, j: nat, n: nat, high: bool, b: real)
    requires SoundLimits(c.safety) && j < DOF && 0.0 < Thrown(c, j) && b <= Times(n, Thrown(c, j))
    ensures !WithinBy(c, Beyond(c, n + 1, high), b)
  {
    ThrownTimes(c, j, n);
    hide Times;
    hide Thrown;
    assert high ==> Beyond(c, n + 1, high)[j] > c.safety.qMax[j] + b;
    assert !high ==> Beyond(c, n + 1, high)[j] < c.safety.qMin[j] - b;
  }

  lemma Escapes(c: Config, b: real, s: State, run: seq<Input>, i: Input)
    requires Initial(c, s) && !WithinBy(c, TargetOf(c, Run(c, s, run), i, ArmId.Left), b)
    ensures !AlwaysWithin(c, b)
  {
    hide Run;
    hide TargetOf;
    hide Initial;
    hide WithinBy;
  }

  // ---- When there is a bound ---------------------------------------------------------------------

  /** Even as far outside as the envelope allows, an arm is on track. */
  predicate NeverTooFar(c: Config)
    requires SoundLimits(c.safety) && Accepted(c)
  {
    forall j :: 0 <= j < DOF ==> Range(c, j) + Margin(c, j) <= c.safety.maxTrackingError
  }

  lemma EnvelopeIsOnTrack(c: Config, q: JointArray, r: RobotState)
    requires SoundLimits(c.safety) && Accepted(c) && NeverTooFar(c) && InEnvelope(c, q) && ValidReading(c.safety, r)
    ensures !Safety.OffTrack(c.safety, q, r)
  {
    hide Margin;
    forall j | 0 <= j < DOF ensures Abs(q[j] - r.qActual[j]) <= c.safety.maxTrackingError {
      LimitsAreInside(c, r.qActual);
      assert Range(c, j) + Margin(c, j) <= c.safety.maxTrackingError;
    }
  }

  lemma NoSnapHere(c: Config, s: State, i: Input)
    requires SoundLimits(c.safety) && Accepted(c) && NeverTooFar(c)
    requires forall side: ArmId :: Enveloped(c, ArmOf(s, side), s.latched)
    ensures !Snaps(c, s, i)
  {
    hide NeverTooFar;
    hide InEnvelope;
    hide Stoppable;
    hide Ready;
    hide ValidReading;
    hide Safety.OffTrack;
    hide Obeyed;
    hide CommandVerdict;
    ReadyEnveloped(c, s, i, ArmId.Left);
    ReadyEnveloped(c, s, i, ArmId.Right);
    if BothValid(c, i) {
      EnvelopeIsOnTrack(c, Ready(c, s, i).left.prev, i.left);
      EnvelopeIsOnTrack(c, Ready(c, s, i).right.prev, i.right);
    }
  }

  lemma {:induction false} NeverSnaps(c: Config, s: State, run: seq<Input>)
    requires SoundLimits(c.safety) && Accepted(c) && NeverTooFar(c) && Initial(c, s)
    ensures NoSnaps(c, s, run)
  {
    forall k | 0 <= k < |run| ensures !Snaps(c, Run(c, s, run[..k]), run[k]) {
      NeverSnaps(c, s, run[..k]);
      hide *;
      forall side: ArmId ensures Enveloped(c, ArmOf(Run(c, s, run[..k]), side), Run(c, s, run[..k]).latched) {
        RunEnveloped(c, s, run[..k], side);
      }
      NoSnapHere(c, Run(c, s, run[..k]), run[k]);
    }
  }

  lemma LargestMargin(c: Config) returns (b: real)
    requires SoundLimits(c.safety) && Accepted(c)
    ensures forall j :: 0 <= j < DOF ==> Margin(c, j) <= b
  {
    hide Margin;
    b := 0.0;
    for k := 0 to DOF
      invariant forall j :: 0 <= j < k ==> Margin(c, j) <= b
    {
      b := Max(b, Margin(c, k));
    }
  }

  lemma EnvelopeWithinBy(c: Config, q: JointArray, b: real)
    requires SoundLimits(c.safety) && Accepted(c) && InEnvelope(c, q)
    requires forall j :: 0 <= j < DOF ==> Margin(c, j) <= b
    ensures WithinBy(c, q, b)
  {
    hide Margin;
  }

  /** Targets are bounded if the policy latches instead of snapping, if the tolerance covers the range and the
      envelope around it, or if every joint brakes in time. */
  lemma BoundedWhen(c: Config)
    requires SoundLimits(c.safety) && Accepted(c)
    requires
      || c.safety.trackingPolicy == TrackingErrorPolicy.FaultLatch
      || NeverTooFar(c)
      || AllBrakeInTime(c)
    ensures Bounded(c)
  {
    if AllBrakeInTime(c) {
      hide AllBrakeInTime;
      BrakingInTimeConfines(c);
      hide Run;
      hide TargetOf;
      hide Initial;
      assert AlwaysWithin(c, 0.0);
    } else {
      var b := LargestMargin(c);
      forall s, run, i, side: ArmId | Initial(c, s)
        ensures WithinBy(c, TargetOf(c, Run(c, s, run), i, side), b)
      {
        assert NoSnaps(c, s, run) by {
          if NeverTooFar(c) {
            NeverSnaps(c, s, run);
          }
        }
        hide *;
        RunEnveloped(c, s, run, side);
        BooksAlwaysKept(c, s, run);
        TickEnveloped(c, Run(c, s, run), i, side);
        EnvelopeWithinBy(c, TargetOf(c, Run(c, s, run), i, side), b);
      }
      hide Run;
      hide TargetOf;
      hide Initial;
      hide WithinBy;
      assert AlwaysWithin(c, b);
    }
  }
}
