/** One joint going through the safety filter once: position clamp, velocity clamp, acceleration clamp. */
module JointStep {
  import opened Types

  datatype Limits = Limits(lo: real, hi: real, dq: real, ddq: real)

  predicate Sound(l: Limits) {
    l.lo <= l.hi && 0.0 < l.dq && 0.0 < l.ddq
  }

  function LimitsAt(c: SafetyConfig, i: nat): Limits
    requires i < DOF
  {
    Limits(c.qMin[i], c.qMax[i], c.dqMax[i], c.ddqMax[i])
  }

  /** The velocity stage, at a positive dt. */
  function VelocityStage(q: real, p: real, dq: real, dt: real): real {
    p + Clamp(q - p, -(dq * dt), dq * dt)
  }

  /** The acceleration stage as it is computed: in velocity space, then clipped at the velocity-limited target. */
  function AccelerationStage(q: real, p: real, pp: real, ddq: real, dt: real): real
    requires dt != 0.0
  {
    var prevVel := (p - pp) / dt;
    var desiredVel := (q - p) / dt;
    var maxDv := ddq * dt;
    var vel := prevVel + Clamp(desiredVel - prevVel, -maxDv, maxDv);
    var out := p + vel * dt;
    if q >= p then Min(out, q) else Max(out, q)
  }

  function FilterJoint(l: Limits, desired: real, p: real, pp: real, dt: real): real {
    if dt <= 0.0 then p
    else AccelerationStage(VelocityStage(Clamp(desired, l.lo, l.hi), p, l.dq, dt), p, pp, l.ddq, dt)
  }

  /** The displacement left after the position and velocity clamps. */
  function Wanted(l: Limits, desired: real, p: real, dt: real): real {
    Clamp(Clamp(desired, l.lo, l.hi) - p, -(l.dq * dt), l.dq * dt)
  }

  /** The next displacement in closed form: d is the last displacement, w the wanted one, a the
      largest change of displacement in one step. */
  function Advance(d: real, w: real, a: real): real {
    if w >= 0.0 then Min(d + a, w) else Max(d - a, w)
  }

  lemma ClampScales(x: real, b: real, k: real)
    requires 0.0 < k
    ensures Clamp(x, -b, b) * k == Clamp(x * k, -(b * k), b * k)
  {}

  /** Dividing by dt, clamping in velocity space and multiplying back is the closed form. */
  lemma AccelerationClosedForm(q: real, p: real, pp: real, ddq: real, dt: real)
    requires 0.0 <= ddq && 0.0 < dt
    ensures AccelerationStage(q, p, pp, ddq, dt) == p + Advance(p - pp, q - p, ddq * dt * dt)
  {}

  lemma ClosedForm(l: Limits, desired: real, p: real, pp: real, dt: real)
    requires Sound(l) && 0.0 < dt
    ensures FilterJoint(l, desired, p, pp, dt) == p + Advance(p - pp, Wanted(l, desired, p, dt), l.ddq * dt * dt)
  {
    hide AccelerationStage;
    var q := VelocityStage(Clamp(desired, l.lo, l.hi), p, l.dq, dt);
    assert q - p == Wanted(l, desired, p, dt);
    AccelerationClosedForm(q, p, pp, l.ddq, dt);
  }

  /** No step is longer than the wanted one or the last one, and a step differs from the last one by
      at most a unless it lands exactly on the wanted displacement while braking. */
  lemma StepBounds(d: real, w: real, a: real)
    requires 0.0 <= a
    ensures var s := Advance(d, w, a);
            && Abs(s) <= Max(Abs(w), Abs(d))
            && (Abs(s - d) <= a || (s == w && (0.0 <= w < d - a || d + a < w < 0.0)))
            && Abs(s) - Abs(d) <= a
  {}

  /** The filtered value stays inside the joint limits exactly when the clamped target is ahead of
      where braking leads, for every previous value, inside the limits or not. */
  lemma StaysWithinLimitsIff(l: Limits, desired: real, p: real, pp: real, dt: real)
    requires Sound(l) && 0.0 < dt
    ensures l.lo <= FilterJoint(l, desired, p, pp, dt) <= l.hi <==>
            if Clamp(desired, l.lo, l.hi) >= p
            then l.lo <= p + l.dq * dt && l.lo <= p + (p - pp) + l.ddq * dt * dt
            else p - l.dq * dt <= l.hi && p + (p - pp) - l.ddq * dt * dt <= l.hi
  {
    hide FilterJoint;
    ClosedForm(l, desired, p, pp, dt);
    WithinLimitsIff(l.lo, l.hi, Clamp(desired, l.lo, l.hi), p, p - pp, l.dq * dt, l.ddq * dt * dt);
  }

  lemma WithinLimitsIff(lo: real, hi: real, c: real, p: real, d: real, v: real, a: real)
    requires lo <= c <= hi && 0.0 < v && 0.0 <= a
    ensures lo <= p + Advance(d, Clamp(c - p, -v, v), a) <= hi <==>
            if c >= p then lo <= p + v && lo <= p + d + a else p - v <= hi && p + d - a <= hi
  {}

  /** The velocity-limited target: where the first two clamps leave the command. */
  function LimitedTarget(l: Limits, desired: real, p: real, dt: real): real {
    VelocityStage(Clamp(desired, l.lo, l.hi), p, l.dq, dt)
  }

  /** The filtered value never lies beyond the velocity-limited target, and it lies between that target
      and the previous value exactly when the joint was not moving away from the target faster than it
      can brake in one step: only then is the commanded range kept. */
  lemma StaysInCommandedRangeIff(l: Limits, desired: real, p: real, pp: real, dt: real)
    requires Sound(l) && 0.0 < dt
    ensures
      var q, out, a := LimitedTarget(l, desired, p, dt), FilterJoint(l, desired, p, pp, dt), l.ddq * dt * dt;
      && (if q >= p then out <= q else q <= out)
      && (Min(p, q) <= out <= Max(p, q) <==> if q >= p then -a <= p - pp else p - pp <= a)
  {
    hide AccelerationStage;
    AccelerationClosedForm(LimitedTarget(l, desired, p, dt), p, pp, l.ddq, dt);
    StepForm(l, desired, p, pp, dt, l.dq * dt, l.ddq * dt * dt);
  }

  /** The joint is inside its limits, the command asks it to stay there, and it still leaves them. */
  lemma LeavesLimitsWitness()
    ensures var l := Limits(0.0, 10.0, 1.0, 0.5);
            Sound(l) && FilterJoint(l, 0.0, 0.0, 1.0, 1.0) == -0.5
  {}

  // ---- The trajectory filter in front of the safety filter --------------------------------------

  function TrackTarget(l: Limits, raw: real, p: real, dt: real): real {
    p + Clamp(raw - p, -(l.dq * dt), l.dq * dt)
  }

  function TrackVelocity(l: Limits, v: real, p: real, dt: real): real {
    p + Clamp(v, -l.dq, l.dq) * dt
  }

  /** The trajectory filter never changes what the safety filter sends, wherever the joint is. */
  lemma TrajectoryFilterIsRedundant(l: Limits, raw: real, p: real, pp: real, dt: real)
    requires Sound(l)
    ensures FilterJoint(l, TrackTarget(l, raw, p, dt), p, pp, dt) == FilterJoint(l, raw, p, pp, dt)
  {
    if 0.0 < dt {
      assert 0.0 < l.dq * dt;
      ClosedForm(l, raw, p, pp, dt);
      ClosedForm(l, TrackTarget(l, raw, p, dt), p, pp, dt);
      assert Wanted(l, TrackTarget(l, raw, p, dt), p, dt) == Wanted(l, raw, p, dt);
    }
  }

  /** Where a joint moving at v is one dt later. */
  function Ahead(v: real, p: real, dt: real): real {
    p + v * dt
  }

  /** A velocity command is the joint target one dt ahead of the previous one. */
  lemma VelocityIsTarget(l: Limits, v: real, p: real, pp: real, dt: real)
    requires Sound(l)
    ensures FilterJoint(l, TrackVelocity(l, v, p, dt), p, pp, dt) == FilterJoint(l, Ahead(v, p, dt), p, pp, dt)
  {
    if 0.0 < dt {
      ClampScales(v, l.dq, dt);
      assert TrackVelocity(l, v, p, dt) == TrackTarget(l, Ahead(v, p, dt), p, dt);
      TrajectoryFilterIsRedundant(l, Ahead(v, p, dt), p, pp, dt);
    }
  }

  // ---- The braking envelope ---------------------------------------------------------------------

  /** The travel needed to brake from displacement d per step, losing a per step. */
  function BrakingDistance(d: real, a: real): real
    requires a != 0.0
  {
    d * d / (2.0 * a)
  }

  lemma BrakingDistanceLaw(d: real, a: real)
    requires 0.0 < a
    ensures 0.0 <= BrakingDistance(d, a)
    ensures d * d == 2.0 * (a * BrakingDistance(d, a))
  {
    var room := BrakingDistance(d, a);
    assert room * (2.0 * a) == d * d;
    assert 0.0 <= d * d;
  }

  /** Along a travel of displacement d per step, braking at a per step stops before `room` is used. */
  predicate CanStop(d: real, room: real, a: real) {
    0.0 <= room && (0.0 < d ==> d * d <= 2.0 * (a * room))
  }

  /** The previous pair p, pp keeps steps within v and can be stopped within b of either limit. */
  predicate Contained(l: Limits, p: real, pp: real, v: real, a: real, b: real) {
    && -v <= p - pp <= v
    && CanStop(p - pp, l.hi + b - p, a)
    && CanStop(pp - p, p - (l.lo - b), a)
  }

  /** One side of the envelope; s is the next displacement and d the last, both in the direction of
      the limit, and `room` what is left before the limit plus the overrun. */
  lemma BrakingKeepsRoom(d: real, s: real, room: real, a0: real, a: real)
    requires 0.0 <= a0 <= a
    requires CanStop(d, room, a0)
    requires s <= 0.0 || s <= d - a
    ensures CanStop(s, room - s, a0)
  {
    if 0.0 < s {
      MulMonotone(s + a0, d);
      SquareLeavesRoom(s, a0, room);
      RoomIsLeft(s, a0, room - s);
    }
  }

  lemma SquareLeavesRoom(s: real, a: real, room: real)
    requires (s + a) * (s + a) <= 2.0 * (a * room)
    ensures s * s <= 2.0 * (a * (room - s))
  {
    assert (s + a) * (s + a) == s * s + 2.0 * a * s + a * a;
    assert 2.0 * (a * (room - s)) == 2.0 * (a * room) - 2.0 * a * s;
    assert 0.0 <= a * a;
  }

  lemma RoomIsLeft(s: real, a: real, x: real)
    requires 0.0 < s && 0.0 <= a && s * s <= 2.0 * (a * x)
    ensures 0.0 <= x
  {
    if x < 0.0 {
      calc {
        0.0;
      <
        s * s;
      <=
        2.0 * (a * x);
      ==
        2.0 * a * x;
      }
    }
  }

  lemma MulMonotone(x: real, y: real)
    requires 0.0 <= x <= y
    ensures x * x <= y * y
  {
    assert x * x <= x * y <= y * y;
  }

  /** Steps that end before the limit may start at any speed up to v, because b is v*v / (2*a). */
  lemma InsideKeepsRoom(s: real, room: real, v: real, a: real, b: real)
    requires s <= v && 0.0 <= a && 0.0 <= b && v * v <= 2.0 * (a * b) && b <= room
    ensures CanStop(s, room, a)
  {
    if 0.0 < s {
      MulMonotone(s, v);
      assert a * b <= a * room;
    }
  }

  /** The closed form over the largest step and the largest change of step of this tick. */
  lemma StepForm(l: Limits, desired: real, p: real, pp: real, dt: real, v: real, a: real)
    requires Sound(l) && 0.0 < dt && v == l.dq * dt && a == l.ddq * dt * dt
    ensures 0.0 < v && 0.0 < a
    ensures FilterJoint(l, desired, p, pp, dt) == p + Advance(p - pp, Clamp(Clamp(desired, l.lo, l.hi) - p, -v, v), a)
  {
    hide FilterJoint;
    ClosedForm(l, desired, p, pp, dt);
  }

  /** No filtered step is longer than the longest allowed one if the last one was not. */
  lemma FilterStepBound(l: Limits, desired: real, p: real, pp: real, dt: real, v: real)
    requires Sound(l) && 0.0 <= v && l.dq * dt <= v && Abs(p - pp) <= v
    ensures Abs(FilterJoint(l, desired, p, pp, dt) - p) <= v
  {
    if 0.0 < dt {
      hide FilterJoint;
      var v1, a1 := l.dq * dt, l.ddq * dt * dt;
      StepForm(l, desired, p, pp, dt, v1, a1);
      StepBounds(p - pp, Clamp(Clamp(desired, l.lo, l.hi) - p, -v1, v1), a1);
    }
  }

  /** The filter keeps the envelope for any target, any dt up to v/dq and at least sqrt(a/ddq). */
  lemma FilterKeepsEnvelope(l: Limits, desired: real, p: real, pp: real, dt: real, v: real, a: real, b: real)
    requires Sound(l) && 0.0 <= a && 0.0 <= b && v * v <= 2.0 * (a * b)
    requires 0.0 < dt && l.dq * dt <= v && a <= l.ddq * dt * dt
    requires Contained(l, p, pp, v, a, b)
    ensures Contained(l, FilterJoint(l, desired, p, pp, dt), p, v, a, b)
  {
    hide FilterJoint;
    hide Advance;
    hide Clamp;
    var v1, a1 := l.dq * dt, l.ddq * dt * dt;
    StepForm(l, desired, p, pp, dt, v1, a1);
    AdvanceKeepsEnvelope(l, desired, p, pp, FilterJoint(l, desired, p, pp, dt), v1, a1, v, a, b);
  }

  lemma AdvanceKeepsEnvelope(
      l: Limits, desired: real, p: real, pp: real, out: real, v1: real, a1: real, v: real, a: real, b: real)
    requires l.lo <= l.hi && 0.0 <= a <= a1 && 0.0 <= b && v * v <= 2.0 * (a * b) && 0.0 <= v1 <= v
    requires Contained(l, p, pp, v, a, b)
    requires out == p + Advance(p - pp, Clamp(Clamp(desired, l.lo, l.hi) - p, -v1, v1), a1)
    ensures Contained(l, out, p, v, a, b)
  {
    var d, w := p - pp, Clamp(Clamp(desired, l.lo, l.hi) - p, -v1, v1);
    var s := Advance(d, w, a1);
    StepBounds(d, w, a1);
    if w >= 0.0 {
      BrakingKeepsRoom(-d, -s, p - (l.lo - b), a, a1);
      if 0.0 < s {
        InsideKeepsRoom(s, l.hi + b - (p + s), v, a, b);
      }
    } else {
      BrakingKeepsRoom(d, s, l.hi + b - p, a, a1);
      if s < 0.0 {
        InsideKeepsRoom(-s, p + s - (l.lo - b), v, a, b);
      }
    }
  }

  /** A joint at rest anywhere within the overrun of its limits is contained. */
  lemma RestIsContained(l: Limits, p: real, v: real, a: real, b: real)
    requires 0.0 <= v && l.lo - b <= p <= l.hi + b
    ensures Contained(l, p, p, v, a, b)
  {}
}
