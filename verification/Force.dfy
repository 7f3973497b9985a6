/** The admittance controller: low-pass filtered wrench, integrated offset, clamped in step and size. */
module Force {
  import opened Types

  datatype ForceConfig = ForceConfig(
    enable: bool,
    gainPos: real,
    gainRot: real,
    lpfAlpha: real,
    maxPosOffset: real,
    maxRotOffset: real,
    maxPosStep: real,
    maxRotStep: real)

  /** The configured clamps are not negative; a command can only replace them by positive ones. */
  predicate SoundForce(c: ForceConfig) {
    0.0 <= c.maxPosOffset && 0.0 <= c.maxRotOffset && 0.0 <= c.maxPosStep && 0.0 <= c.maxRotStep
  }

  /** Axes 0 to 2 are translations, 3 to 5 rotations. */
  datatype State = State(filtered: JointArray, offset: JointArray, initialized: bool)

  const FRESH: State := State(ZERO6, ZERO6, false)

  function OffsetBound(c: ForceConfig, cmd: ForceCommand, k: nat): real {
    if k < 3 then (if 0.0 < cmd.maxPosOffset then cmd.maxPosOffset else c.maxPosOffset)
    else (if 0.0 < cmd.maxRotOffset then cmd.maxRotOffset else c.maxRotOffset)
  }

  function StepBound(c: ForceConfig, cmd: ForceCommand, k: nat): real {
    if k < 3 then (if 0.0 < cmd.maxPosStep then cmd.maxPosStep else c.maxPosStep)
    else (if 0.0 < cmd.maxRotStep then cmd.maxRotStep else c.maxRotStep)
  }

  function Gain(c: ForceConfig, k: nat): real {
    if k < 3 then c.gainPos else c.gainRot
  }

  predicate AxisEnabled(cmd: ForceCommand, k: nat) {
    k < |cmd.enabledAxis| && cmd.enabledAxis[k]
  }

  predicate Integrates(m: ForceMode) {
    m == Admittance || m == ExternalForceSafety
  }

  predicate Enabled(c: ForceConfig, cmd: ForceCommand, dt: real) {
    c.enable && cmd.mode != Off && 0.0 < dt
  }

  function Blend(a: real, x: real, y: real): real {
    (1.0 - a) * x + a * y
  }

  function LowPassed(c: ForceConfig, s: State, measured: JointArray): JointArray {
    if !s.initialized then measured
    else seq(DOF, k requires 0 <= k < DOF => Blend(Clamp(c.lpfAlpha, 0.0, 1.0), s.filtered[k], measured[k]))
  }

  function Push(gain: real, target: real, wrench: real, dt: real): real {
    gain * (target - wrench) * dt
  }

  /** What one call adds to the offset of an axis before clamping. */
  function Increment(c: ForceConfig, cmd: ForceCommand, wrench: JointArray, k: nat, dt: real): real
    requires k < DOF
  {
    if Integrates(cmd.mode) && AxisEnabled(cmd, k) then Push(Gain(c, k), cmd.targetWrench[k], wrench[k], dt) else 0.0
  }

  function ClampedOffset(offset: real, desired: real, step: real, bound: real): real {
    Clamp(offset + Clamp(desired - offset, -step, step), -bound, bound)
  }

  function Offsets(c: ForceConfig, s: State, cmd: ForceCommand, wrench: JointArray, dt: real): JointArray {
    seq(DOF, k requires 0 <= k < DOF =>
      ClampedOffset(s.offset[k], s.offset[k] + Increment(c, cmd, wrench, k, dt),
                    StepBound(c, cmd, k), OffsetBound(c, cmd, k)))
  }

  function After(c: ForceConfig, s: State, measured: JointArray, cmd: ForceCommand, dt: real): State {
    if !Enabled(c, cmd, dt) then s
    else
      var wrench := LowPassed(c, s, measured);
      State(wrench, Offsets(c, s, cmd, wrench, dt), true)
  }

  class ForceController {
    const config: ForceConfig
    var filteredWrench: JointArray
    var offset: JointArray
    var initialized: bool

    ghost function Contents(): State
      reads this
    {
      State(filteredWrench, offset, initialized)
    }

    constructor (config: ForceConfig)
      ensures this.config == config && Contents() == FRESH
    {
      this.config := config;
      filteredWrench, offset, initialized := ZERO6, ZERO6, false;
    }

    method Reset()
      modifies this
      ensures Contents() == FRESH
    {
      filteredWrench, offset, initialized := ZERO6, ZERO6, false;
    }

    method LowPass(measured: JointArray) returns (wrench: JointArray)
      modifies this
      ensures wrench == LowPassed(config, old(Contents()), measured)
      ensures Contents() == State(wrench, old(offset), true)
    {
      var a := Clamp(config.lpfAlpha, 0.0, 1.0);
      if !initialized {
        filteredWrench := measured;
        initialized := true;
        return filteredWrench;
      }
      var f := filteredWrench;
      filteredWrench := [Blend(a, f[0], measured[0]), Blend(a, f[1], measured[1]), Blend(a, f[2], measured[2]),
                         Blend(a, f[3], measured[3]), Blend(a, f[4], measured[4]), Blend(a, f[5], measured[5])];
      wrench := filteredWrench;
    }

    /** The returned compensation is the new offset, or zero when the controller is off. */
    method ComputeTcpCompensation(measured: JointArray, command: ForceCommand, dt: real) returns (out: JointArray)
      requires SoundForce(config) && |command.enabledAxis| == DOF
      modifies this
      ensures Contents() == After(config, old(Contents()), measured, command, dt)
      ensures out == if Enabled(config, command, dt) then Contents().offset else ZERO6
    {
      if !config.enable || command.mode == Off || dt <= 0.0 {
        return ZERO6;
      }
      var wrench := LowPass(measured);
      var desired := Integrate(command, wrench, dt);
      hide LowPassed;
      hide Increment;
      hide ClampedOffset;
      hide StepBound;
      hide OffsetBound;
      offset := ClampStepAndOffset(desired, command);
      assert offset == Offsets(config, old(Contents()), command, wrench, dt);
      out := offset;
    }

    /** The offset before clamping, accumulated axis by axis. */
    method Integrate(command: ForceCommand, wrench: JointArray, dt: real) returns (desired: JointArray)
      requires |command.enabledAxis| == DOF
      ensures forall k :: 0 <= k < DOF ==> desired[k] == offset[k] + Increment(config, command, wrench, k, dt)
    {
      hide Push;
      desired := offset;
      if Integrates(command.mode) {
        if command.enabledAxis[0] {
          desired := desired[0 := desired[0] + Push(config.gainPos, command.targetWrench[0], wrench[0], dt)];
        }
        if command.enabledAxis[1] {
          desired := desired[1 := desired[1] + Push(config.gainPos, command.targetWrench[1], wrench[1], dt)];
        }
        if command.enabledAxis[2] {
          desired := desired[2 := desired[2] + Push(config.gainPos, command.targetWrench[2], wrench[2], dt)];
        }
        if command.enabledAxis[3] {
          desired := desired[3 := desired[3] + Push(config.gainRot, command.targetWrench[3], wrench[3], dt)];
        }
        if command.enabledAxis[4] {
          desired := desired[4 := desired[4] + Push(config.gainRot, command.targetWrench[4], wrench[4], dt)];
        }
        if command.enabledAxis[5] {
          desired := desired[5 := desired[5] + Push(config.gainRot, command.targetWrench[5], wrench[5], dt)];
        }
      }
    }

    function ClampStepAndOffset(desired: JointArray, command: ForceCommand): JointArray
      reads this
    {
      seq(DOF, k requires 0 <= k < DOF reads this =>
        ClampedOffset(offset[k], desired[k], StepBound(config, command, k), OffsetBound(config, command, k)))
    }
  }

  // ---- Any sequence of calls ---------------------------------------------------------------------

  datatype Call = Compute(measured: JointArray, command: ForceCommand, dt: real) | Restart

  function Next(c: ForceConfig, s: State, call: Call): State {
    match call
    case Compute(measured, command, dt) => After(c, s, measured, command, dt)
    case Restart => FRESH
  }

  function Calls(c: ForceConfig, s: State, calls: seq<Call>): State {
    if calls == [] then s else Next(c, Calls(c, s, calls[..|calls| - 1]), calls[|calls| - 1])
  }

  predicate Effective(c: ForceConfig, call: Call) {
    call.Compute? && Enabled(c, call.command, call.dt)
  }

  /** The offset bound of the last enabled call since the last reset, 0 before the first. */
  function LastBound(c: ForceConfig, calls: seq<Call>, k: nat): real {
    if calls == [] then 0.0
    else
      var last := calls[|calls| - 1];
      if last.Restart? then 0.0
      else if Effective(c, last) then OffsetBound(c, last.command, k)
      else LastBound(c, calls[..|calls| - 1], k)
  }

  lemma BoundsSound(c: ForceConfig, cmd: ForceCommand, k: nat)
    requires SoundForce(c)
    ensures 0.0 <= StepBound(c, cmd, k) && 0.0 <= OffsetBound(c, cmd, k)
  {}

  /** After any calls each offset is within the bound in force at the last enabled one, and the next
      enabled call moves it by at most its step bound unless it tightens the offset bound. */
  lemma {:induction false} OffsetStaysBounded(c: ForceConfig, calls: seq<Call>, next: Call, k: nat)
    requires SoundForce(c) && k < DOF
    ensures
      var s := Calls(c, FRESH, calls);
      && Abs(s.offset[k]) <= LastBound(c, calls, k)
      && (Effective(c, next) && LastBound(c, calls, k) <= OffsetBound(c, next.command, k) ==>
            Abs(Next(c, s, next).offset[k] - s.offset[k]) <= StepBound(c, next.command, k))
  {
    hide Increment;
    hide LowPassed;
    if calls != [] {
      var before, last := calls[..|calls| - 1], calls[|calls| - 1];
      OffsetStaysBounded(c, before, last, k);
      if Effective(c, last) {
        BoundsSound(c, last.command, k);
      }
    }
    if Effective(c, next) {
      BoundsSound(c, next.command, k);
    }
  }

  /** Every measurement taken since the last reset lies in [lo, hi] on axis k. */
  predicate MeasuredWithin(c: ForceConfig, calls: seq<Call>, k: nat, lo: real, hi: real)
    requires k < DOF
  {
    calls != [] && !calls[|calls| - 1].Restart? ==>
      && (Effective(c, calls[|calls| - 1]) ==> lo <= calls[|calls| - 1].measured[k] <= hi)
      && MeasuredWithin(c, calls[..|calls| - 1], k, lo, hi)
  }

  lemma BlendBetween(a: real, x: real, y: real, lo: real, hi: real)
    requires 0.0 <= a <= 1.0 && lo <= x <= hi && lo <= y <= hi
    ensures lo <= Blend(a, x, y) <= hi
  {
    var b := 1.0 - a;
    NonNegativeProduct(b, x - lo, b * (x - lo));
    NonNegativeProduct(a, y - lo, a * (y - lo));
    NonNegativeProduct(b, hi - x, b * (hi - x));
    NonNegativeProduct(a, hi - y, a * (hi - y));
    assert Blend(a, x, y) - lo == b * (x - lo) + a * (y - lo);
    assert hi - Blend(a, x, y) == b * (hi - x) + a * (hi - y);
  }

  lemma NonNegativeProduct(x: real, y: real, z: real)
    requires 0.0 <= x && 0.0 <= y && z == x * y
    ensures 0.0 <= z
  {}

  /** The filtered wrench never leaves the range of the measurements since the last reset. */
  lemma {:induction false} FilteredWithinMeasured(c: ForceConfig, calls: seq<Call>, k: nat, lo: real, hi: real)
    requires k < DOF && MeasuredWithin(c, calls, k, lo, hi)
    ensures var s := Calls(c, FRESH, calls); s.initialized ==> lo <= s.filtered[k] <= hi
  {
    if calls != [] && !calls[|calls| - 1].Restart? {
      var before, last := calls[..|calls| - 1], calls[|calls| - 1];
      FilteredWithinMeasured(c, before, k, lo, hi);
      var s := Calls(c, FRESH, before);
      if Effective(c, last) && s.initialized {
        BlendBetween(Clamp(c.lpfAlpha, 0.0, 1.0), s.filtered[k], last.measured[k], lo, hi);
        hide Blend;
        hide Offsets;
      }
    }
  }

  // ---- A lasting force error ---------------------------------------------------------------------

  /** The controller integrates the force error of axis k. */
  predicate Drives(c: ForceConfig, cmd: ForceCommand, k: nat) {
    c.enable && Integrates(cmd.mode) && AxisEnabled(cmd, k) && 0.0 < Gain(c, k) && 0.0 < StepBound(c, cmd, k)
  }

  /** The value is at most lim when pushing up, at least lim when pushing down. */
  predicate Side(up: bool, x: real, lim: real) {
    if up then x <= lim else lim <= x
  }

  /** A wrench on this side of lim pushes the offset up, or down. */
  predicate Short(up: bool, lim: real, target: real) {
    if up then lim < target else target < lim
  }

  predicate FilterSide(s: State, k: nat, up: bool, lim: real)
    requires k < DOF
  {
    s.initialized ==> Side(up, s.filtered[k], lim)
  }

  function Alpha(c: ForceConfig): real {
    Clamp(c.lpfAlpha, 0.0, 1.0)
  }

  /** The filter ignores every further measurement. */
  predicate Frozen(c: ForceConfig, s: State) {
    Alpha(c) == 0.0 && s.initialized
  }

  /** Every call repeats the command at a dt of at least dtMin with a measurement on the same side of lim,
      which may vary, and is free when the filter ignores it. */
  predicate Pressing(
      c: ForceConfig, s: State, calls: seq<Call>, cmd: ForceCommand, dtMin: real, k: nat, up: bool, lim: real)
    requires k < DOF
  {
    forall n :: 0 <= n < |calls| ==>
      && calls[n].Compute? && calls[n].command == cmd && dtMin <= calls[n].dt
      && (Frozen(c, s) || Side(up, calls[n].measured[k], lim))
  }

  /** The end of its range the offset is pushed to. */
  function End(c: ForceConfig, cmd: ForceCommand, k: nat, up: bool): real {
    if up then OffsetBound(c, cmd, k) else -OffsetBound(c, cmd, k)
  }

  /** From offset `was` the offset `now` is at the end of its range or at least `travel` closer to it. */
  predicate Moved(end: real, up: bool, was: real, now: real, travel: real) {
    now == end || if up then was + travel <= now else now <= was - travel
  }

  /** The least progress of one call against a wrench no closer to the target than near. */
  function Pace(c: ForceConfig, cmd: ForceCommand, near: real, k: nat, dtMin: real): real
    requires k < DOF
  {
    Min(StepBound(c, cmd, k), Abs(Push(Gain(c, k), cmd.targetWrench[k], near, dtMin)))
  }

  lemma PositiveProduct(x: real, y: real, z: real)
    requires 0.0 < x && 0.0 < y && z == x * y
    ensures 0.0 < z
  {}

  /** A longer dt and a larger error push further in the same direction. */
  lemma PushGrows(g: real, target: real, wrench: real, near: real, dtMin: real, dt: real)
    requires 0.0 < g && 0.0 < dtMin <= dt
    ensures wrench <= near < target ==> 0.0 < Push(g, target, near, dtMin) <= Push(g, target, wrench, dt)
    ensures target < near <= wrench ==> Push(g, target, wrench, dt) <= Push(g, target, near, dtMin) < 0.0
  {
    var e, f := target - wrench, target - near;
    if 0.0 < f <= e {
      PushUp(g, e, f, dtMin, dt);
    } else if e <= f < 0.0 {
      PushUp(g, -e, -f, dtMin, dt);
      assert g * e == -(g * -e) && g * f == -(g * -f);
    }
  }

  lemma PushUp(g: real, e: real, f: real, dtMin: real, dt: real)
    requires 0.0 < g && 0.0 < f <= e && 0.0 < dtMin <= dt
    ensures 0.0 < g * f * dtMin <= g * e * dt
  {
    PositiveProduct(g, f, g * f);
    PositiveProduct(g * f, dtMin, g * f * dtMin);
    NonNegativeProduct(g, e - f, g * (e - f));
    Larger(g * f, g * e, dtMin, dt);
  }

  lemma Larger(x: real, y: real, u: real, v: real)
    requires 0.0 <= x <= y && 0.0 <= u <= v
    ensures x * u <= y * v
  {
    NonNegativeProduct(y - x, u, (y - x) * u);
    NonNegativeProduct(y, v - u, y * (v - u));
  }

  lemma PacePositive(c: ForceConfig, cmd: ForceCommand, near: real, k: nat, dtMin: real, up: bool)
    requires k < DOF && 0.0 < dtMin && Drives(c, cmd, k) && Short(up, near, cmd.targetWrench[k])
    ensures 0.0 < Pace(c, cmd, near, k, dtMin)
  {
    PushGrows(Gain(c, k), cmd.targetWrench[k], near, near, dtMin, dtMin);
    hide Push;
  }

  /** One call moves the offset toward its end by at least the pace, or to it, and never back, from any
      offset and whatever the filter has seen before. */
  lemma CallAdvances(
      c: ForceConfig, s: State, measured: JointArray, cmd: ForceCommand, dt: real, dtMin: real, k: nat, up: bool,
      near: real)
    requires SoundForce(c) && k < DOF && 0.0 < dtMin <= dt && Drives(c, cmd, k)
    requires Side(up, LowPassed(c, s, measured)[k], near) && Short(up, near, cmd.targetWrench[k])
    ensures
      var t, p := After(c, s, measured, cmd, dt), Pace(c, cmd, near, k, dtMin);
      && t.initialized && t.filtered == LowPassed(c, s, measured)
      && Abs(t.offset[k]) <= OffsetBound(c, cmd, k)
      && 0.0 < p && Moved(End(c, cmd, k, up), up, s.offset[k], t.offset[k], p)
  {
    hide LowPassed;
    hide Push;
    hide ClampedOffset;
    var wrench := LowPassed(c, s, measured)[k];
    PushGrows(Gain(c, k), cmd.targetWrench[k], wrench, near, dtMin, dt);
    PacePositive(c, cmd, near, k, dtMin, up);
    BoundsSound(c, cmd, k);
    hide Gain;
    hide StepBound;
    hide OffsetBound;
    var inc := Push(Gain(c, k), cmd.targetWrench[k], wrench, dt);
    OffsetAdvances(s.offset[k], inc, StepBound(c, cmd, k), OffsetBound(c, cmd, k), Pace(c, cmd, near, k, dtMin));
  }

  lemma OffsetAdvances(o: real, inc: real, step: real, bound: real, pace: real)
    requires 0.0 < pace <= step && 0.0 <= bound
    ensures var t := ClampedOffset(o, o + inc, step, bound);
      && Abs(t) <= bound
      && (pace <= inc ==> t == bound || o + pace <= t)
      && (inc <= -pace ==> t == -bound || t <= o - pace)
  {}

  // ---- The filter follows the measurements -------------------------------------------------------

  /** How far the filtered wrench is on the wrong side of lim. */
  function Excess(s: State, k: nat, up: bool, lim: real): real
    requires k < DOF
  {
    if !s.initialized then 0.0 else Max(0.0, if up then s.filtered[k] - lim else lim - s.filtered[k])
  }

  /** A blend with a value that is not positive shrinks an excess by a*d while it exceeds d. */
  lemma BlendShrinks(a: real, x: real, y: real, d: real)
    requires 0.0 <= a <= 1.0 && y <= 0.0 && 0.0 <= d
    ensures Blend(a, x, y) <= Max(0.0, x) && Blend(a, x, y) <= Max(d, Max(0.0, x) - a * d)
  {
    var b := 1.0 - a;
    NonNegativeProduct(a, -y, a * -y);
    assert Blend(a, x, y) <= b * x;
    if x <= 0.0 {
      NonNegativeProduct(b, -x, b * -x);
    } else {
      NonNegativeProduct(a, x, a * x);
      if d < x {
        NonNegativeProduct(a, x - d, a * (x - d));
      }
    }
  }

  lemma BlendShifts(a: real, x: real, y: real, lim: real)
    ensures Blend(a, x, y) - lim == Blend(a, x - lim, y - lim)
    ensures lim - Blend(a, x, y) == Blend(a, lim - x, lim - y)
  {}

  lemma BlendFrozen(x: real, y: real)
    ensures Blend(0.0, x, y) == x
  {}

  /** One call of a pressing sequence: the excess never grows, and shrinks while it exceeds d. */
  lemma FilterApproaches(c: ForceConfig, s: State, measured: JointArray, k: nat, up: bool, lim: real, d: real)
    requires k < DOF && 0.0 <= d && (Frozen(c, s) || Side(up, measured[k], lim))
    ensures
      var e, f := Excess(s, k, up, lim), Excess(State(LowPassed(c, s, measured), s.offset, true), k, up, lim);
      f <= e && (!Frozen(c, s) ==> f <= Max(d, e - Alpha(c) * d))
  {
    if s.initialized {
      var a, x, y := Alpha(c), s.filtered[k], measured[k];
      if Frozen(c, s) {
        BlendFrozen(x, y);
      } else {
        BlendShifts(a, x, y, lim);
        BlendShrinks(a, if up then x - lim else lim - x, if up then y - lim else lim - y, d);
      }
      hide Blend;
    } else {
      NonNegativeProduct(Alpha(c), d, Alpha(c) * d);
    }
  }

  lemma {:induction false} CallsApproach(
      c: ForceConfig, s: State, calls: seq<Call>, cmd: ForceCommand, dtMin: real, k: nat, up: bool, lim: real, d: real)
    requires k < DOF && 0.0 < d && 0.0 < dtMin && Drives(c, cmd, k)
    requires Pressing(c, s, calls, cmd, dtMin, k, up, lim)
    ensures
      var t := Calls(c, s, calls);
      && (s.initialized || calls != [] ==> t.initialized)
      && Excess(t, k, up, lim) <= Excess(s, k, up, lim)
      && (0.0 < Alpha(c) ==>
            Excess(t, k, up, lim) <= Max(d, Excess(s, k, up, lim) - Travel(|calls|, Alpha(c) * d)))
  {
    if calls == [] {
      TravelNext(0, Alpha(c) * d);
    } else {
      var before, last := calls[..|calls| - 1], calls[|calls| - 1];
      CallsApproach(c, s, before, cmd, dtMin, k, up, lim, d);
      var t := Calls(c, s, before);
      TravelNext(|before|, Alpha(c) * d);
      FilterApproaches(c, t, last.measured, k, up, lim, d);
      hide LowPassed;
      hide Offsets;
      hide Travel;
      hide Gain;
    }
  }

  // ---- The offset reaches its bound --------------------------------------------------------------

  /** The distance covered by n calls at a pace. */
  function Travel(n: nat, pace: real): real {
    n as real * pace
  }

  lemma TravelNext(n: nat, pace: real)
    ensures Travel(n + 1, pace) == Travel(n, pace) + pace && Travel(0, pace) == 0.0
  {}

  lemma TravelGrows(m: nat, n: nat, pace: real)
    requires m <= n && 0.0 < pace
    ensures Travel(m, pace) <= Travel(n, pace)
  {
    NonNegativeProduct((n - m) as real, pace, (n - m) as real * pace);
  }

  lemma EnoughCalls(distance: real, pace: real) returns (n: nat)
    requires 0.0 <= distance && 0.0 < pace
    ensures distance <= Travel(n, pace) && 0 < n
  {
    var q := distance / pace;
    assert q * pace == distance;
    assert 0.0 <= q;
    n := q.Floor + 1;
    NonNegativeProduct(n as real - q, pace, (n as real - q) * pace);
  }

  lemma {:induction false} CallsAdvance(
      c: ForceConfig, s: State, calls: seq<Call>, cmd: ForceCommand, dtMin: real, k: nat, up: bool, near: real)
    requires SoundForce(c) && k < DOF && 0.0 < dtMin && Drives(c, cmd, k) && Short(up, near, cmd.targetWrench[k])
    requires FilterSide(s, k, up, near) && Pressing(c, s, calls, cmd, dtMin, k, up, near)
    ensures
      var t, travel := Calls(c, s, calls), Travel(|calls|, Pace(c, cmd, near, k, dtMin));
      && FilterSide(t, k, up, near) && (s.initialized || calls != [] ==> t.initialized)
      && (calls != [] ==> Abs(t.offset[k]) <= OffsetBound(c, cmd, k))
      && Moved(End(c, cmd, k, up), up, s.offset[k], t.offset[k], travel)
  {
    if calls == [] {
      TravelNext(0, Pace(c, cmd, near, k, dtMin));
    } else {
      var before, last := calls[..|calls| - 1], calls[|calls| - 1];
      CallsAdvance(c, s, before, cmd, dtMin, k, up, near);
      var t := Calls(c, s, before);
      TravelNext(|before|, Pace(c, cmd, near, k, dtMin));
      FilterApproaches(c, t, last.measured, k, up, near, 0.0);
      hide Travel;
      hide Pace;
      hide LowPassed;
      hide After;
      hide Drives;
      hide OffsetBound;
      CallAdvances(c, t, last.measured, cmd, last.dt, dtMin, k, up, near);
    }
  }

  lemma {:induction false} CallsSplit(c: ForceConfig, s: State, first: seq<Call>, rest: seq<Call>)
    ensures Calls(c, s, first + rest) == Calls(c, Calls(c, s, first), rest)
  {
    if rest == [] {
      assert first + rest == first;
    } else {
      hide Next;
      CallsSplit(c, s, first, rest[..|rest| - 1]);
      assert (first + rest)[..|first + rest| - 1] == first + rest[..|rest| - 1];
    }
  }

  /** The value halfway between lim and the target. */
  function Halfway(lim: real, target: real): real {
    (lim + target) / 2.0
  }

  /** Measurements that stay on one side of lim, short of the target, drive the offset of an enabled axis
      to the end of its range on that side in finitely many calls and keep it there: from every state of
      a filter that follows the measurements, and of one that ignores them if it is on that side itself. */
  lemma DrivenToBound(c: ForceConfig, s: State, cmd: ForceCommand, dtMin: real, k: nat, up: bool, lim: real)
      returns (n: nat)
    requires SoundForce(c) && k < DOF && 0.0 < dtMin && Drives(c, cmd, k) && Short(up, lim, cmd.targetWrench[k])
    requires Frozen(c, s) ==> FilterSide(s, k, up, lim)
    ensures forall calls :: Pressing(c, s, calls, cmd, dtMin, k, up, lim) && n <= |calls| ==>
      Calls(c, s, calls).offset[k] == End(c, cmd, k, up)
  {
    var near := Halfway(lim, cmd.targetWrench[k]);
    var d := Abs(near - lim);
    var m := 1;
    if 0.0 < Alpha(c) {
      PositiveProduct(Alpha(c), d, Alpha(c) * d);
      m := EnoughCalls(Excess(s, k, up, lim), Alpha(c) * d);
    }
    PacePositive(c, cmd, near, k, dtMin, up);
    BoundsSound(c, cmd, k);
    var r := EnoughCalls(2.0 * OffsetBound(c, cmd, k), Pace(c, cmd, near, k, dtMin));
    n := m + r;
    forall calls | Pressing(c, s, calls, cmd, dtMin, k, up, lim) && n <= |calls|
      ensures Calls(c, s, calls).offset[k] == End(c, cmd, k, up)
    {
      hide *;
      var first, rest := calls[..m], calls[m..];
      assert calls == first + rest;
      PressingFirst(c, s, calls, cmd, dtMin, k, up, lim, m);
      FilterSettles(c, s, first, cmd, dtMin, k, up, lim, d);
      var t := Calls(c, s, first);
      PressingRest(c, s, t, calls, cmd, dtMin, k, up, lim, m);
      SettledSide(t, k, up, lim, cmd.targetWrench[k]);
      CallsSplit(c, s, first, rest);
      TravelGrows(r, |rest|, Pace(c, cmd, near, k, dtMin));
      EndReached(c, t, rest, cmd, dtMin, k, up, near);
    }
  }

  lemma PressingFirst(
      c: ForceConfig, s: State, calls: seq<Call>, cmd: ForceCommand, dtMin: real, k: nat, up: bool, lim: real, m: nat)
    requires k < DOF && m <= |calls| && Pressing(c, s, calls, cmd, dtMin, k, up, lim)
    ensures Pressing(c, s, calls[..m], cmd, dtMin, k, up, lim)
  {
    hide Side;
    hide Frozen;
  }

  lemma PressingRest(
      c: ForceConfig, s: State, t: State, calls: seq<Call>, cmd: ForceCommand, dtMin: real, k: nat, up: bool, lim: real,
      m: nat)
    requires k < DOF && m <= |calls| && Pressing(c, s, calls, cmd, dtMin, k, up, lim) && t.initialized
    requires Short(up, lim, cmd.targetWrench[k])
    ensures Pressing(c, t, calls[m..], cmd, dtMin, k, up, Halfway(lim, cmd.targetWrench[k]))
  {
    var rest := calls[m..];
    assert forall n :: 0 <= n < |rest| ==> rest[n] == calls[m + n];
    hide Alpha;
  }

  /** After m calls the excess is at most d, or was nothing from the start. */
  lemma FilterSettles(
      c: ForceConfig, s: State, calls: seq<Call>, cmd: ForceCommand, dtMin: real, k: nat, up: bool, lim: real, d: real)
    requires SoundForce(c) && k < DOF && 0.0 < dtMin && Drives(c, cmd, k) && 0.0 < d
    requires Frozen(c, s) ==> FilterSide(s, k, up, lim)
    requires calls != [] && Pressing(c, s, calls, cmd, dtMin, k, up, lim)
    requires 0.0 < Alpha(c) ==> Excess(s, k, up, lim) <= Travel(|calls|, Alpha(c) * d)
    ensures var t := Calls(c, s, calls);
            t.initialized && Excess(t, k, up, lim) <= d
            && (calls != [] ==> Abs(t.offset[k]) <= OffsetBound(c, cmd, k))
  {
    hide Calls;
    hide Travel;
    hide Pressing;
    hide OffsetBound;
    CallsApproach(c, s, calls, cmd, dtMin, k, up, lim, d);
    LastCallBounds(c, s, calls, cmd, dtMin, k, up, lim);
  }

  lemma LastCallBounds(
      c: ForceConfig, s: State, calls: seq<Call>, cmd: ForceCommand, dtMin: real, k: nat, up: bool, lim: real)
    requires SoundForce(c) && k < DOF && 0.0 < dtMin && Drives(c, cmd, k)
    requires calls != [] && Pressing(c, s, calls, cmd, dtMin, k, up, lim)
    ensures Abs(Calls(c, s, calls).offset[k]) <= OffsetBound(c, cmd, k)
  {
    BoundsSound(c, cmd, k);
    hide OffsetBound;
    hide StepBound;
    hide Increment;
    hide LowPassed;
    var last := calls[|calls| - 1];
    assert last.command == cmd;
  }

  lemma SettledSide(s: State, k: nat, up: bool, lim: real, target: real)
    requires k < DOF && Short(up, lim, target)
    requires Excess(s, k, up, lim) <= Abs(Halfway(lim, target) - lim)
    ensures FilterSide(s, k, up, Halfway(lim, target)) && Short(up, Halfway(lim, target), target)
  {}

  /** Enough further calls use up the range of the offset. */
  lemma EndReached(
      c: ForceConfig, s: State, calls: seq<Call>, cmd: ForceCommand, dtMin: real, k: nat, up: bool, near: real)
    requires SoundForce(c) && k < DOF && 0.0 < dtMin && Drives(c, cmd, k) && Short(up, near, cmd.targetWrench[k])
    requires FilterSide(s, k, up, near) && Pressing(c, s, calls, cmd, dtMin, k, up, near) && calls != []
    requires Abs(s.offset[k]) <= OffsetBound(c, cmd, k)
    requires 2.0 * OffsetBound(c, cmd, k) <= Travel(|calls|, Pace(c, cmd, near, k, dtMin))
    ensures Calls(c, s, calls).offset[k] == End(c, cmd, k, up)
  {
    CallsAdvance(c, s, calls, cmd, dtMin, k, up, near);
    hide Calls;
    hide Travel;
    hide Pace;
    hide OffsetBound;
  }

  /** Every call repeats the same measurement and command at a dt of at least dtMin. */
  predicate Constant(calls: seq<Call>, measured: JointArray, cmd: ForceCommand, dtMin: real) {
    forall n :: 0 <= n < |calls| ==>
      calls[n].Compute? && calls[n].measured == measured && calls[n].command == cmd && dtMin <= calls[n].dt
  }

  /** Whatever the controller was used for before, a constant nonzero force error drives an enabled axis to
      its offset bound in finitely many calls and keeps it there, provided the filter follows at all. */
  lemma ReachesBound(c: ForceConfig, before: seq<Call>, measured: JointArray, cmd: ForceCommand, dtMin: real, k: nat)
      returns (n: nat)
    requires SoundForce(c) && 0.0 < c.lpfAlpha && k < DOF && 0.0 < dtMin && Drives(c, cmd, k)
    requires measured[k] != cmd.targetWrench[k]
    ensures forall calls :: Constant(calls, measured, cmd, dtMin) && n <= |calls| ==>
      Calls(c, FRESH, before + calls).offset[k]
      == if measured[k] < cmd.targetWrench[k] then OffsetBound(c, cmd, k) else -OffsetBound(c, cmd, k)
  {
    var s, up := Calls(c, FRESH, before), measured[k] < cmd.targetWrench[k];
    n := DrivenToBound(c, s, cmd, dtMin, k, up, measured[k]);
    forall calls | Constant(calls, measured, cmd, dtMin) && n <= |calls|
      ensures Calls(c, FRESH, before + calls).offset[k] == End(c, cmd, k, up)
    {
      hide Calls;
      CallsSplit(c, FRESH, before, calls);
      assert Pressing(c, s, calls, cmd, dtMin, k, up, measured[k]);
    }
  }

  /** A filter that ignores measurements stays where it is, and when that is the target, a call moves the
      offset only into its bound, whatever is measured: the force error plays no part. */
  lemma FrozenAtTarget(c: ForceConfig, s: State, measured: JointArray, cmd: ForceCommand, dt: real, k: nat)
    requires SoundForce(c) && k < DOF && Frozen(c, s)
    ensures
      var t := After(c, s, measured, cmd, dt);
      && t.filtered == s.filtered && Frozen(c, t)
      && (Enabled(c, cmd, dt) && s.filtered[k] == cmd.targetWrench[k] ==>
            t.offset[k] == Clamp(s.offset[k], -OffsetBound(c, cmd, k), OffsetBound(c, cmd, k)))
  {
    forall j | 0 <= j < DOF ensures Blend(Alpha(c), s.filtered[j], measured[j]) == s.filtered[j] {
      BlendFrozen(s.filtered[j], measured[j]);
    }
    hide Blend;
    assert LowPassed(c, s, measured) == s.filtered;
    hide LowPassed;
    BoundsSound(c, cmd, k);
    ZeroPush(Gain(c, k), cmd.targetWrench[k], dt);
    hide Push;
    hide Gain;
    hide OffsetBound;
    hide StepBound;
  }

  lemma ZeroPush(gain: real, x: real, dt: real)
    ensures Push(gain, x, x, dt) == 0.0
  {}

  // ---- The settings in force ---------------------------------------------------------------------

  /** The positive setting of the command, or else the configured one. */
  function InForce(commanded: real, configured: real): real {
    if 0.0 < commanded then commanded else configured
  }

  /** The filter takes the first measurement whole and blends every later one. */
  lemma FilterTable(c: ForceConfig, s: State, measured: JointArray, cmd: ForceCommand, dt: real, k: nat)
    requires c.enable && cmd.mode != Off && 0.0 < dt && k < DOF
    ensures
      var t, a := After(c, s, measured, cmd, dt), Clamp(c.lpfAlpha, 0.0, 1.0);
      && t.initialized
      && t.filtered[k] == if s.initialized then (1.0 - a) * s.filtered[k] + a * measured[k] else measured[k]
  {
    BlendIs(Clamp(c.lpfAlpha, 0.0, 1.0), s.filtered[k], measured[k]);
    hide Offsets;
    hide Blend;
  }

  /** What an enabled call adds to an axis before clamping: the gain of a translation or a rotation times the
      force error times dt, in the two admittance-like modes and on enabled axes only. */
  function PushInForce(c: ForceConfig, cmd: ForceCommand, wrench: real, k: nat, dt: real): real
    requires k < DOF && |cmd.enabledAxis| == DOF
  {
    if (cmd.mode == Admittance || cmd.mode == ExternalForceSafety) && cmd.enabledAxis[k] then
      (if k <= 2 then c.gainPos else c.gainRot) * (cmd.targetWrench[k] - wrench) * dt
    else 0.0
  }

  lemma PushMeans(c: ForceConfig, cmd: ForceCommand, wrench: JointArray, k: nat, dt: real)
    requires k < DOF && |cmd.enabledAxis| == DOF
    ensures Increment(c, cmd, wrench, k, dt) == PushInForce(c, cmd, wrench[k], k, dt)
  {}

  /** One enabled call on one axis, with the step and offset bounds in force for a translation or a rotation. */
  lemma CallTable(c: ForceConfig, s: State, measured: JointArray, cmd: ForceCommand, dt: real, k: nat)
    requires c.enable && cmd.mode != Off && 0.0 < dt && k < DOF && |cmd.enabledAxis| == DOF
    ensures
      var t := After(c, s, measured, cmd, dt);
      var step := if k <= 2 then InForce(cmd.maxPosStep, c.maxPosStep) else InForce(cmd.maxRotStep, c.maxRotStep);
      var bound :=
        if k <= 2 then InForce(cmd.maxPosOffset, c.maxPosOffset) else InForce(cmd.maxRotOffset, c.maxRotOffset);
      var push := PushInForce(c, cmd, t.filtered[k], k, dt);
      t.offset[k] == Clamp(s.offset[k] + Clamp(push, -step, step), -bound, bound)
  {
    var t := After(c, s, measured, cmd, dt);
    PushMeans(c, cmd, t.filtered, k, dt);
    hide LowPassed;
    hide Increment;
    hide PushInForce;
  }

  lemma BlendIs(a: real, x: real, y: real)
    ensures Blend(a, x, y) == (1.0 - a) * x + a * y
  {}

  /** After any calls, a constant force error in an admittance-like mode drives an enabled axis with positive
      gain and step to exactly the offset bound of the command, or the configured one if it sets none. */
  lemma ReachesBoundInForce(
      c: ForceConfig, before: seq<Call>, measured: JointArray, cmd: ForceCommand, dtMin: real, k: nat)
      returns (n: nat)
    requires SoundForce(c) && c.enable && 0.0 < c.lpfAlpha && k < DOF && 0.0 < dtMin && |cmd.enabledAxis| == DOF
    requires (cmd.mode == Admittance || cmd.mode == ExternalForceSafety) && cmd.enabledAxis[k]
    requires k <= 2 ==> 0.0 < c.gainPos && (0.0 < cmd.maxPosStep || 0.0 < c.maxPosStep)
    requires 3 <= k ==> 0.0 < c.gainRot && (0.0 < cmd.maxRotStep || 0.0 < c.maxRotStep)
    requires measured[k] != cmd.targetWrench[k]
    ensures
      var bound :=
        if k <= 2 then InForce(cmd.maxPosOffset, c.maxPosOffset) else InForce(cmd.maxRotOffset, c.maxRotOffset);
      forall calls :: Constant(calls, measured, cmd, dtMin) && n <= |calls| ==>
        Calls(c, FRESH, before + calls).offset[k] == if measured[k] < cmd.targetWrench[k] then bound else -bound
  {
    n := ReachesBound(c, before, measured, cmd, dtMin, k);
    hide Calls;
    hide Constant;
  }

  /** A call changes nothing when the controller is disabled, the mode is Off, or no time has passed. */
  lemma DisabledCall(c: ForceConfig, s: State, measured: JointArray, cmd: ForceCommand, dt: real)
    ensures Enabled(c, cmd, dt) <==> c.enable && cmd.mode != Off && 0.0 < dt
    ensures !c.enable || cmd.mode == Off || dt <= 0.0 ==> After(c, s, measured, cmd, dt) == s
  {}
}
