/** Iterating the filter on one joint, at any dt from tick to tick: it comes to rest, and where. */
module Settling {
  import opened Types
  import opened JointStep

  /** The last two values sent to a joint. */
  datatype Pair = Pair(p: real, pp: real)

  /** One filtered step that aims at the point of [lo, hi] nearest to the joint: with lo == hi a fixed
      target, with the joint limits a Hold. */
  function Go(lo: real, hi: real, v: real, a: real, s: Pair): Pair {
    Pair(s.p + Advance(s.p - s.pp, Clamp(Clamp(s.p, lo, hi) - s.p, -v, v), a), s.p)
  }

  predicate Resting(lo: real, hi: real, s: Pair) {
    lo <= s.p <= hi && s.p == s.pp
  }

  // ---- Phases ------------------------------------------------------------------------------------

  function Times(k: nat, a: real): real {
    k as real * a
  }

  /** How many steps of y cover x. */
  function Steps(x: real, y: real): (k: nat)
    requires 0.0 < y
    ensures x <= Times(k, y)
  {
    if x <= 0.0 then 0
    else
      var q := x / y;
      assert q * y == x;
      StepsCover(q, y);
      q.Floor + 1
  }

  lemma StepsCover(q: real, y: real)
    requires 0.0 < y
    ensures 0.0 <= q * y ==> 0.0 <= q && q * y <= (q.Floor + 1) as real * y
  {
    if 0.0 <= q {
      var r := (q.Floor + 1) as real - q;
      assert 0.0 <= r * y;
    }
  }

  lemma TimesNext(k: nat, a: real)
    ensures Times(0, a) == 0.0 && Times(k + 1, a) == Times(k, a) + a
    ensures 0.0 < a ==> 0.0 <= Times(k, a)
  {
    assert 0.0 < a ==> 0.0 <= k as real * a;
  }

  /** On its way to rest a joint may rise above hi, sink back to it, brake below it, and return to lo. The
      number bounds the ticks the phase lasts, the distance how far the joint is outside. */
  datatype Phase =
    | Rising(k: nat, x: real)
    | Sinking(k: nat, x: real)
    | Braking(k: nat, y: real)
    | Returning(k: nat)
    | Rested

  /** a is the least brake of a tick, m the least step toward [lo, hi]. */
  predicate In(q: Phase, lo: real, hi: real, a: real, m: real, s: Pair) {
    match q
    case Rising(k, x) => hi < s.p <= hi + x && s.p - s.pp <= Times(k, a)
    case Sinking(k, x) => hi < s.p <= hi + x && s.p - hi <= Times(k, m) && s.p <= s.pp
    case Braking(k, y) => s.p <= hi && lo - y <= s.p && s.pp - s.p <= Times(k, a)
    case Returning(k) => s.p <= hi && lo - s.p <= Times(k, m) && s.pp <= s.p
    case Rested => Resting(lo, hi, s)
  }

  function BrakingBudget(k: nat, y: real, a: real, m: real): nat
    requires 0.0 < m
  {
    if k == 0 then Steps(y, m) + 2 else 1 + BrakingBudget(k - 1, y + Times(k, a), a, m)
  }

  function SinkingBudget(k: nat, x: real, a: real, m: real): nat
    requires 0.0 < a && 0.0 < m
  {
    k + 1 + BrakingBudget(Steps(x, a), 0.0, a, m)
  }

  function RisingBudget(k: nat, x: real, a: real, m: real): nat
    requires 0.0 < a && 0.0 < m
  {
    if k == 0 then 1 + SinkingBudget(Steps(x, m), x, a, m)
    else
      var rest, brake := RisingBudget(k - 1, x + Times(k, a), a, m), BrakingBudget(Steps(x, a), 0.0, a, m);
      1 + if rest < brake then brake else rest
  }

  /** The ticks left before the joint rests. */
  function Budget(q: Phase, a: real, m: real): nat
    requires 0.0 < a && 0.0 < m
  {
    match q
    case Rising(k, x) => RisingBudget(k, x, a, m)
    case Sinking(k, x) => SinkingBudget(k, x, a, m)
    case Braking(k, y) => BrakingBudget(k, y, a, m)
    case Returning(k) => k + 1
    case Rested => 0
  }

  /** Every joint is in some phase. */
  lemma StartsIn(lo: real, hi: real, a: real, m: real, s: Pair) returns (q: Phase)
    requires 0.0 < a
    ensures In(q, lo, hi, a, m, s)
  {
    if s.p > hi {
      q := Rising(Steps(s.p - s.pp, a), s.p - hi);
    } else {
      q := Braking(Steps(s.pp - s.p, a), lo - s.p);
    }
    hide Steps;
    hide Times;
  }

  lemma RisingStep(lo: real, hi: real, a0: real, m: real, v: real, a: real, s: Pair, k: nat, x: real)
      returns (q: Phase)
    requires lo <= hi && 0.0 < m <= a0 <= a && m <= v && In(Rising(k, x), lo, hi, a0, m, s) && 0 < k
    ensures In(q, lo, hi, a0, m, Go(lo, hi, v, a, s)) && Budget(q, a0, m) < RisingBudget(k, x, a0, m)
  {
    var t := Go(lo, hi, v, a, s);
    TimesNext(k - 1, a0);
    q := if t.p > hi then Rising(k - 1, x + Times(k, a0)) else Braking(Steps(x, a0), 0.0);
    hide Steps;
    hide Times;
  }

  lemma SinkingStep(lo: real, hi: real, a0: real, m: real, v: real, a: real, s: Pair, k: nat, x: real)
      returns (q: Phase)
    requires lo <= hi && 0.0 < m <= a0 <= a && m <= v && In(Sinking(k, x), lo, hi, a0, m, s)
    ensures In(q, lo, hi, a0, m, Go(lo, hi, v, a, s)) && Budget(q, a0, m) < SinkingBudget(k, x, a0, m)
  {
    var t := Go(lo, hi, v, a, s);
    TimesNext(0, m);
    assert 0 < k;
    TimesNext(k - 1, m);
    q := if t.p > hi then Sinking(k - 1, x) else Braking(Steps(x, a0), 0.0);
    hide Steps;
    hide Times;
  }

  lemma ReturningStep(lo: real, hi: real, a0: real, m: real, v: real, a: real, s: Pair, k: nat) returns (q: Phase)
    requires lo <= hi && 0.0 < m <= a0 <= a && m <= v && In(Returning(k), lo, hi, a0, m, s)
    ensures In(q, lo, hi, a0, m, Go(lo, hi, v, a, s)) && Budget(q, a0, m) < k + 1
  {
    TimesNext(0, m);
    if lo <= s.p {
      q := Rested;
    } else {
      assert 0 < k;
      TimesNext(k - 1, m);
      q := Returning(k - 1);
    }
    hide Times;
  }

  lemma BrakingStep(lo: real, hi: real, a0: real, m: real, v: real, a: real, s: Pair, k: nat, y: real)
      returns (q: Phase)
    requires lo <= hi && 0.0 < m <= a0 <= a && m <= v && In(Braking(k, y), lo, hi, a0, m, s) && 0 < k
    ensures In(q, lo, hi, a0, m, Go(lo, hi, v, a, s)) && Budget(q, a0, m) < BrakingBudget(k, y, a0, m)
  {
    TimesNext(k - 1, a0);
    q := Braking(k - 1, y + Times(k, a0));
    hide Times;
  }

  /** A step, whatever its limits beyond the least ones, leads to a phase with fewer ticks left, and a joint
      at rest stays where it is. */
  lemma Progress(q: Phase, lo: real, hi: real, a0: real, m: real, v: real, a: real, s: Pair) returns (r: Phase)
    requires lo <= hi && 0.0 < m <= a0 <= a && m <= v && In(q, lo, hi, a0, m, s)
    ensures In(r, lo, hi, a0, m, Go(lo, hi, v, a, s))
    ensures if q.Rested? then r.Rested? && Go(lo, hi, v, a, s) == s else Budget(r, a0, m) < Budget(q, a0, m)
  {
    TimesNext(0, a0);
    match q {
      case Rising(k, x) =>
        if k == 0 {
          r := SinkingStep(lo, hi, a0, m, v, a, s, Steps(x, m), x);
        } else {
          r := RisingStep(lo, hi, a0, m, v, a, s, k, x);
        }
      case Sinking(k, x) =>
        r := SinkingStep(lo, hi, a0, m, v, a, s, k, x);
      case Braking(k, y) =>
        if k == 0 {
          r := ReturningStep(lo, hi, a0, m, v, a, s, Steps(y, m));
        } else {
          r := BrakingStep(lo, hi, a0, m, v, a, s, k, y);
        }
      case Returning(k) =>
        r := ReturningStep(lo, hi, a0, m, v, a, s, k);
      case Rested =>
        r := Rested;
    }
  }

  // ---- The filter --------------------------------------------------------------------------------

  /** What a joint is asked for on every tick: a fixed target, a velocity, or to stay where it was sent last. */
  datatype Aim = At(q: real) | Moving(v: real) | Stay

  function Asked(aim: Aim, p: real, dt: real): real {
    match aim
    case At(q) => q
    case Moving(v) => p + v * dt
    case Stay => p
  }

  function FilterOnce(l: Limits, aim: Aim, dt: real, s: Pair): Pair {
    Pair(FilterJoint(l, Asked(aim, s.p, dt), s.p, s.pp, dt), s.p)
  }

  /** The filter over ticks of any lengths. */
  function FilterAll(l: Limits, aim: Aim, dts: seq<real>, s: Pair): Pair {
    if dts == [] then s
    else FilterOnce(l, aim, dts[|dts| - 1], FilterAll(l, aim, dts[..|dts| - 1], s))
  }

  lemma FilterAllSnoc(l: Limits, aim: Aim, dts: seq<real>, dt: real, s: Pair)
    ensures FilterAll(l, aim, dts + [dt], s) == FilterOnce(l, aim, dt, FilterAll(l, aim, dts, s))
  {
    assert (dts + [dt])[..|dts|] == dts;
  }

  /** Where the joint may rest: at the clamped target, at the limit it is moved to, or anywhere within its
      limits. */
  function RestLow(l: Limits, aim: Aim): real {
    match aim
    case At(q) => Clamp(q, l.lo, l.hi)
    case Moving(v) => if 0.0 < v then l.hi else l.lo
    case Stay => l.lo
  }

  function RestHigh(l: Limits, aim: Aim): real {
    match aim
    case At(q) => Clamp(q, l.lo, l.hi)
    case Moving(v) => if v < 0.0 then l.lo else l.hi
    case Stay => l.hi
  }

  predicate AtRest(l: Limits, aim: Aim, s: Pair) {
    Resting(RestLow(l, aim), RestHigh(l, aim), s)
  }

  /** The filter aims at where the joint may rest, with the longest step v except for a joint that is moved
      inside: x is what its velocity asks for in one tick. */
  lemma FilterGoes(l: Limits, aim: Aim, dt: real, s: Pair, v: real, a: real, x: real)
    requires Sound(l) && 0.0 < dt && v == l.dq * dt && a == l.ddq * dt * dt
    requires aim.Moving? ==> x == aim.v * dt && (0.0 < aim.v <==> 0.0 < x) && (aim.v < 0.0 <==> x < 0.0)
    ensures 0.0 < v && 0.0 < a
    ensures FilterOnce(l, aim, dt, s) == Go(RestLow(l, aim), RestHigh(l, aim), Cap(l, aim, s.p, v, x), a, s)
  {
    hide FilterJoint;
    StepForm(l, Asked(aim, s.p, dt), s.p, s.pp, dt, v, a);
    hide Asked;
    CapAims(l, aim, s.p, v, if aim.Moving? then s.p + x else Asked(aim, s.p, dt), x);
    AskedIs(aim, s.p, dt);
    hide RestLow;
    hide RestHigh;
    hide Cap;
    hide Clamp;
    hide Advance;
  }

  lemma AskedIs(aim: Aim, p: real, dt: real)
    ensures aim.At? ==> Asked(aim, p, dt) == aim.q
    ensures aim.Moving? ==> Asked(aim, p, dt) == p + aim.v * dt
    ensures aim.Stay? ==> Asked(aim, p, dt) == p
  {}

  /** The longest step toward where the joint may rest. */
  function Cap(l: Limits, aim: Aim, p: real, v: real, x: real): real {
    if !aim.Moving? then v
    else if 0.0 < aim.v && p < l.hi then Min(v, Max(x, l.lo - p))
    else if aim.v < 0.0 && l.lo < p then Min(v, Max(-x, p - l.hi))
    else v
  }

  lemma CapAims(l: Limits, aim: Aim, p: real, v: real, asked: real, x: real)
    requires l.lo <= l.hi && 0.0 < v
    requires match aim case At(q) => asked == q case Stay => asked == p case Moving(_) => asked == p + x
    requires aim.Moving? ==> (0.0 < aim.v <==> 0.0 < x) && (aim.v < 0.0 <==> x < 0.0)
    ensures Clamp(Clamp(asked, l.lo, l.hi) - p, -v, v)
         == Clamp(Clamp(p, RestLow(l, aim), RestHigh(l, aim)) - p, -Cap(l, aim, p, v, x), Cap(l, aim, p, v, x))
  {}

  /** The same for an aim that is not a velocity. */
  lemma FilterIsGo(l: Limits, aim: Aim, dt: real, s: Pair, v: real, a: real)
    requires Sound(l) && 0.0 < dt && v == l.dq * dt && a == l.ddq * dt * dt && !aim.Moving?
    ensures 0.0 < v && 0.0 < a && FilterOnce(l, aim, dt, s) == Go(RestLow(l, aim), RestHigh(l, aim), v, a, s)
  {
    hide FilterOnce;
    FilterGoes(l, aim, dt, s, v, a, 0.0);
    hide Go;
  }

  /** Longer ticks allow longer steps and larger changes of step. */
  lemma LongerTicks(dq: real, ddq: real, dt0: real, dt: real)
    requires 0.0 < dq && 0.0 < ddq && 0.0 <= dt0 <= dt
    ensures dq * dt0 <= dq * dt && ddq * dt0 * dt0 <= ddq * dt * dt
  {
    assert dt0 * dt0 <= dt * dt;
    assert ddq * dt0 * dt0 == ddq * (dt0 * dt0) && ddq * dt * dt == ddq * (dt * dt);
  }

  predicate AllAtLeast(dts: seq<real>, dt0: real) {
    forall k :: 0 <= k < |dts| ==> dt0 <= dts[k]
  }

  /** The least brake and the least step of a tick of at least dt0. */
  function LeastBrake(l: Limits, dt0: real): real {
    l.ddq * dt0 * dt0
  }

  /** The speed of the aim, at most the velocity limit. */
  function Speed(l: Limits, aim: Aim): real {
    if aim.Moving? && aim.v != 0.0 then Min(Abs(aim.v), l.dq) else l.dq
  }

  function LeastStep(l: Limits, aim: Aim, dt0: real): real {
    Min(LeastBrake(l, dt0), Speed(l, aim) * dt0)
  }

  lemma FilterProgress(q: Phase, l: Limits, aim: Aim, dt0: real, dt: real, s: Pair) returns (r: Phase)
    requires Sound(l) && 0.0 < dt0 <= dt && 0.0 < LeastStep(l, aim, dt0) <= LeastBrake(l, dt0)
    requires In(q, RestLow(l, aim), RestHigh(l, aim), LeastBrake(l, dt0), LeastStep(l, aim, dt0), s)
    ensures In(r, RestLow(l, aim), RestHigh(l, aim), LeastBrake(l, dt0), LeastStep(l, aim, dt0),
               FilterOnce(l, aim, dt, s))
    ensures
      var a, m := LeastBrake(l, dt0), LeastStep(l, aim, dt0);
      if q.Rested? then r.Rested? && FilterOnce(l, aim, dt, s) == s else Budget(r, a, m) < Budget(q, a, m)
  {
    hide *;
    var v, a, x := l.dq * dt, l.ddq * dt * dt, if aim.Moving? then aim.v * dt else 0.0;
    MovingSign(aim, dt, x);
    FilterGoes(l, aim, dt, s, v, a, x);
    PaceAtLeast(l, aim, dt0, dt, s.p, v, a, x);
    r := Progress(q, RestLow(l, aim), RestHigh(l, aim), LeastBrake(l, dt0), LeastStep(l, aim, dt0),
                  Cap(l, aim, s.p, v, x), a, s);
  }

  lemma MovingSign(aim: Aim, dt: real, x: real)
    requires 0.0 < dt && (aim.Moving? ==> x == aim.v * dt)
    ensures aim.Moving? ==> (0.0 < aim.v <==> 0.0 < x) && (aim.v < 0.0 <==> x < 0.0)
  {}

  lemma PaceAtLeast(l: Limits, aim: Aim, dt0: real, dt: real, p: real, v: real, a: real, x: real)
    requires Sound(l) && 0.0 < dt0 <= dt && v == l.dq * dt && a == l.ddq * dt * dt
    requires aim.Moving? ==> x == aim.v * dt
    ensures LeastBrake(l, dt0) <= a && LeastStep(l, aim, dt0) <= Cap(l, aim, p, v, x)
    ensures RestLow(l, aim) <= RestHigh(l, aim)
  {
    hide *;
    SoundMeans(l);
    LongerTicks(l.dq, l.ddq, dt0, dt);
    SpeedTimes(l, aim, dt0, dt, v, x);
    CapAtLeast(l, aim, p, v, x, LeastBrake(l, dt0), LeastStep(l, aim, dt0), Speed(l, aim) * dt0);
    LeastAre(l, aim, dt0);
  }

  lemma SoundMeans(l: Limits)
    requires Sound(l)
    ensures l.lo <= l.hi && 0.0 < l.dq && 0.0 < l.ddq
  {}

  lemma LeastAre(l: Limits, aim: Aim, dt0: real)
    ensures LeastBrake(l, dt0) == l.ddq * dt0 * dt0
    ensures LeastStep(l, aim, dt0) == Min(LeastBrake(l, dt0), Speed(l, aim) * dt0)
  {}

  lemma CapAtLeast(l: Limits, aim: Aim, p: real, v: real, x: real, a: real, m: real, u: real)
    requires l.lo <= l.hi && u <= v && (aim.Moving? && aim.v != 0.0 ==> u <= Abs(x))
    requires aim.Moving? ==> (0.0 < aim.v <==> 0.0 < x) && (aim.v < 0.0 <==> x < 0.0)
    ensures m == Min(a, u) ==> m <= Cap(l, aim, p, v, x)
    ensures RestLow(l, aim) <= RestHigh(l, aim)
  {}

  /** Every tick the aim's speed covers at least what it covers in the shortest one. */
  lemma SpeedTimes(l: Limits, aim: Aim, dt0: real, dt: real, v: real, x: real)
    requires Sound(l) && 0.0 < dt0 <= dt && v == l.dq * dt && (aim.Moving? ==> x == aim.v * dt)
    ensures Speed(l, aim) * dt0 <= v
    ensures aim.Moving? && aim.v != 0.0 ==> Speed(l, aim) * dt0 <= Abs(x)
    ensures aim.Moving? ==> (0.0 < aim.v <==> 0.0 < x) && (aim.v < 0.0 <==> x < 0.0)
  {
    var u := Speed(l, aim);
    Scaled(u, l.dq, dt0, dt);
    MovingSign(aim, dt, x);
    if aim.Moving? && aim.v != 0.0 {
      Scaled(u, Abs(aim.v), dt0, dt);
      assert Abs(aim.v) * dt == Abs(x);
    }
  }

  lemma Scaled(x: real, y: real, s: real, t: real)
    requires 0.0 <= x <= y && 0.0 <= s <= t
    ensures x * s <= y * t
  {
    assert 0.0 <= (y - x) * s && 0.0 <= y * (t - s);
  }

  lemma {:induction false} FilterAllProgress(q: Phase, l: Limits, aim: Aim, dt0: real, dts: seq<real>, s: Pair)
      returns (r: Phase)
    requires Sound(l) && 0.0 < dt0 && 0.0 < LeastStep(l, aim, dt0) <= LeastBrake(l, dt0) && AllAtLeast(dts, dt0)
    requires In(q, RestLow(l, aim), RestHigh(l, aim), LeastBrake(l, dt0), LeastStep(l, aim, dt0), s)
    ensures In(r, RestLow(l, aim), RestHigh(l, aim), LeastBrake(l, dt0), LeastStep(l, aim, dt0),
               FilterAll(l, aim, dts, s))
    ensures !r.Rested? ==> Budget(r, LeastBrake(l, dt0), LeastStep(l, aim, dt0)) + |dts|
                           <= Budget(q, LeastBrake(l, dt0), LeastStep(l, aim, dt0))
  {
    hide FilterOnce;
    hide In;
    hide RestLow;
    hide RestHigh;
    hide LeastBrake;
    hide LeastStep;
    if dts == [] {
      r := q;
    } else {
      var before, dt := dts[..|dts| - 1], dts[|dts| - 1];
      var b := FilterAllProgress(q, l, aim, dt0, before, s);
      r := FilterProgress(b, l, aim, dt0, dt, FilterAll(l, aim, before, s));
    }
  }

  lemma LeastPositive(l: Limits, aim: Aim, dt0: real)
    requires Sound(l) && 0.0 < dt0
    ensures 0.0 < LeastStep(l, aim, dt0) <= LeastBrake(l, dt0)
  {
    hide *;
    var a, m := l.ddq * dt0 * dt0, Speed(l, aim) * dt0;
    StepForm(l, 0.0, 0.0, 0.0, dt0, l.dq * dt0, a);
    SpeedPositive(l, aim);
    PositiveTimes(Speed(l, aim), dt0, m);
    LeastIs(l, aim, dt0, a, m);
  }

  lemma SpeedPositive(l: Limits, aim: Aim)
    requires Sound(l)
    ensures 0.0 < Speed(l, aim)
  {}

  lemma PositiveTimes(x: real, y: real, z: real)
    requires 0.0 < x && 0.0 < y && z == x * y
    ensures 0.0 < z
  {}

  lemma LeastIs(l: Limits, aim: Aim, dt0: real, a: real, m: real)
    requires m == Speed(l, aim) * dt0 && a == l.ddq * dt0 * dt0 && 0.0 < m && 0.0 < a
    ensures 0.0 < LeastStep(l, aim, dt0) <= LeastBrake(l, dt0)
  {}

  /** A joint with a fixed target reaches it exactly, clamped to the limits, one with a velocity reaches the
      limit it moves to, and a joint that is held comes to rest within its limits, from any position and
      speed: there is one number of ticks that is enough, however the ticks vary above a least dt. */
  lemma FilterComesToRest(l: Limits, aim: Aim, dt0: real, s: Pair) returns (n: nat)
    requires Sound(l) && 0.0 < dt0
    ensures forall dts :: AllAtLeast(dts, dt0) && n <= |dts| ==> AtRest(l, aim, FilterAll(l, aim, dts, s))
  {
    hide *;
    LeastPositive(l, aim, dt0);
    var a, m := LeastBrake(l, dt0), LeastStep(l, aim, dt0);
    var q := StartsIn(RestLow(l, aim), RestHigh(l, aim), a, m, s);
    n := Budget(q, a, m);
    forall dts | AllAtLeast(dts, dt0) && n <= |dts| ensures AtRest(l, aim, FilterAll(l, aim, dts, s)) {
      var r := FilterAllProgress(q, l, aim, dt0, dts, s);
      BudgetLeft(r, a, m);
      RestedIsRest(r, l, aim, a, m, FilterAll(l, aim, dts, s));
    }
  }

  lemma RestedIsRest(q: Phase, l: Limits, aim: Aim, a: real, m: real, s: Pair)
    requires q.Rested? && In(q, RestLow(l, aim), RestHigh(l, aim), a, m, s)
    ensures AtRest(l, aim, s)
  {}

  lemma BudgetLeft(q: Phase, a: real, m: real)
    requires 0.0 < a && 0.0 < m
    ensures !q.Rested? ==> 0 < Budget(q, a, m)
  {
    hide Steps;
  }

  /** A joint at rest stays where it is. */
  lemma {:induction false} RestStays(l: Limits, aim: Aim, dt0: real, dts: seq<real>, s: Pair)
    requires Sound(l) && 0.0 < dt0 && AllAtLeast(dts, dt0) && AtRest(l, aim, s)
    ensures FilterAll(l, aim, dts, s) == s
  {
    if dts != [] {
      var before, dt := dts[..|dts| - 1], dts[|dts| - 1];
      RestStays(l, aim, dt0, before, s);
      hide FilterOnce;
      RestOnce(l, aim, dt, s);
    }
  }

  lemma RestOnce(l: Limits, aim: Aim, dt: real, s: Pair)
    requires Sound(l) && 0.0 < dt && AtRest(l, aim, s)
    ensures FilterOnce(l, aim, dt, s) == s
  {
    hide FilterOnce;
    var v, a, x := l.dq * dt, l.ddq * dt * dt, if aim.Moving? then aim.v * dt else 0.0;
    MovingSign(aim, dt, x);
    FilterGoes(l, aim, dt, s, v, a, x);
    PaceAtLeast(l, aim, dt, dt, s.p, v, a, x);
    LeastPositive(l, aim, dt);
    hide LeastStep;
    hide Cap;
  }

  /** A joint above a fixed target never jumps past it, and one at or below it stays there, at any ticks: the
      target is crossed at most once, downward, and only after it was hit exactly. */
  lemma {:induction false} TargetCrossedOnce(l: Limits, q: real, dt: real, dts: seq<real>, s: Pair)
    requires Sound(l) && 0.0 < dt && AllAtLeast(dts, dt)
    ensures s.p > Clamp(q, l.lo, l.hi) ==> FilterOnce(l, At(q), dt, s).p >= Clamp(q, l.lo, l.hi)
    ensures s.p <= Clamp(q, l.lo, l.hi) ==> FilterAll(l, At(q), dts, s).p <= Clamp(q, l.lo, l.hi)
  {
    hide FilterOnce;
    FilterIsGo(l, At(q), dt, s, l.dq * dt, l.ddq * dt * dt);
    if dts != [] && s.p <= Clamp(q, l.lo, l.hi) {
      var before, last := dts[..|dts| - 1], dts[|dts| - 1];
      TargetCrossedOnce(l, q, dt, before, s);
      FilterIsGo(l, At(q), last, FilterAll(l, At(q), before, s), l.dq * last, l.ddq * last * last);
    }
  }

  // ---- A joint that is moved at a velocity -------------------------------------------------------

  /** A length in the direction of the velocity. */
  function Forward(v: real, x: real): real {
    if 0.0 < v then x else -x
  }

  predicate ReachedLimit(l: Limits, v: real, p: real) {
    if 0.0 < v then l.hi <= p else p <= l.lo
  }

  /** What is left before the limit the joint moves to. */
  function Room(l: Limits, v: real, p: real): real {
    if 0.0 < v then l.hi - p else p - l.lo
  }

  lemma MovingGoes(l: Limits, v: real, s: Pair, w: real, a: real, x: real)
    requires l.lo <= l.hi && 0.0 < w && 0.0 < a && v != 0.0 && !ReachedLimit(l, v, s.p)
    requires (0.0 < v <==> 0.0 < x) && (v < 0.0 <==> x < 0.0)
    ensures
      var aim, room := Moving(v), Room(l, v, s.p);
      var t := Go(RestLow(l, aim), RestHigh(l, aim), Cap(l, aim, s.p, w, x), a, s);
      var least := Min(Forward(v, s.p - s.pp) + a, Min(Min(Abs(x), w), room));
      && least <= Forward(v, t.p - t.pp)
      && (l.lo <= s.p <= l.hi ==> Forward(v, t.p - t.pp) == least)
  {}

  /** In one tick of dt the velocity asks for u, within the velocity limit, and a is the acceleration limit. */
  predicate MovesBy(l: Limits, v: real, dt: real, u: real, a: real) {
    u == Min(Abs(v) * dt, l.dq * dt) && a == l.ddq * dt * dt
  }

  /** With room for it, a joint moved at velocity v makes a step of v * dt, or of its velocity limit, or one
      larger than the last by its acceleration limit, whichever is least; one outside its limits may make
      a longer step back to them. */
  lemma MovingStep(l: Limits, v: real, dt: real, s: Pair, u: real, a: real)
    requires Sound(l) && 0.0 < dt && v != 0.0 && !ReachedLimit(l, v, s.p) && MovesBy(l, v, dt, u, a)
    ensures 0.0 < a && FilterOnce(l, Moving(v), dt, s).pp == s.p
    ensures
      var t := FilterOnce(l, Moving(v), dt, s);
      var least := Min(Forward(v, s.p - s.pp) + a, Min(u, Room(l, v, s.p)));
      && least <= Forward(v, t.p - t.pp)
      && (l.lo <= s.p <= l.hi ==> Forward(v, t.p - t.pp) == least)
  {
    hide *;
    var w, x := l.dq * dt, v * dt;
    MovesMeans(l, v, dt, u, a, w, x);
    MovingSign(Moving(v), dt, x);
    SoundMeans(l);
    FilterGoes(l, Moving(v), dt, s, w, a, x);
    GoFollows(RestLow(l, Moving(v)), RestHigh(l, Moving(v)), Cap(l, Moving(v), s.p, w, x), a, s);
    MovingGoes(l, v, s, w, a, x);
  }

  lemma MovesMeans(l: Limits, v: real, dt: real, u: real, a: real, w: real, x: real)
    requires 0.0 < dt && MovesBy(l, v, dt, u, a) && w == l.dq * dt && x == v * dt
    ensures u == Min(Abs(x), w) && a == l.ddq * dt * dt
  {
    AbsTimes(v, dt);
  }

  lemma GoFollows(lo: real, hi: real, v: real, a: real, s: Pair)
    ensures Go(lo, hi, v, a, s).pp == s.p
  {}

  lemma AbsTimes(v: real, dt: real)
    requires 0.0 < dt
    ensures Abs(v) * dt == Abs(v * dt)
  {}

  function Repeated(dt: real, n: nat): seq<real> {
    seq(n, _ => dt)
  }

  /** Until it reaches its limit, a joint moved at velocity v speeds up by its acceleration limit in every
      tick until it makes steps of at least v * dt, or of its velocity limit. */
  lemma {:induction false} MovingSpeedsUp(l: Limits, v: real, dt: real, s: Pair, n: nat, u: real, a: real)
    requires Sound(l) && 0.0 < dt && v != 0.0 && MovesBy(l, v, dt, u, a)
    requires forall k: nat :: k < n ==> !ReachedLimit(l, v, FilterAll(l, Moving(v), Repeated(dt, k), s).p)
    ensures
      var t := FilterAll(l, Moving(v), Repeated(dt, n), s);
      || ReachedLimit(l, v, t.p)
      || Forward(v, t.p - t.pp) >= Min(u, Forward(v, s.p - s.pp) + Times(n, a))
  {
    hide *;
    if n == 0 {
      MovingStarts(l, v, dt, s, u, a);
    } else {
      MovingSpeedsUp(l, v, dt, s, n - 1, u, a);
      var t := FilterAll(l, Moving(v), Repeated(dt, n - 1), s);
      TimesNext(n - 1, a);
      RepeatedLast(dt, n);
      FilterAllSnoc(l, Moving(v), Repeated(dt, n - 1), dt, s);
      MovingStep(l, v, dt, t, u, a);
      StillSpeedsUp(l, v, t, FilterOnce(l, Moving(v), dt, t), u, a, Forward(v, s.p - s.pp) + Times(n - 1, a));
    }
  }

  lemma RepeatedLast(dt: real, n: nat)
    requires 0 < n
    ensures Repeated(dt, n) == Repeated(dt, n - 1) + [dt]
  {}

  lemma MovingStarts(l: Limits, v: real, dt: real, s: Pair, u: real, a: real)
    ensures
      var t := FilterAll(l, Moving(v), Repeated(dt, 0), s);
      Forward(v, t.p - t.pp) >= Min(u, Forward(v, s.p - s.pp) + Times(0, a))
  {
    TimesNext(0, a);
    assert Repeated(dt, 0) == [];
  }

  lemma StillSpeedsUp(l: Limits, v: real, s: Pair, t: Pair, u: real, a: real, least: real)
    requires 0.0 < a && v != 0.0 && t.pp == s.p
    requires Min(Forward(v, s.p - s.pp) + a, Min(u, Room(l, v, s.p))) <= Forward(v, t.p - t.pp)
    requires Forward(v, s.p - s.pp) >= Min(u, least)
    ensures ReachedLimit(l, v, t.p) || Forward(v, t.p - t.pp) >= Min(u, least + a)
  {}

  // ---- A joint that is held ----------------------------------------------------------------------

  /** Inside its limits a held joint stops at once unless it falls faster than A per tick; then it loses
      A per tick. */
  lemma HeldJointBrakes(l: Limits, dt: real, s: Pair)
    requires Sound(l) && 0.0 < dt && l.lo <= s.p <= l.hi
    ensures FilterJoint(l, s.p, s.p, s.pp, dt) - s.p
         == if s.p - s.pp < -(l.ddq * dt * dt) then s.p - s.pp + l.ddq * dt * dt else 0.0
  {
    hide FilterJoint;
    StepForm(l, s.p, s.p, s.pp, dt, l.dq * dt, l.ddq * dt * dt);
  }

  /** At most hi, the joint can be stopped before it reaches `floor`, and a step keeps that. */
  lemma StayKeepsRoom(lo: real, hi: real, v: real, a0: real, a: real, floor: real, s: Pair)
    requires lo <= hi && 0.0 < v && 0.0 < a0 <= a && s.p <= hi && CanStop(s.pp - s.p, s.p - floor, a0)
    ensures
      var t := Go(lo, hi, v, a, s);
      t.p <= Max(s.p, lo) && CanStop(t.pp - t.p, t.p - floor, a0)
  {
    var t := Go(lo, hi, v, a, s);
    hide CanStop;
    assert t.p <= Max(s.p, lo) && (s.p - t.p <= 0.0 || s.p - t.p <= s.pp - s.p - a);
    assert s.p - floor - (s.p - t.p) == t.p - floor;
    hide Go;
    BrakingKeepsRoom(s.pp - s.p, s.p - t.p, s.p - floor, a0, a);
  }

  lemma {:induction false} StayCoasts(l: Limits, dt0: real, dts: seq<real>, s: Pair, a0: real, floor: real)
    requires Sound(l) && 0.0 < dt0 && AllAtLeast(dts, dt0) && a0 == l.ddq * dt0 * dt0
    requires l.lo <= s.p <= l.hi && CanStop(s.pp - s.p, s.p - floor, a0)
    ensures var t := FilterAll(l, Stay, dts, s); t.p <= s.p && CanStop(t.pp - t.p, t.p - floor, a0)
  {
    if dts != [] {
      var before, dt := dts[..|dts| - 1], dts[|dts| - 1];
      StayCoasts(l, dt0, before, s, a0, floor);
      hide FilterOnce;
      hide CanStop;
      StayStep(l, dt0, dt, FilterAll(l, Stay, before, s), a0, floor);
    }
  }

  lemma StayStep(l: Limits, dt0: real, dt: real, s: Pair, a0: real, floor: real)
    requires Sound(l) && 0.0 < dt0 <= dt && a0 == l.ddq * dt0 * dt0
    requires s.p <= l.hi && CanStop(s.pp - s.p, s.p - floor, a0)
    ensures
      var t := FilterOnce(l, Stay, dt, s);
      t.p <= Max(s.p, l.lo) && CanStop(t.pp - t.p, t.p - floor, a0)
  {
    hide FilterOnce;
    hide CanStop;
    hide Go;
    var v, a := l.dq * dt, l.ddq * dt * dt;
    FilterIsGo(l, Stay, dt0, s, l.dq * dt0, a0);
    FilterIsGo(l, Stay, dt, s, v, a);
    LongerTicks(l.dq, l.ddq, dt0, dt);
    StayKeepsRoom(l.lo, l.hi, v, a0, a, floor, s);
  }

  /** A held joint that moves down from inside its limits falls at most d*d / (2*a) in all, where a is the
      least brake of a tick, and rises only while it is below its lower limit, to that limit at most. */
  lemma HeldJointCoasts(l: Limits, dt0: real, dts: seq<real>, dt: real, s: Pair, a: real)
    requires Sound(l) && 0.0 < dt0 <= dt && AllAtLeast(dts, dt0) && a == l.ddq * dt0 * dt0
    requires l.lo <= s.p <= l.hi && s.p < s.pp
    ensures 0.0 < a
    ensures
      var t := FilterAll(l, Stay, dts, s);
      && s.p - BrakingDistance(s.pp - s.p, a) <= t.p <= s.p
      && FilterAll(l, Stay, dts + [dt], s).p <= Max(t.p, l.lo)
  {
    FilterIsGo(l, Stay, dt0, s, l.dq * dt0, a);
    BrakingDistanceLaw(s.pp - s.p, a);
    var floor := s.p - BrakingDistance(s.pp - s.p, a);
    StayCoasts(l, dt0, dts, s, a, floor);
    var t := FilterAll(l, Stay, dts, s);
    FilterAllSnoc(l, Stay, dts, dt, s);
    hide FilterAll;
    hide FilterOnce;
    hide BrakingDistance;
    FilterIsGo(l, Stay, dt, t, l.dq * dt, l.ddq * dt * dt);
  }

  lemma HeldStep(l: Limits, x: real, y: real, z: real)
    requires l == Limits(0.0, 10.0, 1.0, 0.5) && z == x + Advance(x - y, Clamp(Clamp(x, 0.0, 10.0) - x, -1.0, 1.0), 0.5)
    ensures FilterOnce(l, Stay, 1.0, Pair(x, y)) == Pair(z, x)
  {
    hide FilterJoint;
    StepForm(l, x, x, y, 1.0, 1.0, 0.5);
  }

  /** A held joint can rise: it coasts below its lower limit and comes back to it. */
  lemma HeldJointRisesWitness()
    ensures
      var l, s := Limits(0.0, 10.0, 1.0, 0.5), Pair(0.0, 1.0);
      && FilterAll(l, Stay, [1.0], s) == Pair(-0.5, 0.0)
      && FilterAll(l, Stay, [1.0, 1.0], s) == Pair(-0.5, -0.5)
      && FilterAll(l, Stay, [1.0, 1.0, 1.0], s) == Pair(0.0, -0.5)
  {
    var l, s := Limits(0.0, 10.0, 1.0, 0.5), Pair(0.0, 1.0);
    HeldStep(l, 0.0, 1.0, -0.5);
    HeldStep(l, -0.5, 0.0, -0.5);
    HeldStep(l, -0.5, -0.5, 0.0);
    hide FilterOnce;
    FilterAllSnoc(l, Stay, [], 1.0, s);
    FilterAllSnoc(l, Stay, [1.0], 1.0, s);
    FilterAllSnoc(l, Stay, [1.0, 1.0], 1.0, s);
    assert [] + [1.0] == [1.0] && [1.0] + [1.0] == [1.0, 1.0] && [1.0, 1.0] + [1.0] == [1.0, 1.0, 1.0];
  }
}
