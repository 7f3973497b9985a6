/** What is sent to each arm: where every target comes from, and how the sent history is remembered. */
module Sends {
  import opened Types
  import opened Tick
  import opened Runs
  import Safety

  function ArmOf(s: State, side: ArmId): Arm {
    if side == ArmId.Left then s.left else s.right
  }

  function Reading(i: Input, side: ArmId): RobotState {
    if side == ArmId.Left then i.left else i.right
  }

  function Pose(t: Target, side: ArmId): JointArray {
    if side == ArmId.Left then t.left else t.right
  }

  predicate WasSent(i: Input, side: ArmId) {
    if side == ArmId.Left then i.leftSent else i.rightSent
  }

  /** The state once the lifecycle part of a tick is done. */
  function Ready(c: Config, s: State, i: Input): State {
    Admitted(c, Started(s, i), i)
  }

  function TargetOf(c: Config, s: State, i: Input, side: ArmId): JointArray {
    Pose(ReportOf(c, s, i).target, side)
  }

  // ---- One tick ----------------------------------------------------------------------------------

  /** The lifecycle part of a tick moves an arm's sent history only by clearing a latch. */
  lemma ReadyArm(c: Config, s: State, i: Input, side: ArmId)
    ensures var a, b := ArmOf(s, side), ArmOf(Ready(c, s, i), side);
      if Clears(s, i) then b == Rebased(SafeHold(c.safety, Reading(i, side), a.prev))
      else b.prev == a.prev && b.prevprev == a.prevprev
  {}

  lemma DecideKeepsArms(c: Config, s: State, cmd: DualCommand, i: Input, dt: real, side: ArmId)
    ensures var a, b := ArmOf(s, side), ArmOf(Decide(c, s, cmd, i, dt).state, side);
            b.prev == a.prev && b.prevprev == a.prevprev
  {
    hide SafeHold;
    hide Desired;
    hide BothValid;
    hide CommandVerdict;
    hide CheckLeft;
    hide CheckRight;
    hide Combined;
  }

  /** A target enters the sent history of an arm exactly when its send succeeded. */
  lemma TickSends(c: Config, s: State, i: Input, side: ArmId)
    ensures var a, b := ArmOf(Ready(c, s, i), side), ArmOf(After(c, s, i), side);
      if WasSent(i, side) then b.prev == TargetOf(c, s, i, side) && b.prevprev == a.prev
      else b.prev == a.prev && b.prevprev == a.prevprev
  {
    hide SafeHold;
    hide Decide;
    hide Obeyed;
    hide Admitted;
    hide FilterDt;
    DecideKeepsArms(c, Ready(c, s, i), Obeyed(c, Started(s, i), i), i, Dt(c, s, i), side);
  }

  /** The tick sends the output of the safety filter to both arms. */
  predicate Filters(c: Config, s: State, i: Input) {
    && !Ready(c, s, i).latched && BothValid(c, i)
    && CommandVerdict(Obeyed(c, Started(s, i), i)) == Ok
    && !Lost(c, Ready(c, s, i), i)
  }

  function FilterOutput(c: Config, s: State, i: Input, side: ArmId): JointArray {
    var s1, dt := Ready(c, s, i), Dt(c, s, i);
    var a := ArmOf(s1, side);
    Safety.FilteredPose(c.safety, Pose(Desired(c, s1, Obeyed(c, Started(s, i), i), dt), side), a.prev, a.prevprev, dt)
  }

  /** The target of every tick, case by case. With valid readings a tracking error moves the target to
      the readings under either policy. */
  lemma TargetTable(c: Config, s: State, i: Input, side: ArmId)
    ensures
      var s1, r := Ready(c, s, i), Reading(i, side);
      var a := ArmOf(s1, side);
      TargetOf(c, s, i, side) ==
        if s1.latched then (if BothValid(c, i) || LatchesStateError(c) then a.faultHold else a.prev)
        else if !BothValid(c, i) then (if LatchesStateError(c) then SafeHold(c.safety, r, a.prev) else a.prev)
        else if CommandVerdict(Obeyed(c, Started(s, i), i)) != Ok then a.prev
        else if Lost(c, s1, i) then r.qActual
        else FilterOutput(c, s, i, side)
  {
    hide Admitted;
    hide Obeyed;
    hide FilterDt;
    DecideTable(c, Ready(c, s, i), Obeyed(c, Started(s, i), i), i, Dt(c, s, i), side);
  }

  lemma DecideTable(c: Config, s: State, cmd: DualCommand, i: Input, dt: real, side: ArmId)
    ensures
      var a, r := ArmOf(s, side), Reading(i, side);
      Pose(Decide(c, s, cmd, i, dt).target, side) ==
        if s.latched then (if BothValid(c, i) || LatchesStateError(c) then a.faultHold else a.prev)
        else if !BothValid(c, i) then (if LatchesStateError(c) then SafeHold(c.safety, r, a.prev) else a.prev)
        else if CommandVerdict(cmd) != Ok then a.prev
        else if Lost(c, s, i) then r.qActual
        else Safety.FilteredPose(c.safety, Pose(Desired(c, s, cmd, dt), side), a.prev, a.prevprev, dt)
  {
    hide ValidReading;
    hide CommandVerdict;
    hide Safety.FilteredPose;
    hide Lost;
    var s1 := Executing(s, cmd);
    DesiredUnmoved(c, s, cmd, dt);
    LostUnmoved(c, s, cmd, i);
    hide Desired;
    if BothValid(c, i) {
      hide CheckLeft;
      hide CheckRight;
      hide Combined;
      ValidReadingsDecide(c, s1, Desired(c, s1, cmd, dt), i, dt);
    }
  }

  lemma DesiredUnmoved(c: Config, s: State, cmd: DualCommand, dt: real)
    ensures Desired(c, Executing(s, cmd), cmd, dt) == Desired(c, s, cmd, dt)
  {}

  // ---- Which targets keep an unlatched loop going ------------------------------------------------

  lemma LatchStays(c: Config, s: State, i: Input)
    requires Bookkept(s)
    ensures Ready(c, s, i).latched ==> After(c, s, i).latched
  {}

  /** The tick sends both arms their readings after a tracking error, without latching. */
  predicate Snaps(c: Config, s: State, i: Input) {
    && c.safety.trackingPolicy == SnapToActual
    && !Ready(c, s, i).latched && BothValid(c, i)
    && CommandVerdict(Obeyed(c, Started(s, i), i)) == Ok
    && Lost(c, Ready(c, s, i), i)
  }

  /** The target of a tick is the last pose, the output of the filter, the valid reading of a tick that snaps,
      or else a hold pose of a tick that ends latched. */
  lemma TargetCases(c: Config, s: State, i: Input, side: ArmId)
    requires Bookkept(s)
    ensures
      var q, a, r := TargetOf(c, s, i, side), ArmOf(Ready(c, s, i), side), Reading(i, side);
      || q == a.prev
      || (Filters(c, s, i) && q == FilterOutput(c, s, i, side))
      || (Snaps(c, s, i) && ValidReading(c.safety, r) && q == r.qActual)
      || (After(c, s, i).latched && (q == a.faultHold || q == SafeHold(c.safety, r, a.prev)))
  {
    hide TargetOf;
    hide FilterOutput;
    hide After;
    hide RequestOf;
    hide Obeyed;
    hide CommandVerdict;
    hide Lost;
    hide ValidReading;
    hide SendFailed;
    TargetTable(c, s, i, side);
    LatchStays(c, s, i);
    if !s.latched || Clears(s, i) {
      TickLatches(c, s, i);
    }
  }

  // ---- The sent history --------------------------------------------------------------------------

  /** Everything sent to an arm: two copies of the starting pose, at startup and at each cleared latch,
      then each target whose send succeeded. */
  function SentLog(c: Config, s: State, run: seq<Input>, side: ArmId): seq<JointArray> {
    if run == [] then [ArmOf(s, side).prev, ArmOf(s, side).prev]
    else
      var before, i := run[..|run| - 1], run[|run| - 1];
      var t := Run(c, s, before);
      var start := SafeHold(c.safety, Reading(i, side), ArmOf(t, side).prev);
      var log := if Clears(t, i) then [start, start] else SentLog(c, s, before, side);
      if WasSent(i, side) then log + [TargetOf(c, t, i, side)] else log
  }

  /** The remembered poses of an arm are the last two of a log. */
  predicate Remembers(a: Arm, log: seq<JointArray>) {
    |log| >= 2 && a.prev == log[|log| - 1] && a.prevprev == log[|log| - 2]
  }

  lemma TickRemembers(c: Config, s: State, i: Input, side: ArmId, log: seq<JointArray>)
    requires Remembers(ArmOf(s, side), log)
    ensures
      var start := SafeHold(c.safety, Reading(i, side), ArmOf(s, side).prev);
      var kept := if Clears(s, i) then [start, start] else log;
      Remembers(ArmOf(After(c, s, i), side), if WasSent(i, side) then kept + [TargetOf(c, s, i, side)] else kept)
  {
    hide After;
    hide TargetOf;
    hide Ready;
    hide SafeHold;
    hide Clears;
    ReadyArm(c, s, i, side);
    TickSends(c, s, i, side);
  }

  /** In every reachable state the two remembered poses are the last two of the sent log. */
  lemma {:induction false} RemembersLastTwo(c: Config, s: State, run: seq<Input>, side: ArmId)
    requires Initial(c, s)
    ensures Remembers(ArmOf(Run(c, s, run), side), SentLog(c, s, run, side))
  {
    if run != [] {
      var before, i := run[..|run| - 1], run[|run| - 1];
      RemembersLastTwo(c, s, before, side);
      hide After;
      hide TargetOf;
      hide SafeHold;
      hide Clears;
      hide Initial;
      hide Remembers;
      TickRemembers(c, Run(c, s, before), i, side, SentLog(c, s, before, side));
    }
  }

  // ---- Where poses come from ---------------------------------------------------------------------

  /** Tick i, in state s, gives the pose q: a valid reading of the arm or the output of its filter. */
  predicate Gives(c: Config, s: State, i: Input, side: ArmId, q: JointArray) {
    || (ValidReading(c.safety, Reading(i, side)) && q == Reading(i, side).qActual)
    || (Filters(c, s, i) && q == FilterOutput(c, s, i, side))
  }

  /** The pose q was the validated startup reading or was given by some tick of the run. */
  ghost predicate Grounded(c: Config, s: State, run: seq<Input>, side: ArmId, q: JointArray) {
    || q == ArmOf(s, side).prev
    || exists k :: 0 <= k < |run| && Gives(c, Run(c, s, run[..k]), run[k], side, q)
  }

  lemma GroundedExtends(c: Config, s: State, run: seq<Input>, i: Input, side: ArmId, q: JointArray)
    requires Grounded(c, s, run, side, q)
    ensures Grounded(c, s, run + [i], side, q)
  {
    hide Gives;
    hide Run;
    if q != ArmOf(s, side).prev {
      var k :| 0 <= k < |run| && Gives(c, Run(c, s, run[..k]), run[k], side, q);
      assert (run + [i])[..k] == run[..k] && (run + [i])[k] == run[k];
    }
  }

  lemma GroundedNow(c: Config, s: State, run: seq<Input>, i: Input, side: ArmId, q: JointArray)
    requires Gives(c, Run(c, s, run), i, side, q)
    ensures Grounded(c, s, run + [i], side, q)
  {
    hide Gives;
    hide Run;
    assert (run + [i])[..|run|] == run && (run + [i])[|run|] == i;
  }

  lemma TargetGiven(c: Config, s: State, i: Input, side: ArmId)
    ensures var q, a, b := TargetOf(c, s, i, side), ArmOf(Ready(c, s, i), side), ArmOf(s, side);
            q == a.prev || q == a.faultHold || Gives(c, s, i, side, q)
    ensures var a, b := ArmOf(Ready(c, s, i), side), ArmOf(s, side);
            && (a.prev == b.prev || Gives(c, s, i, side, a.prev))
            && (a.prevprev == b.prevprev || a.prevprev == a.prev)
            && (a.faultHold == b.faultHold || a.faultHold == a.prev || Gives(c, s, i, side, a.faultHold))
  {
    hide RequestOf;
    hide Obeyed;
    hide CommandVerdict;
    hide Lost;
    hide FilterOutput;
    hide ReportOf;
    hide ValidReading;
    TargetTable(c, s, i, side);
    hide TargetOf;
  }

  lemma HoldGiven(c: Config, s: State, i: Input, side: ArmId)
    ensures var h, a := ArmOf(After(c, s, i), side).faultHold, ArmOf(Ready(c, s, i), side);
            h == a.faultHold || h == a.prev || Gives(c, s, i, side, h)
  {
    hide Admitted;
    hide Obeyed;
    hide FilterDt;
    hide ValidReading;
    hide FilterOutput;
    hide Filters;
    hide Decide;
    DecideHold(c, Ready(c, s, i), Obeyed(c, Started(s, i), i), i, Dt(c, s, i), side);
    DecideKeepsArms(c, Ready(c, s, i), Obeyed(c, Started(s, i), i), i, Dt(c, s, i), side);
  }

  lemma DecideHold(c: Config, s: State, cmd: DualCommand, i: Input, dt: real, side: ArmId)
    ensures var h, a := ArmOf(Decide(c, s, cmd, i, dt).state, side).faultHold, ArmOf(s, side);
            h == a.faultHold || h == SafeHold(c.safety, Reading(i, side), a.prev)
  {
    hide SafeHold;
    hide Desired;
    hide BothValid;
    hide CommandVerdict;
    hide CheckLeft;
    hide CheckRight;
    hide Combined;
  }

  /** Every pose the loop remembers and every target it sends is the startup reading, a joint reading
      that passed the validity check, or an output of the safety filter, of some tick up to then: no
      default-initialised pose is ever sent. */
  lemma {:induction false} EveryPoseIsGrounded(c: Config, s: State, run: seq<Input>, side: ArmId)
    requires Initial(c, s)
    ensures var a := ArmOf(Run(c, s, run), side);
      && Grounded(c, s, run, side, a.prev)
      && Grounded(c, s, run, side, a.prevprev)
      && Grounded(c, s, run, side, a.faultHold)
    ensures run != [] ==>
      Grounded(c, s, run, side, TargetOf(c, Run(c, s, run[..|run| - 1]), run[|run| - 1], side))
  {
    if run != [] {
      var before, i := run[..|run| - 1], run[|run| - 1];
      var t := Run(c, s, before);
      assert run == before + [i];
      EveryPoseIsGrounded(c, s, before, side);
      hide *;
      StillGrounded(c, s, before, i, side, ArmOf(t, side).prev);
      StillGrounded(c, s, before, i, side, ArmOf(t, side).prevprev);
      StillGrounded(c, s, before, i, side, ArmOf(t, side).faultHold);
      TargetGiven(c, t, i, side);
      HoldGiven(c, t, i, side);
      var a := ArmOf(Ready(c, t, i), side);
      StillGrounded(c, s, before, i, side, a.prev);
      StillGrounded(c, s, before, i, side, a.faultHold);
      StillGrounded(c, s, before, i, side, TargetOf(c, t, i, side));
      StillGrounded(c, s, before, i, side, ArmOf(After(c, t, i), side).faultHold);
      RunSnoc(c, s, before, i);
      TickSends(c, t, i, side);
    } else {
      StartsGrounded(c, s, side);
    }
  }

  lemma StillGrounded(c: Config, s: State, run: seq<Input>, i: Input, side: ArmId, q: JointArray)
    ensures Grounded(c, s, run, side, q) || Gives(c, Run(c, s, run), i, side, q) ==> Grounded(c, s, run + [i], side, q)
  {
    hide *;
    if Grounded(c, s, run, side, q) {
      GroundedExtends(c, s, run, i, side, q);
    } else if Gives(c, Run(c, s, run), i, side, q) {
      GroundedNow(c, s, run, i, side, q);
    }
  }

  lemma StartsGrounded(c: Config, s: State, side: ArmId)
    requires Initial(c, s)
    ensures var a := ArmOf(s, side);
      && Grounded(c, s, [], side, a.prev)
      && Grounded(c, s, [], side, a.prevprev)
      && Grounded(c, s, [], side, a.faultHold)
  {}
}
