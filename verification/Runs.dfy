/** What holds over whole runs of the servo loop, whatever commands, readings and send outcomes occur. */
module Runs {
  import opened Types
  import opened Tick
  import Safety

  // ---- The safety policy inside a tick -----------------------------------------------------------

  predicate Lost(c: Config, s: State, i: Input) {
    Safety.OffTrack(c.safety, s.left.prev, i.left) || Safety.OffTrack(c.safety, s.right.prev, i.right)
  }

  /** With valid readings the filter reports a tracking error exactly when an arm is off track, never a
      robot state error: that branch of the safety policy cannot be reached from a tick. */
  lemma ValidReadingsDecide(c: Config, s: State, desired: Target, i: Input, dt: real)
    requires BothValid(c, i)
    ensures var v := Combined(CheckLeft(c, s, desired, i, dt), CheckRight(c, s, desired, i, dt));
            v != RobotStateError && (v == TrackingError <==> Lost(c, s, i))
    ensures !Lost(c, s, i) ==>
      ApplySafety(c, s, desired, i, dt).state == s
      && ApplySafety(c, s, desired, i, dt).target
      == Target(Safety.FilteredPose(c.safety, desired.left, s.left.prev, s.left.prevprev, dt),
                Safety.FilteredPose(c.safety, desired.right, s.right.prev, s.right.prevprev, dt))
  {}

  // ---- Faults ------------------------------------------------------------------------------------

  /** What every tick keeps about the fault fields and the motion state. */
  predicate Bookkept(s: State) {
    FaultsAgree(s) && s.motion != Disconnected
  }

  lemma LatchKeepsBooks(c: Config, s: State, v: Verdict, text: string, l: RobotState, r: RobotState)
    requires Bookkept(s) && v != Ok && text != ""
    ensures Bookkept(Latch(c, s, v, text, l, r))
  {}

  lemma AdmittedKeepsBooks(c: Config, s: State, i: Input)
    requires Bookkept(s)
    ensures Bookkept(Admitted(c, s, i))
  {}

  lemma SafetyKeepsBooks(c: Config, s: State, desired: Target, i: Input, dt: real)
    requires Bookkept(s)
    ensures Bookkept(ApplySafety(c, s, desired, i, dt).state)
  {
    hide Latch;
    hide CheckLeft;
    hide CheckRight;
    hide Combined;
    LatchKeepsBooks(c, s, TrackingError, "tracking error exceeded threshold", i.left, i.right);
    LatchKeepsBooks(c, s, RobotStateError, "robot state error or disconnected", i.left, i.right);
  }

  lemma DecideKeepsBooks(c: Config, s: State, cmd: DualCommand, i: Input, dt: real)
    requires Bookkept(s)
    ensures Bookkept(Decide(c, s, cmd, i, dt).state)
  {
    hide Latch;
    hide ApplySafety;
    hide Desired;
    hide BothValid;
    hide RequestsMotion;
    LatchKeepsBooks(c, s, RobotStateError, "robot state read failed or invalid", i.left, i.right);
    if !s.latched {
      var s1 := Executing(s, cmd);
      SafetyKeepsBooks(c, s1, Desired(c, s1, cmd, dt), i, dt);
    }
  }

  lemma TickKeepsBooks(c: Config, s: State, i: Input)
    requires Bookkept(s)
    ensures Bookkept(After(c, s, i))
  {
    hide Latch;
    hide Admitted;
    hide Obeyed;
    hide Decide;
    hide FilterDt;
    AdmittedKeepsBooks(c, Started(s, i), i);
    DecideKeepsBooks(c, Admitted(c, Started(s, i), i), Obeyed(c, Started(s, i), i), i, Dt(c, s, i));
    LatchKeepsBooks(c, Decided(c, s, i).state, SendFailure, "sendServoJ failed", i.left, i.right);
  }

  /** In every state the loop can reach, the fault fields agree. */
  lemma {:induction false} BooksAlwaysKept(c: Config, s: State, run: seq<Input>)
    requires Initial(c, s)
    ensures Bookkept(Run(c, s, run))
  {
    if run != [] {
      BooksAlwaysKept(c, s, run[..|run| - 1]);
      TickKeepsBooks(c, Run(c, s, run[..|run| - 1]), run[|run| - 1]);
    }
  }

  predicate Clears(s: State, i: Input) {
    RequestOf(i.command) == Reset && s.latched
  }

  /** The first reason to latch in a tick that starts unlatched or clears the latch, or Ok. */
  function Cause(c: Config, s: State, i: Input): Verdict {
    var s1 := Admitted(c, Started(s, i), i);
    if RequestOf(i.command) == Emergency then EmergencyStopped
    else if !BothValid(c, i) && LatchesStateError(c) then RobotStateError
    else if BothValid(c, i) && CommandVerdict(Obeyed(c, Started(s, i), i)) == Ok
            && c.safety.trackingPolicy == TrackingErrorPolicy.FaultLatch && Lost(c, s1, i) then TrackingError
    else if SendFailed(i) && LatchesSendFailure(c) then SendFailure
    else Ok
  }

  /** What a latch captures: for each arm its valid reading or else the pose last sent. */
  predicate Captures(c: Config, s: State, i: Input, t: State) {
    FaultHold(t) == Target(SafeHold(c.safety, i.left, s.left.prev), SafeHold(c.safety, i.right, s.right.prev))
  }

  /** The latch state after the middle of a tick that started it unlatched. */
  lemma DecideLatches(c: Config, s: State, cmd: DualCommand, i: Input, dt: real)
    requires !s.latched && s.reason == Ok
    ensures
      var t := Decide(c, s, cmd, i, dt).state;
      && t.left.prev == s.left.prev && t.right.prev == s.right.prev
      && (t.latched <==> t.reason != Ok) && (t.latched ==> Captures(c, s, i, t))
      && t.reason == (if !BothValid(c, i) then (if LatchesStateError(c) then RobotStateError else Ok)
                      else if CommandVerdict(cmd) == Ok && c.safety.trackingPolicy == TrackingErrorPolicy.FaultLatch
                              && Lost(c, s, i) then TrackingError
                      else Ok)
  {
    hide SafeHold;
    hide ValidReading;
    hide CommandVerdict;
    hide Desired;
    if BothValid(c, i) {
      var s1 := Executing(s, cmd);
      var desired := Desired(c, s1, cmd, dt);
      hide CheckLeft;
      hide CheckRight;
      hide Combined;
      ValidReadingsDecide(c, s1, desired, i, dt);
      LostUnmoved(c, s, cmd, i);
    }
  }

  lemma LostUnmoved(c: Config, s: State, cmd: DualCommand, i: Input)
    ensures Lost(c, Executing(s, cmd), i) == Lost(c, s, i)
  {}

  lemma SendLatches(c: Config, d: Decision, i: Input)
    requires d.state.latched <==> d.state.reason != Ok
    ensures
      var t := Booked(AfterSend(c, d, i), d.target, i);
      && (t.latched <==> t.reason != Ok)
      && (d.state.latched ==> t.reason == d.state.reason && FaultHold(t) == FaultHold(d.state))
      && (!d.state.latched ==>
            && t.reason == (if SendFailed(i) && LatchesSendFailure(c) then SendFailure else Ok)
            && (t.latched ==> Captures(c, d.state, i, t)))
  {}

  lemma AdmittedLatches(c: Config, s: State, i: Input)
    requires Bookkept(s) && (!s.latched || Clears(s, i))
    ensures
      var t := Admitted(c, s, i);
      && (t.latched <==> t.reason != Ok)
      && t.reason == (if RequestOf(i.command) == Emergency then EmergencyStopped else Ok)
      && (t.latched ==> Captures(c, t, i, t))
  {}

  lemma LatchedDecide(c: Config, s: State, cmd: DualCommand, i: Input, dt: real)
    requires s.latched
    ensures var d := Decide(c, s, cmd, i, dt);
            d.state == s && d.target == if BothValid(c, i) || LatchesStateError(c) then FaultHold(s) else LastSent(s)
  {}

  /** A tick latches exactly when it has a cause, keeps the first one as the reason, and captures for
      each arm its valid reading or else the pose last sent before this tick. */
  lemma TickLatches(c: Config, s: State, i: Input)
    requires Bookkept(s) && (!s.latched || Clears(s, i))
    ensures var t := After(c, s, i);
      && t.reason == Cause(c, s, i)
      && (t.latched <==> Cause(c, s, i) != Ok)
      && (t.latched ==> Captures(c, Admitted(c, Started(s, i), i), i, t))
  {
    hide SafeHold;
    hide Decide;
    hide Admitted;
    hide Obeyed;
    hide FilterDt;
    hide Booked;
    hide AfterSend;
    hide RequestOf;
    hide BothValid;
    hide Lost;
    hide CommandVerdict;
    hide SendFailed;
    hide Captures;
    var s1, cmd, dt := Admitted(c, Started(s, i), i), Obeyed(c, Started(s, i), i), Dt(c, s, i);
    AdmittedLatches(c, Started(s, i), i);
    if s1.latched {
      LatchedDecide(c, s1, cmd, i, dt);
      SendLatches(c, Decided(c, s, i), i);
      CapturesSame(c, s1, i, s1, After(c, s, i));
    } else {
      DecideLatches(c, s1, cmd, i, dt);
      SendLatches(c, Decided(c, s, i), i);
      CapturesSame(c, s1, i, Decided(c, s, i).state, After(c, s, i));
      SamePoses(c, s1, Decided(c, s, i).state, i, After(c, s, i));
    }
  }

  lemma CapturesSame(c: Config, s: State, i: Input, t: State, u: State)
    ensures FaultHold(t) == FaultHold(u) ==> Captures(c, s, i, t) == Captures(c, s, i, u)
  {}

  lemma SamePoses(c: Config, s: State, t: State, i: Input, u: State)
    ensures s.left.prev == t.left.prev && s.right.prev == t.right.prev ==> Captures(c, s, i, u) == Captures(c, t, i, u)
  {}

  // ---- While latched -----------------------------------------------------------------------------

  predicate NoReset(run: seq<Input>) {
    forall k :: 0 <= k < |run| ==> RequestOf(run[k].command) != Reset
  }

  predicate SameLatch(s: State, t: State) {
    t.latched == s.latched && t.reason == s.reason && t.reasonText == s.reasonText && FaultHold(t) == FaultHold(s)
  }

  lemma LatchedTick(c: Config, s: State, i: Input)
    requires s.latched && RequestOf(i.command) != Reset
    ensures SameLatch(s, After(c, s, i))
    ensures ReportOf(c, s, i).target == if BothValid(c, i) || LatchesStateError(c) then FaultHold(s) else LastSent(s)
  {
    hide RequestOf;
    hide BothValid;
    hide Decide;
    hide Obeyed;
    hide FilterDt;
    LatchedDecide(c, Admitted(c, Started(s, i), i), Obeyed(c, Started(s, i), i), i, Dt(c, s, i));
  }

  lemma {:induction false} LatchPersists(c: Config, s: State, run: seq<Input>)
    requires s.latched && NoReset(run)
    ensures SameLatch(s, Run(c, s, run))
  {
    if run != [] {
      var before := run[..|run| - 1];
      LatchPersists(c, s, before);
      hide After;
      LatchedTick(c, Run(c, s, before), run[|run| - 1]);
    }
  }

  /** From a latch until a reset the reason stays the first one, and every target sent to both arms is
      the pose captured at the latch, whatever commands, readings and send outcomes occur; only a loop
      that ignores bad readings sends the last pose again on a tick with one. */
  lemma LatchedUntilReset(c: Config, s: State, i: Input, run: seq<Input>, next: Input)
    requires Bookkept(s) && (!s.latched || Clears(s, i)) && Cause(c, s, i) != Ok
    requires NoReset(run + [next])
    ensures
      var u := Run(c, s, [i] + run);
      var s1 := Admitted(c, Started(s, i), i);
      && u.latched && u.reason == Cause(c, s, i)
      && ReportOf(c, u, next).target ==
         (if BothValid(c, next) || LatchesStateError(c)
          then Target(SafeHold(c.safety, i.left, s1.left.prev), SafeHold(c.safety, i.right, s1.right.prev))
          else LastSent(u))
  {
    var t, u := After(c, s, i), Run(c, s, [i] + run);
    TickLatches(c, s, i);
    assert NoReset(run) by {
      assert forall k :: 0 <= k < |run| ==> run[k] == (run + [next])[k];
    }
    assert next == (run + [next])[|run|];
    RunCons(c, s, i, run);
    LatchPersists(c, t, run);
    hide After;
    hide ReportOf;
    hide Admitted;
    hide Cause;
    LatchedTick(c, u, next);
  }

  lemma {:induction false} RunCons(c: Config, s: State, i: Input, run: seq<Input>)
    ensures Run(c, s, [i] + run) == Run(c, After(c, s, i), run)
  {
    hide After;
    if run == [] {
      assert [i] + run == [] + [i];
      RunSnoc(c, s, [], i);
    } else {
      var before, last := run[..|run| - 1], run[|run| - 1];
      RunCons(c, s, i, before);
      assert [i] + run == ([i] + before) + [last];
      RunSnoc(c, s, [i] + before, last);
    }
  }

  // ---- Arming ------------------------------------------------------------------------------------

  predicate Disarming(r: Request) {
    r == Emergency || r == Reset || r == Disarm
  }

  /** Motion is allowed after a tick exactly when it armed the unlatched loop or motion was allowed and
      nothing disarmed it, and the tick ends unlatched. */
  lemma TickArms(c: Config, s: State, i: Input)
    requires Bookkept(s)
    ensures
      var r, t := RequestOf(i.command), After(c, s, i);
      MotionAllowed(t) <==>
        !t.latched && ((r == ArmForMotion && !s.latched) || (MotionAllowed(s) && !Disarming(r)))
  {
    hide RequestOf;
    hide Decide;
    hide FilterDt;
    hide HoldAt;
    hide SafeHold;
    var s1, cmd := Admitted(c, Started(s, i), i), Obeyed(c, Started(s, i), i);
    TickKeepsBooks(c, s, i);
    AdmittedKeepsBooks(c, Started(s, i), i);
    ObeyedMotion(c, Started(s, i), i);
    DecideMotion(c, s1, cmd, i, Dt(c, s, i));
  }

  /** The tick obeys a motion command only when motion was already allowed before it. */
  lemma ObeyedMotion(c: Config, s: State, i: Input)
    ensures RequestsMotion(Obeyed(c, s, i)) ==>
              MotionAllowed(s) && RequestOf(i.command) == Move && Obeyed(c, s, i) == i.command
  {}

  lemma DecideMotion(c: Config, s: State, cmd: DualCommand, i: Input, dt: real)
    ensures var t := Decide(c, s, cmd, i, dt).state;
            !t.latched ==>
              !s.latched && t.motion == if BothValid(c, i) && RequestsMotion(cmd) then Running else s.motion
  {
    hide BothValid;
    hide RequestsMotion;
    hide Desired;
    hide CheckLeft;
    hide CheckRight;
    hide Combined;
    hide SafeHold;
  }

  /** Tick k of the run delivered an effective ArmMotion to the unlatched loop, and since then nothing
      disarmed it and no fault was latched. */
  ghost predicate ArmedSince(c: Config, s: State, run: seq<Input>, k: nat) {
    && k < |run|
    && RequestOf(run[k].command) == ArmForMotion && !Run(c, s, run[..k]).latched
    && (forall j :: k < j < |run| ==> !Disarming(RequestOf(run[j].command)))
    && (forall j :: k < j <= |run| ==> !Run(c, s, run[..j]).latched)
  }

  lemma ArmedSinceSnoc(c: Config, s: State, run: seq<Input>, i: Input, k: nat)
    requires k < |run|
    ensures ArmedSince(c, s, run + [i], k) <==>
      ArmedSince(c, s, run, k) && !Disarming(RequestOf(i.command)) && !Run(c, s, run + [i]).latched
  {
    hide After;
    hide Run;
    hide RequestOf;
    hide Disarming;
    var run1 := run + [i];
    assert run1[..|run1|] == run1;
    assert forall j :: 0 <= j <= |run| ==> run1[..j] == run[..j];
    assert forall j :: 0 <= j < |run| ==> run1[j] == run[j];
    assert run1[|run|] == i;
    if ArmedSince(c, s, run1, k) {
      forall j | k < j < |run| ensures !Disarming(RequestOf(run[j].command)) {
        assert !Disarming(RequestOf(run1[j].command));
      }
      forall j | k < j <= |run| ensures !Run(c, s, run[..j]).latched {
        assert !Run(c, s, run1[..j]).latched;
      }
    }
  }

  /** Over every run the loop is in ArmedHold or Running exactly when some tick armed it since. */
  lemma {:induction false} ArmingGate(c: Config, s: State, run: seq<Input>)
    requires Initial(c, s)
    ensures MotionAllowed(Run(c, s, run)) <==> exists k: nat :: ArmedSince(c, s, run, k)
  {
    if run != [] {
      hide *;
      var before, i := run[..|run| - 1], run[|run| - 1];
      assert run == before + [i];
      ArmingGate(c, s, before);
      BooksAlwaysKept(c, s, before);
      RunSnoc(c, s, before, i);
      TickArms(c, Run(c, s, before), i);
      ArmingStep(c, s, before, i);
    } else {
      assert !MotionAllowed(Run(c, s, run)) by { InitialHolds(c, s); }
      assert forall k: nat :: !ArmedSince(c, s, run, k);
    }
  }

  lemma InitialHolds(c: Config, s: State)
    requires Initial(c, s)
    ensures !MotionAllowed(s) && Run(c, s, []) == s
  {}

  lemma ArmingStep(c: Config, s: State, before: seq<Input>, i: Input)
    requires MotionAllowed(Run(c, s, before)) <==> exists k: nat :: ArmedSince(c, s, before, k)
    requires
      var r, t := RequestOf(i.command), Run(c, s, before);
      var u := Run(c, s, before + [i]);
      MotionAllowed(u) <==> !u.latched && ((r == ArmForMotion && !t.latched) || (MotionAllowed(t) && !Disarming(r)))
    ensures MotionAllowed(Run(c, s, before + [i])) <==> exists k: nat :: ArmedSince(c, s, before + [i], k)
  {
    hide After;
    hide Run;
    hide RequestOf;
    hide Disarming;
    var run := before + [i];
    forall k: nat | k < |before| {
      ArmedSinceSnoc(c, s, before, i, k);
    }
    ArmedNow(c, s, before, i);
    assert forall k: nat :: ArmedSince(c, s, run, k) ==> k < |run|;
    assert forall k: nat :: ArmedSince(c, s, before, k) ==> k < |before|;
    hide ArmedSince;
  }

  lemma ArmedNow(c: Config, s: State, before: seq<Input>, i: Input)
    ensures ArmedSince(c, s, before + [i], |before|) <==>
      RequestOf(i.command) == ArmForMotion && !Run(c, s, before).latched && !Run(c, s, before + [i]).latched
  {
    hide Run;
    hide RequestOf;
    var run := before + [i];
    assert run[..|before|] == before && run[..|run|] == run;
  }

  /** A motion payload is obeyed only on a tick of an armed loop, unchanged: on every other tick of any run
      both arms are asked, in the state the command is executed in, for their last sent pose. */
  lemma MotionNeedsArming(c: Config, s: State, run: seq<Input>, i: Input)
    requires Initial(c, s)
    ensures
      var t := Run(c, s, run);
      var cmd, s1 := ReportOf(c, t, i).command, Admitted(c, Started(t, i), i);
      && (RequestsMotion(cmd) ==>
            && RequestOf(i.command) == Move && cmd == i.command
            && exists k: nat :: ArmedSince(c, s, run, k))
      && (!RequestsMotion(cmd) ==> Desired(c, s1, cmd, Dt(c, t, i)) == LastSent(s1))
  {
    hide After;
    hide Decided;
    hide ArmedSince;
    hide Admitted;
    hide Obeyed;
    hide CommandVerdict;
    hide Dt;
    var t := Run(c, s, run);
    ArmingGate(c, s, run);
    ObeyedMotion(c, Started(t, i), i);
  }
}
