/** Messages, buffer and servo loop together: any interleaving of arriving messages and ticks. */
module EndToEnd {
  import opened Types
  import opened Tick
  import opened Runs
  import opened Envelope
  import opened ServoSettling
  import Buffer
  import CommandServer
  import MessageTable
  import TickTable

  datatype Event =
    | Message(root: CommandServer.Json, time: nat)
    | TickAt(start: nat, stateOk: bool, left: RobotState, right: RobotState, leftSent: bool, rightSent: bool)

  datatype System = System(history: Buffer.History, servo: State)

  function InputAt(y: System, e: Event): Input
    requires e.TickAt?
  {
    Input(e.start, e.stateOk, e.left, e.right, Buffer.Answer(y.history, e.start), e.leftSent, e.rightSent)
  }

  /** A message reaches the buffer when the parser accepts it; a tick polls the buffer. */
  function Step(c: Config, configTimeout: Number, y: System, e: Event): System {
    match e
    case Message(root, time) =>
      if CommandServer.Acceptable(root, configTimeout, time) then
        y.(history := y.history + [Buffer.Received(CommandServer.Meaning(root.fields, configTimeout, time))])
      else y
    case TickAt(start, _, _, _, _, _) =>
      System(y.history + [Buffer.Polled(start)], After(c, y.servo, InputAt(y, e)))
  }

  function Steps(c: Config, configTimeout: Number, y: System, events: seq<Event>): System {
    if events == [] then y
    else Step(c, configTimeout, Steps(c, configTimeout, y, events[..|events| - 1]), events[|events| - 1])
  }

  /** The inputs the ticks of a system run get. */
  function Inputs(c: Config, configTimeout: Number, y: System, events: seq<Event>): seq<Input> {
    if events == [] then []
    else
      var before, e := events[..|events| - 1], events[|events| - 1];
      Inputs(c, configTimeout, y, before)
      + if e.TickAt? then [InputAt(Steps(c, configTimeout, y, before), e)] else []
  }

  /** Every system run is a run of the servo loop, so whatever holds over its runs holds here. */
  lemma {:induction false} SystemRunsTheLoop(c: Config, configTimeout: Number, y: System, events: seq<Event>)
    ensures Steps(c, configTimeout, y, events).servo == Run(c, y.servo, Inputs(c, configTimeout, y, events))
  {
    if events != [] {
      var before, e := events[..|events| - 1], events[|events| - 1];
      SystemRunsTheLoop(c, configTimeout, y, before);
      hide After;
      hide InputAt;
      hide CommandServer.Acceptable;
      if e.TickAt? {
        RunSnoc(c, y.servo, Inputs(c, configTimeout, y, before), InputAt(Steps(c, configTimeout, y, before), e));
      } else {
        var inputs := Inputs(c, configTimeout, y, before);
        assert inputs + [] == inputs;
      }
    }
  }

  /** The arm has the payload its mode needs. */
  predicate Executable(cmd: DualCommand) {
    !MissingPayload(cmd.left) && !MissingPayload(cmd.right)
  }

  /** The payload of the arm's motion mode is exactly the six finite values of the object. */
  predicate Carries(a: ArmCommand, o: CommandServer.Fields) {
    && (a.mode == JointTarget ==> MessageTable.HasSix(o, "q_target_deg", a.qTarget))
    && (a.mode == JointVelocity ==> MessageTable.HasSix(o, "dq_target_deg_s", a.dqTarget))
    && (a.mode == TcpPoseTarget ==> MessageTable.HasSix(o, "tcp_target_stand", a.tcpTarget))
    && (a.mode == TcpDeltaStand ==> MessageTable.HasSix(o, "tcp_delta_stand", a.tcpDeltaStand))
    && (a.mode == TcpDeltaLocal ==> MessageTable.HasSix(o, "tcp_delta_local", a.tcpDeltaLocal))
  }

  lemma ArmCarries(o: CommandServer.Fields, key: string, configTimeout: Number, time: nat, a: ArmCommand)
    requires MessageTable.ArmFrom(o, key, configTimeout, time, a) && MessageTable.HasPayload(a)
    ensures Carries(a, MessageTable.PayloadSource(o, key))
    ensures MessageTable.ModeFrom(o, MessageTable.Own(o, key), a.mode)
    ensures MessageTable.TimeoutFrom(o, MessageTable.Own(o, key), configTimeout, a.timeout)
    ensures a.timeout.Finite? && 0.0 < a.timeout.r
  {
    hide CommandServer.ModeNamed;
    hide MessageTable.SixItems;
    hide MessageTable.ForceFrom;
    hide MessageTable.GripperFrom;
  }

  /** An accepted message becomes a command with positive timeouts whose motion modes carry exactly the
      six finite values of the message, item by item; each arm ends with its own mode and timeout, or else
      the ones of the message. */
  lemma AcceptedMeans(root: CommandServer.Json, configTimeout: Number, time: nat)
    requires CommandServer.Acceptable(root, configTimeout, time)
    ensures
      var cmd, o := CommandServer.Meaning(root.fields, configTimeout, time), root.fields;
      && cmd.hostTime == time && Executable(cmd)
      && cmd.left.timeout.Finite? && 0.0 < cmd.left.timeout.r
      && cmd.right.timeout.Finite? && 0.0 < cmd.right.timeout.r
      && Carries(cmd.left, MessageTable.PayloadSource(o, "left"))
      && Carries(cmd.right, MessageTable.PayloadSource(o, "right"))
      && MessageTable.ModeFrom(o, MessageTable.Own(o, "left"), cmd.left.mode)
      && MessageTable.ModeFrom(o, MessageTable.Own(o, "right"), cmd.right.mode)
      && MessageTable.TimeoutFrom(o, MessageTable.Own(o, "left"), configTimeout, cmd.left.timeout)
      && MessageTable.TimeoutFrom(o, MessageTable.Own(o, "right"), configTimeout, cmd.right.timeout)
  {
    var cmd, o := CommandServer.Meaning(root.fields, configTimeout, time), root.fields;
    MessageTable.MessageMeans(root, configTimeout, time);
    MessageTable.PayloadNeeded(cmd.left);
    MessageTable.PayloadNeeded(cmd.right);
    ArmCarries(o, "left", configTimeout, time, cmd.left);
    ArmCarries(o, "right", configTimeout, time, cmd.right);
    hide CommandServer.Acceptable;
    hide CommandServer.Meaning;
    hide Carries;
    hide MissingPayload;
    hide MessageTable.ArmFrom;
    hide MessageTable.HasPayload;
    hide MessageTable.ModeFrom;
    hide MessageTable.TimeoutFrom;
  }

  ghost predicate AllExecutable(h: Buffer.History) {
    forall k :: 0 <= k < |h| ==> h[k].Received? ==> Executable(h[k].command)
  }

  lemma AnswerIsExecutable(h: Buffer.History, now: nat)
    requires AllExecutable(h)
    ensures Executable(Buffer.Answer(h, now))
  {}

  /** InvalidCommand is reported only for a command that lacks a payload. */
  lemma InvalidMeansMissing(c: Config, s: State, i: Input)
    ensures ReportOf(c, s, i).verdict == InvalidCommand ==> !Executable(Obeyed(c, Started(s, i), i))
  {}

  lemma ObeyedIsExecutable(c: Config, s: State, i: Input)
    requires Executable(i.command)
    ensures Executable(Obeyed(c, s, i))
  {}

  lemma {:induction false} OnlyExecutableArrive(c: Config, configTimeout: Number, y: System, events: seq<Event>)
    requires AllExecutable(y.history)
    ensures AllExecutable(Steps(c, configTimeout, y, events).history)
  {
    if events != [] {
      var before, e := events[..|events| - 1], events[|events| - 1];
      OnlyExecutableArrive(c, configTimeout, y, before);
      hide After;
      hide Executable;
      hide CommandServer.Acceptable;
      hide CommandServer.Meaning;
      if e.Message? && CommandServer.Acceptable(e.root, configTimeout, e.time) {
        AcceptedMeans(e.root, configTimeout, e.time);
      }
    }
  }

  /** Whatever messages arrive, and however they interleave with the ticks, no tick ever reports an
      invalid command. */
  lemma NeverInvalid(c: Config, configTimeout: Number, s: State, events: seq<Event>, e: Event)
    requires e.TickAt?
    ensures
      var y := Steps(c, configTimeout, System([], s), events);
      ReportOf(c, y.servo, InputAt(y, e)).verdict != InvalidCommand
  {
    var y := Steps(c, configTimeout, System([], s), events);
    OnlyExecutableArrive(c, configTimeout, System([], s), events);
    hide *;
    var i := InputAt(y, e);
    AnswerIsExecutable(y.history, e.start);
    CommandOfInput(y, e);
    ObeyedIsExecutable(c, Started(y.servo, i), i);
    InvalidMeansMissing(c, y.servo, i);
  }

  lemma CommandOfInput(y: System, e: Event)
    requires e.TickAt?
    ensures InputAt(y, e).command == Buffer.Answer(y.history, e.start)
  {}

  // ---- What the buffer holds is what was accepted ------------------------------------------------

  /** An accepted message arrives as what it means, a refused one leaves no trace, and a tick polls. */
  function HeardOne(configTimeout: Number, e: Event): Buffer.History {
    match e
    case Message(root, time) =>
      if CommandServer.Acceptable(root, configTimeout, time)
      then [Buffer.Received(CommandServer.Meaning(root.fields, configTimeout, time))]
      else []
    case TickAt(start, _, _, _, _, _) => [Buffer.Polled(start)]
  }

  /** The arrivals and polls of a system run. */
  function Heard(configTimeout: Number, events: seq<Event>): Buffer.History {
    if events == [] then []
    else Heard(configTimeout, events[..|events| - 1]) + HeardOne(configTimeout, events[|events| - 1])
  }

  lemma StepIsHeard(c: Config, configTimeout: Number, y: System, e: Event)
    ensures Step(c, configTimeout, y, e).history == y.history + HeardOne(configTimeout, e)
  {
    hide After;
    hide InputAt;
    hide CommandServer.Acceptable;
    hide CommandServer.Meaning;
  }

  lemma {:induction false} HistoryIsHeard(c: Config, configTimeout: Number, y: System, events: seq<Event>)
    ensures Steps(c, configTimeout, y, events).history == y.history + Heard(configTimeout, events)
  {
    if events != [] {
      HistoryIsHeard(c, configTimeout, y, events[..|events| - 1]);
      StepIsHeard(c, configTimeout, Steps(c, configTimeout, y, events[..|events| - 1]), events[|events| - 1]);
      hide Step;
      hide HeardOne;
    }
  }

  /** The command is the answer to a poll at some point of the history. */
  ghost predicate Answered(h: Buffer.History, command: DualCommand) {
    exists p, now :: 0 <= p <= |h| && command == Buffer.Answer(h[..p], now)
  }

  lemma {:induction false} InputsAreAnswers(c: Config, configTimeout: Number, y: System, events: seq<Event>)
    ensures
      var h, inputs := Steps(c, configTimeout, y, events).history, Inputs(c, configTimeout, y, events);
      forall k :: 0 <= k < |inputs| ==> Answered(h, inputs[k].command)
  {
    if events != [] {
      var before, e := events[..|events| - 1], events[|events| - 1];
      InputsAreAnswers(c, configTimeout, y, before);
      var h0, h := Steps(c, configTimeout, y, before).history, Steps(c, configTimeout, y, events).history;
      var inputs := Inputs(c, configTimeout, y, events);
      StepExtends(c, configTimeout, Steps(c, configTimeout, y, before), e);
      hide Step;
      hide Buffer.Answer;
      hide Answered;
      hide InputAt;
      forall k | 0 <= k < |inputs| ensures Answered(h, inputs[k].command) {
        if k < |Inputs(c, configTimeout, y, before)| {
          assert inputs[k] == Inputs(c, configTimeout, y, before)[k];
          AnsweredExtends(h0, h, inputs[k].command);
        } else {
          assert e.TickAt? && inputs[k] == InputAt(Steps(c, configTimeout, y, before), e);
          CommandOfInput(Steps(c, configTimeout, y, before), e);
          AnsweredNow(h0, h, e.start);
        }
      }
    }
  }

  lemma StepExtends(c: Config, configTimeout: Number, y: System, e: Event)
    ensures
      var z := Step(c, configTimeout, y, e);
      |y.history| <= |z.history| && z.history[..|y.history|] == y.history
  {
    hide After;
    hide InputAt;
    hide CommandServer.Acceptable;
    hide CommandServer.Meaning;
  }

  lemma AnsweredNow(g: Buffer.History, h: Buffer.History, now: nat)
    requires |g| <= |h| && h[..|g|] == g
    ensures Answered(h, Buffer.Answer(g, now))
  {
    hide Buffer.Answer;
    assert Buffer.Answer(g, now) == Buffer.Answer(h[..|g|], now);
  }

  lemma AnsweredExtends(g: Buffer.History, h: Buffer.History, command: DualCommand)
    requires |g| <= |h| && h[..|g|] == g && Answered(g, command)
    ensures Answered(h, command)
  {
    hide Buffer.Answer;
    var p, now :| 0 <= p <= |g| && command == Buffer.Answer(g[..p], now);
    assert g[..p] == h[..p];
  }

  /** A lifecycle command that was answered had arrived. */
  lemma LifecycleArrived(h: Buffer.History, command: DualCommand)
    requires Answered(h, command) && Buffer.IsLifecycleCommand(command)
    ensures exists m: nat :: Buffer.LifecycleAt(h, m) && h[m] == Buffer.Received(command)
  {
    hide Buffer.Answer;
    hide Buffer.Replay;
    hide Buffer.Usable;
    var p, now :| 0 <= p <= |h| && command == Buffer.Answer(h[..p], now);
    var g := h[..p];
    Buffer.AnswerCases(g, now);
    Buffer.EveryHistoryIsAccounted(g);
    var s := Buffer.Replay(g);
    var n := Buffer.Stale(g, s.pending, now);
    if n < |s.pending| {
      assert Buffer.LifecycleAt(g, s.pending[n]);
      assert g[s.pending[n]] == h[s.pending[n]];
    }
  }

  // ---- Motion is what was asked for last ---------------------------------------------------------

  /** The command is the last one that arrived, is within its timeout, and follows the arrival of a command to
      arm the loop. */
  ghost predicate AskedLast(h: Buffer.History, command: DualCommand, now: nat) {
    exists j :: 0 <= j < |h| && h[j] == Buffer.Received(command) && Buffer.Timely(command, now)
      && (forall k :: j < k < |h| ==> h[k].Polled?)
      && exists m :: 0 <= m < j && h[m].Received?
           && (h[m].command.left.mode == ArmMotion || h[m].command.right.mode == ArmMotion)
  }

  lemma ArmingArrived(c: Config, configTimeout: Number, s: State, events: seq<Event>, k: nat)
    requires ArmedSince(c, s, Inputs(c, configTimeout, System([], s), events), k)
    ensures
      var h := Steps(c, configTimeout, System([], s), events).history;
      exists m: nat :: Buffer.LifecycleAt(h, m) && Requests(h[m].command, ArmMotion)
  {
    hide Buffer.Answer;
    hide Run;
    hide Steps;
    hide Inputs;
    var inputs := Inputs(c, configTimeout, System([], s), events);
    InputsAreAnswers(c, configTimeout, System([], s), events);
    LifecycleArrived(Steps(c, configTimeout, System([], s), events).history, inputs[k].command);
  }

  /** Whatever messages arrive, a tick that obeys a motion command obeys the last accepted message, unchanged
      and within its timeout, and an accepted message had asked to arm the loop before it. */
  lemma ObeyedMotionWasAsked(c: Config, configTimeout: Number, s: State, events: seq<Event>, e: Event)
    requires Initial(c, s) && e.TickAt?
    ensures
      var y := Steps(c, configTimeout, System([], s), events);
      var cmd := ReportOf(c, y.servo, InputAt(y, e)).command;
      && y.history == Heard(configTimeout, events)
      && (RequestsMotion(cmd) ==> AskedLast(y.history, cmd, e.start))
  {
    var y := Steps(c, configTimeout, System([], s), events);
    var i, inputs := InputAt(y, e), Inputs(c, configTimeout, System([], s), events);
    var cmd := ReportOf(c, y.servo, i).command;
    HistoryIsHeard(c, configTimeout, System([], s), events);
    hide *;
    SystemRunsTheLoop(c, configTimeout, System([], s), events);
    MotionNeedsArming(c, s, inputs, i);
    CommandOfInput(y, e);
    if RequestsMotion(cmd) {
      var k: nat :| ArmedSince(c, s, inputs, k);
      ArmingArrived(c, configTimeout, s, events, k);
      MoveIsMotion(i.command);
      MotionIsLast(y.history, e.start);
    }
  }

  /** A motion command the buffer answers with is the last arrival, after every lifecycle command. */
  lemma MotionIsLast(h: Buffer.History, now: nat)
    requires
      var a := Buffer.Answer(h, now);
      !Buffer.IsLifecycleCommand(a) && (a.left.mode != Hold || a.right.mode != Hold)
    requires exists m: nat :: Buffer.LifecycleAt(h, m) && Requests(h[m].command, ArmMotion)
    ensures AskedLast(h, Buffer.Answer(h, now), now)
  {
    hide Buffer.Answer;
    hide Buffer.Replay;
    hide Buffer.Usable;
    Buffer.MotionNeverOvertakes(h, now);
    Buffer.AnswerIsTimely(h, now);
    hide Buffer.Timely;
    var m: nat :| Buffer.LifecycleAt(h, m) && Requests(h[m].command, ArmMotion);
    assert m < |h|;
  }

  lemma MoveIsMotion(cmd: DualCommand)
    requires RequestOf(cmd) == Move
    ensures !Buffer.IsLifecycleCommand(cmd) && (cmd.left.mode != Hold || cmd.right.mode != Hold)
  {}

  // ---- Silence -----------------------------------------------------------------------------------

  /** No command received so far can still be used. */
  ghost predicate Silent(h: Buffer.History, now: nat) {
    forall k :: 0 <= k < |h| ==> h[k].Received? ==> !Buffer.Timely(h[k].command, now)
  }

  lemma SilenceIsHold(h: Buffer.History, now: nat)
    requires Silent(h, now)
    ensures Steers(Buffer.Answer(h, now), STAY)
  {
    hide Buffer.Answer;
    hide Buffer.Replay;
    hide Buffer.Usable;
    hide Buffer.Timely;
    hide Buffer.IsLifecycleCommand;
    forall k | 0 <= k < |h| && h[k].Received? ensures !Buffer.Usable(h[k].command, now) {
      Buffer.UsableMeans(h[k].command, now);
    }
    Buffer.AnswerCases(h, now);
    var s := Buffer.Replay(h);
    forall k | 0 <= k < |s.pending| ensures !Buffer.Usable(h[s.pending[k]].command, now) {
      assert Buffer.LifecycleAt(h, s.pending[k]);
    }
    Buffer.AllStale(h, s.pending, now);
  }

  /** Only ticks, each after the deadline of every command received before. */
  ghost predicate SilentTicks(h: Buffer.History, ticks: seq<Event>) {
    forall k :: 0 <= k < |ticks| ==> ticks[k].TickAt? && Silent(h, ticks[k].start)
  }

  /** One history is another followed by polls. */
  ghost predicate OnlyPolled(g: Buffer.History, h: Buffer.History) {
    |g| <= |h| && h[..|g|] == g && forall k :: |g| <= k < |h| ==> h[k].Polled?
  }

  lemma SilenceLasts(g: Buffer.History, h: Buffer.History, now: nat)
    requires OnlyPolled(g, h) && Silent(g, now)
    ensures Silent(h, now) && OnlyPolled(g, h + [Buffer.Polled(now)])
  {
    hide Buffer.Timely;
    forall k | 0 <= k < |h| && h[k].Received? ensures !Buffer.Timely(h[k].command, now) {
      assert h[k] == g[k];
    }
  }

  lemma TickPolls(c: Config, configTimeout: Number, y: System, ticks: seq<Event>)
    requires ticks != [] && ticks[|ticks| - 1].TickAt?
    ensures
      var before, e := ticks[..|ticks| - 1], ticks[|ticks| - 1];
      var z := Steps(c, configTimeout, y, before);
      && Steps(c, configTimeout, y, ticks).history == z.history + [Buffer.Polled(e.start)]
      && Inputs(c, configTimeout, y, ticks) == Inputs(c, configTimeout, y, before) + [InputAt(z, e)]
      && InputAt(z, e).command == Buffer.Answer(z.history, e.start)
  {
    hide After;
    hide Buffer.Answer;
  }

  lemma SteerSnoc(inputs: seq<Input>, i: Input, g: Goal)
    requires AllSteer(inputs, g) && Steers(i.command, g)
    ensures AllSteer(inputs + [i], g)
  {
    hide Steers;
  }

  lemma {:induction false} SilenceSteers(c: Config, configTimeout: Number, y: System, ticks: seq<Event>)
    requires SilentTicks(y.history, ticks)
    ensures
      var inputs := Inputs(c, configTimeout, y, ticks);
      |inputs| == |ticks| && AllSteer(inputs, STAY)
    ensures OnlyPolled(y.history, Steps(c, configTimeout, y, ticks).history)
  {
    if ticks != [] {
      var before, e := ticks[..|ticks| - 1], ticks[|ticks| - 1];
      assert SilentTicks(y.history, before) && e.TickAt? && Silent(y.history, e.start) by {
        hide Silent;
      }
      SilenceSteers(c, configTimeout, y, before);
      hide *;
      var z := Steps(c, configTimeout, y, before);
      SilenceLasts(y.history, z.history, e.start);
      SilenceIsHold(z.history, e.start);
      TickPolls(c, configTimeout, y, ticks);
      SteerSnoc(Inputs(c, configTimeout, y, before), InputAt(z, e), STAY);
    }
  }

  /** Once every command received has expired and no message arrives, an unlatched loop brings both arms to
      rest within their limits, from wherever the messages before had taken it. */
  lemma SilenceSettles(c: Config, configTimeout: Number, s: State, events: seq<Event>) returns (n: nat)
    requires SoundLimits(c.safety) && Accepted(c) && c.servo.rateHz <= SEC_NS && Initial(c, s)
    requires !Steps(c, configTimeout, System([], s), events).servo.latched
    ensures
      var y := Steps(c, configTimeout, System([], s), events);
      forall ticks :: SilentTicks(y.history, ticks) && n <= |ticks|
                      && UndisturbedRun(c, y.servo, Inputs(c, configTimeout, y, ticks)) ==>
        AllSettled(c, STAY, Steps(c, configTimeout, y, ticks).servo)
  {
    var y := Steps(c, configTimeout, System([], s), events);
    SystemRunsTheLoop(c, configTimeout, System([], s), events);
    BooksAlwaysKept(c, s, Inputs(c, configTimeout, System([], s), events));
    n := SteadyCommandSettles(c, y.servo, STAY);
    forall ticks | SilentTicks(y.history, ticks) && n <= |ticks|
                   && UndisturbedRun(c, y.servo, Inputs(c, configTimeout, y, ticks))
      ensures AllSettled(c, STAY, Steps(c, configTimeout, y, ticks).servo)
    {
      hide *;
      SilenceSteers(c, configTimeout, y, ticks);
      SystemRunsTheLoop(c, configTimeout, y, ticks);
    }
  }

  // ---- Emergency stops ---------------------------------------------------------------------------

  /** A tick of any system run that polls an emergency stop for either arm ends latched, and the reason is that
      stop unless the loop was latched before. */
  lemma PolledEmergencyLatches(c: Config, configTimeout: Number, s: State, events: seq<Event>, e: Event)
    requires Initial(c, s) && 0.0 <= c.safety.maxTrackingError && e.TickAt?
    ensures
      var y := Steps(c, configTimeout, System([], s), events);
      var cmd, t := Buffer.Answer(y.history, e.start), After(c, y.servo, InputAt(y, e));
      cmd.left.mode == EmergencyStop || cmd.right.mode == EmergencyStop ==>
        && t.latched
        && (!y.servo.latched ==> t.reason == EmergencyStopped && t.motion == EmergencyLatched)
  {
    var y := Steps(c, configTimeout, System([], s), events);
    var i := InputAt(y, e);
    SystemRunsTheLoop(c, configTimeout, System([], s), events);
    BooksAlwaysKept(c, s, Inputs(c, configTimeout, System([], s), events));
    CommandOfInput(y, e);
    hide After;
    hide Buffer.Answer;
    hide Steps;
    hide Inputs;
    hide InputAt;
    if i.command.left.mode == EmergencyStop || i.command.right.mode == EmergencyStop {
      if y.servo.latched {
        EmergencyIsNoReset(i.command);
        LatchedTick(c, y.servo, i);
      } else {
        TickTable.EmergencyStopLatches(c, y.servo, i);
      }
    }
  }

  lemma EmergencyIsNoReset(cmd: DualCommand)
    requires cmd.left.mode == EmergencyStop || cmd.right.mode == EmergencyStop
    ensures RequestOf(cmd) != Reset
  {}

  /** An accepted message that stops either arm latches the loop at the next tick, if that comes within the
      message's timeouts and finds no lifecycle command still in time before it. */
  lemma EmergencyMessageLatches(
      c: Config, configTimeout: Number, s: State, events: seq<Event>, root: CommandServer.Json, time: nat, e: Event)
    requires Initial(c, s) && 0.0 <= c.safety.maxTrackingError && e.TickAt?
    requires CommandServer.Acceptable(root, configTimeout, time)
    requires
      var cmd := CommandServer.Meaning(root.fields, configTimeout, time);
      (cmd.left.mode == EmergencyStop || cmd.right.mode == EmergencyStop) && Buffer.Timely(cmd, e.start)
    requires
      var h := Steps(c, configTimeout, System([], s), events).history;
      var p := Buffer.Replay(h).pending;
      forall k :: 0 <= k < |p| ==> !Buffer.Timely(h[p[k]].command, e.start)
    ensures
      var z := Steps(c, configTimeout, System([], s), events + [Message(root, time)]);
      After(c, z.servo, InputAt(z, e)).latched
  {
    var y := Steps(c, configTimeout, System([], s), events);
    var z := Steps(c, configTimeout, System([], s), events + [Message(root, time)]);
    var cmd := CommandServer.Meaning(root.fields, configTimeout, time);
    MessageArrives(c, configTimeout, System([], s), events, root, time);
    EmergencyIsAnswered(y.history, cmd, e.start);
    PolledEmergencyLatches(c, configTimeout, s, events + [Message(root, time)], e);
    hide After;
    hide Steps;
    hide InputAt;
    hide Buffer.Answer;
    hide Buffer.Timely;
    hide CommandServer.Acceptable;
    hide CommandServer.Meaning;
  }

  lemma MessageArrives(c: Config, configTimeout: Number, y: System, events: seq<Event>, root: CommandServer.Json,
                       time: nat)
    requires CommandServer.Acceptable(root, configTimeout, time)
    ensures Steps(c, configTimeout, y, events + [Message(root, time)]).history
         == Steps(c, configTimeout, y, events).history
            + [Buffer.Received(CommandServer.Meaning(root.fields, configTimeout, time))]
  {
    assert (events + [Message(root, time)])[..|events|] == events;
    hide After;
    hide CommandServer.Acceptable;
    hide CommandServer.Meaning;
  }

  lemma EmergencyIsAnswered(h: Buffer.History, cmd: DualCommand, now: nat)
    requires cmd.left.mode == EmergencyStop || cmd.right.mode == EmergencyStop
    requires Buffer.Timely(cmd, now)
    requires
      var p := Buffer.Replay(h).pending;
      forall k :: 0 <= k < |p| ==> !Buffer.Timely(h[p[k]].command, now)
    ensures Buffer.Answer(h + [Buffer.Received(cmd)], now) == cmd
  {
    var h1, p := h + [Buffer.Received(cmd)], Buffer.Replay(h).pending;
    Buffer.ReplayExtends(h, Buffer.Received(cmd));
    hide Buffer.Replay;
    hide Buffer.Timely;
    hide Buffer.Answer;
    var q := Buffer.Replay(h1).pending;
    var m := |q| - 1;
    assert q[m] == |h|;
    forall k | 0 <= k < m ensures !Buffer.Timely(h1[q[k]].command, now) {
      var i := if |p| < Buffer.MAX_PENDING then k else k + 1;
      assert q[k] == p[i];
    }
    Buffer.QueuedIsReturned(h1, now, m);
  }
}
