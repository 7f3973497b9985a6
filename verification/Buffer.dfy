/** The command buffer: a bounded queue of lifecycle commands beside a slot for the latest command.
    Its meaning is given by the history of arrivals and polls alone. */
module Buffer {
  import opened Types

  const MAX_PENDING: nat := 16

  const NS_PER_SEC: real := 1000000000.0

  datatype Event = Received(command: DualCommand) | Polled(now: nat)

  type History = seq<Event>

  predicate IsLifecycleCommand(c: DualCommand) {
    IsLifecycle(c.left.mode) || IsLifecycle(c.right.mode)
  }

  predicate ValidTimeout(t: Number) {
    t.Finite? && 0.0 < t.r
  }

  predicate Usable(c: DualCommand, now: nat) {
    && ValidTimeout(c.left.timeout) && ValidTimeout(c.right.timeout)
    && (c.hostTime == 0 || now <= c.hostTime + (Min(c.left.timeout.r, c.right.timeout.r) * NS_PER_SEC).Floor)
  }

  function MakeHold(now: nat): DualCommand {
    HoldCommand(now, ZERO6, ZERO6)
  }

  /** Event i of the history is the arrival of a lifecycle command. */
  predicate LifecycleAt(h: History, i: nat) {
    i < |h| && h[i].Received? && IsLifecycleCommand(h[i].command)
  }

  /** The positions of all lifecycle arrivals, in order. */
  function Arrivals(h: History): seq<nat> {
    if h == [] then []
    else
      var k := |h| - 1;
      Arrivals(h[..k]) + if LifecycleAt(h, k) then [k] else []
  }

  lemma {:induction false} ArrivalsAreAll(h: History)
    ensures forall k :: 0 <= k < |Arrivals(h)| ==> LifecycleAt(h, Arrivals(h)[k])
    ensures forall i, j :: 0 <= i < j < |Arrivals(h)| ==> Arrivals(h)[i] < Arrivals(h)[j]
    ensures forall i: nat :: LifecycleAt(h, i) ==> i in Arrivals(h)
  {
    if h != [] {
      var k := |h| - 1;
      var g := h[..k];
      ArrivalsAreAll(g);
      forall i | 0 <= i < |Arrivals(g)| ensures LifecycleAt(h, Arrivals(g)[i]) && Arrivals(g)[i] < k {
        assert LifecycleAt(g, Arrivals(g)[i]);
      }
      forall i: nat | LifecycleAt(h, i) ensures i in Arrivals(h) {
        if i != k {
          assert LifecycleAt(g, i);
        }
      }
    }
  }

  /** How lifecycle arrival `what` left the queue, and at which event. */
  datatype Departure =
    | Returned(what: nat, at: nat)
    | Expired(what: nat, at: nat)
    | PushedOut(what: nat, at: nat)

  /** Where each received command stands: the departed, the queued and the last arrival, as positions
      in the history. */
  datatype Standing = Standing(gone: seq<Departure>, pending: seq<nat>, last: Option<nat>)

  predicate Queued(h: History, pending: seq<nat>) {
    forall k :: 0 <= k < |pending| ==> LifecycleAt(h, pending[k])
  }

  predicate SomeArrival(h: History, last: Option<nat>) {
    last.Some? ==> last.value < |h| && h[last.value].Received?
  }

  /** The number of commands at the front of the queue that are no longer usable. */
  function Stale(h: History, pending: seq<nat>, now: nat): (n: nat)
    requires Queued(h, pending)
    ensures n <= |pending|
    ensures forall k :: 0 <= k < n ==> !Usable(h[pending[k]].command, now)
    ensures n < |pending| ==> Usable(h[pending[n]].command, now)
  {
    if pending == [] || Usable(h[pending[0]].command, now) then 0
    else
      var n := Stale(h, pending[1..], now);
      assert forall k :: 0 < k < |pending| ==> pending[k] == pending[1..][k - 1];
      n + 1
  }

  /** The number of commands a poll takes off the queue. */
  function Taken(h: History, pending: seq<nat>, now: nat): (m: nat)
    requires Queued(h, pending)
    ensures m <= |pending|
  {
    var n := Stale(h, pending, now);
    if n < |pending| then n + 1 else n
  }

  /** What a poll at position `at` takes off: the stale ones, then the one it returns. */
  function Departing(h: History, pending: seq<nat>, now: nat, at: nat): seq<Departure>
    requires Queued(h, pending)
  {
    seq(Taken(h, pending, now), k requires 0 <= k < Taken(h, pending, now) =>
      if k < Stale(h, pending, now) then Expired(pending[k], at) else Returned(pending[k], at))
  }

  /** The standing after event e, which follows history h. */
  function Next(h: History, s: Standing, e: Event): (r: Standing)
    requires Queued(h, s.pending) && SomeArrival(h, s.last)
    ensures Queued(h + [e], r.pending) && SomeArrival(h + [e], r.last)
  {
    var k := |h|;
    match e
    case Received(c) =>
      if !IsLifecycleCommand(c) then s.(last := Some(k))
      else if |s.pending| < MAX_PENDING then s.(pending := s.pending + [k], last := Some(k))
      else Standing(s.gone + [PushedOut(s.pending[0], k)], s.pending[1..] + [k], Some(k))
    case Polled(now) =>
      Standing(s.gone + Departing(h, s.pending, now, k), s.pending[Taken(h, s.pending, now)..], s.last)
  }

  function Replay(h: History): (r: Standing)
    ensures Queued(h, r.pending) && SomeArrival(h, r.last)
  {
    if h == [] then Standing([], [], None)
    else
      var k := |h| - 1;
      assert h == h[..k] + [h[k]];
      Next(h[..k], Replay(h[..k]), h[k])
  }

  lemma ReplayExtends(h: History, e: Event)
    ensures Replay(h + [e]) == Next(h, Replay(h), e)
    ensures Arrivals(h + [e]) == Arrivals(h) + if LifecycleAt(h + [e], |h|) then [|h|] else []
  {
    hide Usable;
    hide IsLifecycleCommand;
    hide Next;
    assert (h + [e])[..|h|] == h;
  }

  /** What the slot for the latest command holds: the last arrival, or a hold in place of a lifecycle command. */
  function Slot(h: History, last: Option<nat>): Option<DualCommand>
    requires SomeArrival(h, last)
  {
    if last.None? then None
    else
      var c := h[last.value].command;
      Some(if IsLifecycleCommand(c) then MakeHold(c.hostTime) else c)
  }

  lemma SlotExtends(h: History, e: Event, last: Option<nat>)
    requires SomeArrival(h, last)
    ensures Slot(h + [e], last) == Slot(h, last)
  {}

  /** The command a poll at time `now` gets after history h. */
  function Answer(h: History, now: nat): DualCommand {
    var s := Replay(h);
    var n := Stale(h, s.pending, now);
    if n < |s.pending| then h[s.pending[n]].command
    else
      var slot := Slot(h, s.last);
      if slot.Some? && Usable(slot.value, now) then slot.value else MakeHold(now)
  }

  // ---- What every history guarantees -------------------------------------------------------------

  function Whats(gone: seq<Departure>): seq<nat> {
    seq(|gone|, k requires 0 <= k < |gone| => gone[k].what)
  }

  /** Why the lifecycle arrival number n left the queue: a poll returned it while usable or dropped it
      when not, or the 16th newer one arrived. */
  predicate Justified(h: History, n: nat, d: Departure) {
    && d.what < d.at < |h|
    && LifecycleAt(h, d.what)
    && match d
       case Returned(i, k) => h[k].Polled? && Usable(h[i].command, h[k].now)
       case Expired(i, k) => h[k].Polled? && !Usable(h[i].command, h[k].now)
       case PushedOut(i, k) => LifecycleAt(h, k) && |Arrivals(h[..k + 1])| == n + 1 + MAX_PENDING
  }

  /** Departures are in time order, and a poll returns at most one command, after dropping the stale ones. */
  predicate InTime(gone: seq<Departure>) {
    forall m, n :: 0 <= m < n < |gone| ==>
      gone[m].at <= gone[n].at && (gone[m].Returned? ==> gone[m].at < gone[n].at)
  }

  /** Nothing is lost, duplicated or reordered: the departed and the queued lifecycle commands are, in
      order, exactly the arrivals; each left in time order, for a justified reason. */
  ghost predicate Accounted(h: History, s: Standing) {
    && Whats(s.gone) + s.pending == Arrivals(h)
    && |s.pending| <= MAX_PENDING
    && (forall n :: 0 <= n < |s.gone| ==> Justified(h, n, s.gone[n]))
    && InTime(s.gone)
  }

  /** The remembered arrival is the last one. */
  predicate IsLast(h: History, last: Option<nat>) {
    match last
    case None => forall k :: 0 <= k < |h| ==> h[k].Polled?
    case Some(j) => j < |h| && h[j].Received? && forall k :: j < k < |h| ==> h[k].Polled?
  }

  lemma JustifiedExtends(h: History, e: Event, n: nat, d: Departure)
    requires Justified(h, n, d)
    ensures Justified(h + [e], n, d)
  {
    assert (h + [e])[..d.at + 1] == h[..d.at + 1];
  }

  lemma WhatsConcat(a: seq<Departure>, b: seq<Departure>)
    ensures Whats(a + b) == Whats(a) + Whats(b)
  {}

  /** One event keeps the account when what it takes off the queue is a justified prefix. */
  lemma StepAccounted(h: History, e: Event, s: Standing, t: Standing, d: seq<Departure>)
    requires Accounted(h, s) && t.gone == s.gone + d && |t.pending| <= MAX_PENDING
    requires Whats(d) + t.pending == s.pending + if LifecycleAt(h + [e], |h|) then [|h|] else []
    requires forall k :: 0 <= k < |d| ==> d[k].at == |h| && Justified(h + [e], |s.gone| + k, d[k])
    requires InTime(d)
    ensures Accounted(h + [e], t)
  {
    assert forall n :: 0 <= n < |s.gone| ==> s.gone[n].at < |h|;
    hide LifecycleAt;
    hide Justified;
    StepInOrder(h, e, s, t, d);
    forall n | 0 <= n < |t.gone| ensures Justified(h + [e], n, t.gone[n]) {
      if n < |s.gone| {
        JustifiedExtends(h, e, n, s.gone[n]);
      } else {
        assert Justified(h + [e], |s.gone| + (n - |s.gone|), d[n - |s.gone|]);
      }
    }
  }

  lemma StepInOrder(h: History, e: Event, s: Standing, t: Standing, d: seq<Departure>)
    requires Accounted(h, s) && t.gone == s.gone + d
    requires Whats(d) + t.pending == s.pending + if LifecycleAt(h + [e], |h|) then [|h|] else []
    ensures Whats(t.gone) + t.pending == Arrivals(h + [e])
  {
    hide Justified;
    hide InTime;
    hide LifecycleAt;
    hide Arrivals;
    hide Whats;
    ReplayExtends(h, e);
    WhatsConcat(s.gone, d);
    Regroup(Whats(s.gone), Whats(d), t.pending, s.pending, if LifecycleAt(h + [e], |h|) then [|h|] else []);
  }

  lemma Regroup(gone: seq<nat>, leaving: seq<nat>, left: seq<nat>, queued: seq<nat>, arriving: seq<nat>)
    requires leaving + left == queued + arriving
    ensures gone + leaving + left == gone + queued + arriving
  {
    assert gone + leaving + left == gone + (leaving + left);
  }

  lemma ArrivalAccounted(h: History, s: Standing, c: DualCommand)
    requires Queued(h, s.pending) && SomeArrival(h, s.last) && Accounted(h, s)
    ensures Accounted(h + [Received(c)], Next(h, s, Received(c)))
  {
    hide Justified;
    hide Usable;
    hide IsLifecycleCommand;
    var t := Next(h, s, Received(c));
    var d := if IsLifecycleCommand(c) && |s.pending| == MAX_PENDING then [PushedOut(s.pending[0], |h|)] else [];
    if d != [] {
      PushOutJustified(h, s, c);
    }
    StepAccounted(h, Received(c), s, t, d);
  }

  lemma PushOutJustified(h: History, s: Standing, c: DualCommand)
    requires Queued(h, s.pending) && Accounted(h, s) && IsLifecycleCommand(c) && |s.pending| == MAX_PENDING
    ensures Justified(h + [Received(c)], |s.gone|, PushedOut(s.pending[0], |h|))
  {
    hide IsLifecycleCommand;
    hide InTime;
    var h1 := h + [Received(c)];
    ReplayExtends(h, Received(c));
    assert h1[..|h| + 1] == h1;
    assert LifecycleAt(h, s.pending[0]);
    assert |Arrivals(h1)| == |s.gone| + |s.pending| + 1;
  }

  /** A poll moves a prefix of the queue to the departed. */
  lemma PollMoves(h: History, s: Standing, now: nat)
    requires Queued(h, s.pending) && SomeArrival(h, s.last)
    ensures Whats(Departing(h, s.pending, now, |h|)) == s.pending[..Taken(h, s.pending, now)]
    ensures Whats(Next(h, s, Polled(now)).gone) == Whats(s.gone) + s.pending[..Taken(h, s.pending, now)]
  {}

  lemma PollAccounted(h: History, s: Standing, now: nat)
    requires Queued(h, s.pending) && SomeArrival(h, s.last) && Accounted(h, s)
    ensures Accounted(h + [Polled(now)], Next(h, s, Polled(now)))
  {
    hide Usable;
    hide IsLifecycleCommand;
    hide Justified;
    hide Stale;
    var d, t := Departing(h, s.pending, now, |h|), Next(h, s, Polled(now));
    PollMoves(h, s, now);
    forall k | 0 <= k < |d| ensures Justified(h + [Polled(now)], |s.gone| + k, d[k]) {
      DepartureJustified(h, s.pending, now, k, |s.gone| + k);
    }
    assert s.pending == s.pending[..Taken(h, s.pending, now)] + t.pending;
    StepAccounted(h, Polled(now), s, t, d);
  }

  lemma DepartureJustified(h: History, pending: seq<nat>, now: nat, k: nat, n: nat)
    requires Queued(h, pending) && k < Taken(h, pending, now)
    ensures Justified(h + [Polled(now)], n, Departing(h, pending, now, |h|)[k])
  {}

  /** After any interleaving of arrivals and polls, every lifecycle command is accounted for, in arrival order. */
  lemma {:induction false} EveryHistoryIsAccounted(h: History)
    ensures Accounted(h, Replay(h)) && IsLast(h, Replay(h).last) && |Replay(h).pending| <= 16
  {
    if h != [] {
      var g, e := h[..|h| - 1], h[|h| - 1];
      assert h == g + [e];
      EveryHistoryIsAccounted(g);
      match e {
        case Received(c) => ArrivalAccounted(g, Replay(g), c);
        case Polled(now) => PollAccounted(g, Replay(g), now);
      }
    }
  }

  /** A poll returns the oldest queued lifecycle command that is still usable, after which that one and
      all before it have left; without one it returns the last arrival, if that is a usable command of
      another kind, or else a hold. */
  lemma PollReturns(h: History, now: nat)
    ensures
      var a, s, t := Answer(h, now), Replay(h), Replay(h + [Polled(now)]);
      var n := Stale(h, s.pending, now);
      && IsLast(h, s.last)
      && (forall k :: 0 <= k < n ==> !Usable(h[s.pending[k]].command, now))
      && (n < |s.pending| ==>
            && a == h[s.pending[n]].command && Usable(a, now)
            && t.pending == s.pending[n + 1..]
            && Whats(t.gone) == Whats(s.gone) + s.pending[..n + 1])
      && (n == |s.pending| ==>
            && t.pending == [] && Whats(t.gone) == Arrivals(h)
            && if s.last.Some? && !IsLifecycleCommand(h[s.last.value].command) && Usable(h[s.last.value].command, now)
               then a == h[s.last.value].command
               else a.left.mode == Hold && a.right.mode == Hold)
  {
    hide *;
    EveryHistoryIsAccounted(h);
    AnswerCases(h, now);
    QueueAfterPoll(h, now);
  }

  lemma AnswerCases(h: History, now: nat)
    ensures
      var a, s := Answer(h, now), Replay(h);
      var n := Stale(h, s.pending, now);
      && (n < |s.pending| ==> a == h[s.pending[n]].command && Usable(a, now))
      && (n == |s.pending| ==>
            if s.last.Some? && !IsLifecycleCommand(h[s.last.value].command) && Usable(h[s.last.value].command, now)
            then a == h[s.last.value].command
            else a.left.mode == Hold && a.right.mode == Hold)
  {}

  lemma QueueAfterPoll(h: History, now: nat)
    ensures
      var s, t := Replay(h), Replay(h + [Polled(now)]);
      var n := Stale(h, s.pending, now);
      && n <= |s.pending|
      && (n < |s.pending| ==> t.pending == s.pending[n + 1..] && Whats(t.gone) == Whats(s.gone) + s.pending[..n + 1])
      && (n == |s.pending| ==> t.pending == [] && Whats(t.gone) == Arrivals(h))
  {
    hide Usable;
    hide Whats;
    hide Departing;
    hide Accounted;
    hide Replay;
    var s := Replay(h);
    EveryHistoryIsAccounted(h);
    ReplayExtends(h, Polled(now));
    PollMoves(h, s, now);
    assert s.pending[..|s.pending|] == s.pending;
  }

  /** A motion command never overtakes or outlives a lifecycle command: when it is returned, every
      lifecycle command ever received arrived before it and has left the queue. */
  lemma MotionNeverOvertakes(h: History, now: nat)
    ensures var a := Answer(h, now);
            !IsLifecycleCommand(a) && (a.left.mode != Hold || a.right.mode != Hold) ==>
              exists j :: 0 <= j < |h| && h[j] == Received(a) && Usable(a, now)
                && (forall k :: j < k < |h| ==> h[k].Polled?)
                && (forall i: nat :: LifecycleAt(h, i) ==> i < j)
                && Whats(Replay(h + [Polled(now)]).gone) == Arrivals(h)
  {
    hide Usable;
    hide IsLifecycleCommand;
    hide Answer;
    hide Stale;
    hide Next;
    PollReturns(h, now);
    var a, s := Answer(h, now), Replay(h);
    if !IsLifecycleCommand(a) && (a.left.mode != Hold || a.right.mode != Hold) {
      var j := s.last.value;
      assert h[j] == Received(a);
      forall i: nat | LifecycleAt(h, i) ensures i < j {
        assert h[i].Received?;
      }
    }
  }

  // ---- Deadlines and modes -----------------------------------------------------------------------

  /** The command is no older than the timeout, or has no time of its own. */
  predicate NoOlder(c: DualCommand, timeout: Number, now: nat) {
    && timeout.Finite? && 0.0 < timeout.r
    && (c.hostTime == 0 || (now - c.hostTime) as real <= timeout.r * 1000000000.0)
  }

  /** The command is no older than the timeout of either arm. */
  predicate Timely(c: DualCommand, now: nat) {
    NoOlder(c, c.left.timeout, now) && NoOlder(c, c.right.timeout, now)
  }

  lemma UsableMeans(c: DualCommand, now: nat)
    ensures Usable(c, now) <==> Timely(c, now)
  {
    if ValidTimeout(c.left.timeout) && ValidTimeout(c.right.timeout) {
      var x, y := c.left.timeout.r * 1000000000.0, c.right.timeout.r * 1000000000.0;
      assert Min(c.left.timeout.r, c.right.timeout.r) * NS_PER_SEC == Min(x, y);
      assert now - c.hostTime <= Min(x, y).Floor <==> (now - c.hostTime) as real <= Min(x, y);
    }
  }

  /** The modes whose commands are queued: a command with one of them for either arm is an arrival, and no
      other is. */
  lemma ArrivalModes(h: History, i: nat)
    ensures i in Arrivals(h) <==>
      && i < |h| && h[i].Received?
      && (h[i].command.left.mode in {ArmMotion, DisarmMotion, EmergencyStop, ResetFault}
          || h[i].command.right.mode in {ArmMotion, DisarmMotion, EmergencyStop, ResetFault})
  {
    ArrivalsAreAll(h);
    hide Arrivals;
  }

  /** Whatever a poll returns is no older than either arm's timeout. */
  lemma AnswerIsTimely(h: History, now: nat)
    ensures Timely(Answer(h, now), now)
  {
    AnswerUsable(h, now);
    UsableMeans(Answer(h, now), now);
    hide Answer;
    hide Usable;
  }

  lemma AnswerUsable(h: History, now: nat)
    ensures Usable(Answer(h, now), now)
  {
    hide Replay;
    HoldUsable(now);
    hide Usable;
  }

  lemma HoldUsable(now: nat)
    ensures Usable(MakeHold(now), now)
  {}

  /** The last arrival, if it is not queued, is returned exactly while it is no older than its timeouts and
      nothing that is queued is; after that both arms get a hold. */
  lemma LastIsReturned(h: History, now: nat, j: nat)
    requires j < |h| && h[j].Received? && forall k :: j < k < |h| ==> h[k].Polled?
    requires h[j].command.left.mode !in {ArmMotion, DisarmMotion, EmergencyStop, ResetFault}
    requires h[j].command.right.mode !in {ArmMotion, DisarmMotion, EmergencyStop, ResetFault}
    requires forall k :: 0 <= k < |Replay(h).pending| ==> !Timely(h[Replay(h).pending[k]].command, now)
    ensures
      var a := Answer(h, now);
      if Timely(h[j].command, now) then a == h[j].command else a.left.mode == Hold && a.right.mode == Hold
  {
    var p := Replay(h).pending;
    forall k | 0 <= k < |p| ensures !Usable(h[p[k]].command, now) {
      UsableMeans(h[p[k]].command, now);
      hide Usable;
      hide Timely;
    }
    hide *;
    AnswerCases(h, now);
    LastIs(h, j);
    NotQueued(h[j].command);
    UsableMeans(h[j].command, now);
    AllStale(h, p, now);
  }

  lemma AllStale(h: History, pending: seq<nat>, now: nat)
    requires Queued(h, pending) && forall k :: 0 <= k < |pending| ==> !Usable(h[pending[k]].command, now)
    ensures Stale(h, pending, now) == |pending|
  {
    hide Usable;
  }

  lemma LastIs(h: History, j: nat)
    requires j < |h| && h[j].Received? && forall k :: j < k < |h| ==> h[k].Polled?
    ensures Replay(h).last == Some(j)
  {
    EveryHistoryIsAccounted(h);
    OneLast(h, Replay(h).last, j);
    hide *;
  }

  lemma OneLast(h: History, last: Option<nat>, j: nat)
    requires j < |h| && h[j].Received? && forall k :: j < k < |h| ==> h[k].Polled?
    ensures IsLast(h, last) ==> last == Some(j)
  {}

  lemma NotQueued(c: DualCommand)
    requires c.left.mode !in {ArmMotion, DisarmMotion, EmergencyStop, ResetFault}
    requires c.right.mode !in {ArmMotion, DisarmMotion, EmergencyStop, ResetFault}
    ensures !IsLifecycleCommand(c)
  {}

  /** A queued command that is no older than its timeouts is returned once those before it are older. */
  lemma QueuedIsReturned(h: History, now: nat, m: nat)
    requires m < |Replay(h).pending| && Timely(h[Replay(h).pending[m]].command, now)
    requires forall k :: 0 <= k < m ==> !Timely(h[Replay(h).pending[k]].command, now)
    ensures Answer(h, now) == h[Replay(h).pending[m]].command
  {
    var p := Replay(h).pending;
    forall k | 0 <= k <= m ensures Usable(h[p[k]].command, now) <==> k == m {
      UsableMeans(h[p[k]].command, now);
    }
    assert Stale(h, p, now) == m;
    hide Replay;
    hide Usable;
    hide Timely;
  }

  // ---- How long a command waits ------------------------------------------------------------------

  function Polls(h: History): nat {
    if h == [] then 0 else Polls(h[..|h| - 1]) + if h[|h| - 1].Polled? then 1 else 0
  }

  lemma {:induction false} ArrivalsExtend(h: History, g: History)
    ensures |Arrivals(h)| <= |Arrivals(h + g)| && Arrivals(h + g)[..|Arrivals(h)|] == Arrivals(h)
  {
    if g == [] {
      assert h + g == h;
    } else {
      var before, e := g[..|g| - 1], g[|g| - 1];
      ArrivalsExtend(h, before);
      assert h + g == h + before + [e];
      ReplayExtends(h + before, e);
      hide Arrivals;
    }
  }

  /** A poll takes at least one command off a queue that is not empty, and no event brings one back. */
  lemma GoneGrows(h: History, e: Event)
    ensures
      var s, t := Replay(h), Replay(h + [e]);
      |s.gone| <= |t.gone| && (e.Polled? && s.pending != [] ==> |s.gone| < |t.gone|)
  {
    ReplayExtends(h, e);
    hide Replay;
    hide Usable;
    hide IsLifecycleCommand;
  }

  /** While the arrival number n is queued, every poll takes one off. */
  lemma {:induction false} PollsTake(h: History, g: History, n: nat)
    requires n < |Arrivals(h)|
    ensures n < |Replay(h + g).gone| || |Replay(h).gone| + Polls(g) <= |Replay(h + g).gone|
  {
    if g == [] {
      assert h + g == h;
    } else {
      var before, e := g[..|g| - 1], g[|g| - 1];
      var h1 := h + before;
      PollsTake(h, before, n);
      assert h + g == h1 + [e];
      GoneGrows(h1, e);
      ArrivalsExtend(h, before);
      EveryHistoryIsAccounted(h1);
        hide Replay;
      hide Arrivals;
    }
  }

  /** A lifecycle command behind m queued ones has left the queue by poll m + 1 at the latest: returned while
      usable, expired, or pushed out by the 16th newer one. */
  lemma DeliveredInTime(h: History, g: History, m: nat)
    requires m < |Replay(h).pending| && m < Polls(g)
    ensures
      var n, t := |Replay(h).gone| + m, Replay(h + g);
      && n < |t.gone| && t.gone[n].what == Replay(h).pending[m] && Justified(h + g, n, t.gone[n])
      && (|Arrivals(h + g)| <= n + 16 ==> !t.gone[n].PushedOut?)
  {
    hide *;
    var n, t := |Replay(h).gone| + m, Replay(h + g);
    EveryHistoryIsAccounted(h);
    EveryHistoryIsAccounted(h + g);
    WhereIs(h, Replay(h), n);
    ArrivalsExtend(h, g);
    PollsTake(h, g, n);
    WhereIs(h + g, t, n);
    if t.gone[n].PushedOut? {
      PushedOutByNewer(h + g, n, t.gone[n]);
    }
  }

  /** The arrival number n has departed or is queued, according to how many have departed. */
  lemma WhereIs(h: History, s: Standing, n: nat)
    requires Accounted(h, s)
    ensures n < |Arrivals(h)| <==> n < |s.gone| + |s.pending|
    ensures n < |s.gone| ==> Arrivals(h)[n] == s.gone[n].what && Justified(h, n, s.gone[n])
    ensures |s.gone| <= n < |Arrivals(h)| ==> Arrivals(h)[n] == s.pending[n - |s.gone|]
  {
    hide Justified;
    hide InTime;
  }

  lemma PushedOutByNewer(h: History, n: nat, d: Departure)
    requires Justified(h, n, d) && d.PushedOut?
    ensures n + 16 < |Arrivals(h)|
  {
    assert h[..d.at + 1] + h[d.at + 1..] == h;
    ArrivalsExtend(h[..d.at + 1], h[d.at + 1..]);
  }

  // ---- The buffer itself -------------------------------------------------------------------------

  function CommandsAt(h: History, pending: seq<nat>): seq<DualCommand>
    requires Queued(h, pending)
  {
    seq(|pending|, k requires 0 <= k < |pending| => h[pending[k]].command)
  }

  lemma CommandsExtend(h: History, e: Event, pending: seq<nat>)
    requires Queued(h, pending)
    ensures CommandsAt(h + [e], pending) == CommandsAt(h, pending)
  {}

  lemma CommandsSlice(h: History, p: seq<nat>, n: nat)
    requires Queued(h, p) && n <= |p|
    ensures |CommandsAt(h, p)| == |p| && CommandsAt(h, p[n..]) == CommandsAt(h, p)[n..]
  {}

  lemma CommandsConcat(h: History, p: seq<nat>, k: nat)
    requires Queued(h, p) && LifecycleAt(h, k)
    ensures CommandsAt(h, p + [k]) == CommandsAt(h, p) + [h[k].command]
  {}

  ghost predicate Represents(h: History, pending: seq<DualCommand>, latest: Option<DualCommand>) {
    var s := Replay(h);
    && pending == CommandsAt(h, s.pending)
    && latest == Slot(h, s.last)
  }

  lemma SetRepresents(h: History, pending: seq<DualCommand>, latest: Option<DualCommand>, c: DualCommand)
    requires Represents(h, pending, latest)
    ensures IsLifecycleCommand(c) ==>
      Represents(h + [Received(c)], (if |pending| < MAX_PENDING then pending else pending[1..]) + [c],
                 Some(MakeHold(c.hostTime)))
    ensures !IsLifecycleCommand(c) ==> Represents(h + [Received(c)], pending, Some(c))
  {
    hide Usable;
    hide IsLifecycle;
    hide Replay;
    hide CommandsAt;
    var s, h1 := Replay(h), h + [Received(c)];
    var kept := if |s.pending| < MAX_PENDING then s.pending else s.pending[1..];
    ReplayExtends(h, Received(c));
    CommandsExtend(h, Received(c), s.pending);
    CommandsSlice(h1, s.pending, if |s.pending| < MAX_PENDING then 0 else 1);
    if IsLifecycleCommand(c) {
      CommandsConcat(h1, kept, |h|);
    }
  }

  lemma PollRepresents(h: History, pending: seq<DualCommand>, latest: Option<DualCommand>, now: nat)
    requires Represents(h, pending, latest)
    ensures
      var n := Stale(h, Replay(h).pending, now);
      && n <= |pending|
      && (forall k :: 0 <= k < n ==> !Usable(pending[k], now))
      && (n < |pending| ==>
            && Usable(pending[n], now) && Answer(h, now) == pending[n]
            && Represents(h + [Polled(now)], pending[n + 1..], latest))
      && (n == |pending| ==>
            && Answer(h, now) == (if latest.Some? && Usable(latest.value, now) then latest.value else MakeHold(now))
            && Represents(h + [Polled(now)], [], latest))
  {
    hide Usable;
    hide IsLifecycle;
    hide Replay;
    var s := Replay(h);
    ReplayExtends(h, Polled(now));
    SlotExtends(h, Polled(now), s.last);
    CommandsExtend(h, Polled(now), s.pending);
    CommandsSlice(h + [Polled(now)], s.pending, Taken(h, s.pending, now));
    hide Slot;
  }

  class CommandBuffer {
    var pending: seq<DualCommand>
    var latest: Option<DualCommand>
    ghost var history: History

    ghost predicate Valid()
      reads this
    {
      Represents(history, pending, latest)
    }

    constructor ()
      ensures Valid() && history == []
    {
      pending, latest, history := [], None, [];
    }

    method SetCommand(command: DualCommand)
      requires Valid()
      modifies this
      ensures Valid() && history == old(history) + [Received(command)]
    {
      hide Represents;
      SetRepresents(history, pending, latest, command);
      if IsLifecycleCommand(command) {
        if |pending| >= MAX_PENDING {
          pending := pending[1..];
        }
        pending := pending + [command];
        latest := Some(MakeHold(command.hostTime));
      } else {
        latest := Some(command);
      }
      history := history + [Received(command)];
    }

    method LatestOrHold(now: nat) returns (command: DualCommand)
      requires Valid()
      modifies this
      ensures Valid() && history == old(history) + [Polled(now)]
      ensures command == Answer(old(history), now)
    {
      hide Represents;
      hide Answer;
      hide Usable;
      hide Replay;
      PollRepresents(history, pending, latest, now);
      ghost var n := Stale(history, Replay(history).pending, now);
      ghost var popped := 0;
      history := history + [Polled(now)];
      while pending != []
        invariant popped <= n && pending == old(pending)[popped..]
        invariant latest == old(latest) && history == old(history) + [Polled(now)]
        decreases |pending|
      {
        command := pending[0];
        pending := pending[1..];
        popped := popped + 1;
        if Usable(command, now) {
          return;
        }
      }
      if latest.None? {
        return MakeHold(now);
      }
      command := latest.value;
      if !Usable(command, now) {
        return MakeHold(now);
      }
    }
  }
}
