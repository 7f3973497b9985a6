/** The servo log: a bounded queue that drops the oldest sample when it is full, and one CSV row per sample
    taken from it. */
module ServoLog {
  import opened Types
  import opened Csv
  import CommandServer

  /** The text of a number, or of a name: it never needs quoting. */
  type Word = s: string | Plain(s) witness "0"

  type JointTexts = q: seq<Word> | |q| == DOF witness ["0", "0", "0", "0", "0", "0"]

  /** Floating-point values are given by their printed text. */
  datatype ServoSample = ServoSample(
    tick: nat,
    loopStart: nat,
    loopEnd: nat,
    periodMs: Word,
    jitterMs: Word,
    filterDtMs: Word,
    verdict: Verdict,
    motionState: MotionState,
    faultLatched: bool,
    faultReason: string,
    commandSeq: nat,
    leftMode: ControlMode,
    rightMode: ControlMode,
    leftSendOk: bool,
    rightSendOk: bool,
    leftSendStart: nat,
    leftSendEnd: nat,
    rightSendStart: nat,
    rightSendEnd: nat,
    sendSkewUs: Word,
    leftSendDurationUs: Word,
    rightSendDurationUs: Word,
    leftActual: JointTexts,
    rightActual: JointTexts,
    leftSent: JointTexts,
    rightSent: JointTexts,
    leftErrorCode: int,
    rightErrorCode: int)

  // ---- How values are printed --------------------------------------------------------------------

  function Digit(d: nat): char
    requires d < 10
  {
    ('0' as int + d) as char
  }

  function Decimal(n: nat): Word {
    if n < 10 then [Digit(n)] else Decimal(n / 10) + [Digit(n % 10)]
  }

  function Signed(n: int): Word {
    if n < 0 then "-" + Decimal(-n) else Decimal(n)
  }

  function Flag(b: bool): Word {
    if b then "1" else "0"
  }

  function ModeName(m: ControlMode): Word {
    match m
    case Idle => "Idle"
    case Hold => "Hold"
    case ArmMotion => "ArmMotion"
    case DisarmMotion => "DisarmMotion"
    case JointTarget => "JointTarget"
    case JointVelocity => "JointVelocity"
    case TcpPoseTarget => "TcpPoseTarget"
    case TcpDeltaStand => "TcpDeltaStand"
    case TcpDeltaLocal => "TcpDeltaLocal"
    case EmergencyStop => "EmergencyStop"
    case ResetFault => "ResetFault"
  }

  function StateName(s: MotionState): Word {
    match s
    case Disconnected => "Disconnected"
    case ConnectedHold => "ConnectedHold"
    case ArmedHold => "ArmedHold"
    case Running => "Running"
    case FaultLatched => "FaultLatched"
    case EmergencyLatched => "EmergencyLatched"
  }

  function VerdictName(v: Verdict): Word {
    match v
    case Ok => "Ok"
    case LimitClamped => "JointLimitClamped"
    case TrackingError => "TrackingError"
    case RobotStateError => "RobotStateError"
    case SendFailure => "SendFailure"
    case EmergencyStopped => "EmergencyStop"
    case Latched => "FaultLatched"
    case InvalidCommand => "InvalidCommand"
    case CartesianUnavailable => "CartesianUnavailable"
  }

  function LowerName(m: ControlMode): string {
    match m
    case Idle => "idle"
    case Hold => "hold"
    case ArmMotion => "armmotion"
    case DisarmMotion => "disarmmotion"
    case JointTarget => "jointtarget"
    case JointVelocity => "jointvelocity"
    case TcpPoseTarget => "tcpposetarget"
    case TcpDeltaStand => "tcpdeltastand"
    case TcpDeltaLocal => "tcpdeltalocal"
    case EmergencyStop => "emergencystop"
    case ResetFault => "resetfault"
  }

  lemma LoweredJoint(m: ControlMode)
    requires m == JointTarget || m == JointVelocity
    ensures CommandServer.Lower(ModeName(m)) == LowerName(m)
  {
    var s, low := ModeName(m), LowerName(m);
    assert |s| == |low|;
    forall i | 0 <= i < |s| ensures CommandServer.LowerChar(s[i]) == low[i] {
    }
  }

  lemma LoweredTcp(m: ControlMode)
    requires IsCartesian(m)
    ensures CommandServer.Lower(ModeName(m)) == LowerName(m)
  {
    var s, low := ModeName(m), LowerName(m);
    assert |s| == |low|;
    forall i | 0 <= i < |s| ensures CommandServer.LowerChar(s[i]) == low[i] {
    }
  }

  lemma LoweredLifecycle(m: ControlMode)
    requires IsLifecycle(m)
    ensures CommandServer.Lower(ModeName(m)) == LowerName(m)
  {
    var s, low := ModeName(m), LowerName(m);
    assert |s| == |low|;
    forall i | 0 <= i < |s| ensures CommandServer.LowerChar(s[i]) == low[i] {
    }
  }

  lemma LoweredHold(m: ControlMode)
    requires m == Idle || m == Hold
    ensures CommandServer.Lower(ModeName(m)) == LowerName(m)
  {
    var s, low := ModeName(m), LowerName(m);
    assert |s| == |low|;
    forall i | 0 <= i < |s| ensures CommandServer.LowerChar(s[i]) == low[i] {
    }
  }

  lemma LoweredMode(m: ControlMode)
    ensures CommandServer.Lower(ModeName(m)) == LowerName(m)
  {
    hide ModeName;
    hide LowerName;
    hide CommandServer.Lower;
    if IsCartesian(m) {
      LoweredTcp(m);
    } else if IsLifecycle(m) {
      LoweredLifecycle(m);
    } else if m == Idle || m == Hold {
      LoweredHold(m);
    } else {
      LoweredJoint(m);
    }
  }

  /** The mode a row prints is a name the command parser reads as that mode. */
  lemma ModeNameReadsBack(m: ControlMode)
    ensures CommandServer.ModeNamed(ModeName(m)) == Some(m)
  {
    LoweredMode(m);
    hide ModeName;
    hide CommandServer.Lower;
  }

  // ---- The columns -------------------------------------------------------------------------------

  function Before(s: ServoSample): seq<Word> {
    [Decimal(s.loopStart), Decimal(s.loopEnd), s.periodMs, s.jitterMs, s.filterDtMs,
     VerdictName(s.verdict), StateName(s.motionState), Flag(s.faultLatched)]
  }

  function Middle(s: ServoSample, dropped: nat): seq<Word> {
    [Decimal(dropped), Decimal(s.commandSeq), ModeName(s.leftMode), ModeName(s.rightMode),
     Flag(s.leftSendOk), Flag(s.rightSendOk),
     Decimal(s.leftSendStart), Decimal(s.leftSendEnd), Decimal(s.rightSendStart), Decimal(s.rightSendEnd),
     s.sendSkewUs, s.leftSendDurationUs, s.rightSendDurationUs]
  }

  /** The columns of a row, in the order of the header. */
  function Columns(s: ServoSample, dropped: nat): Record {
    [Decimal(s.tick)] + Before(s) + [s.faultReason] + Middle(s, dropped)
    + s.leftActual + s.rightActual + s.leftSent + s.rightSent
    + [Signed(s.leftErrorCode), Signed(s.rightErrorCode)]
  }

  const FAULT_REASON: nat := 9
  const DROPPED: nat := 10
  const WIDTH: nat := 49

  function JointNames(prefix: string): seq<string> {
    [prefix + "0", prefix + "1", prefix + "2", prefix + "3", prefix + "4", prefix + "5"]
  }

  function HeadNames(): seq<string> {
    ["tick", "loop_start_time_ns", "loop_end_time_ns", "period_ms", "jitter_ms", "filter_dt_ms",
     "safety_verdict", "motion_state", "fault_latched", "fault_reason",
     "logger_dropped_samples", "command_seq", "left_mode", "right_mode", "left_send_ok", "right_send_ok"]
  }

  function SendNames(): seq<string> {
    ["left_send_start_ns", "left_send_end_ns", "right_send_start_ns", "right_send_end_ns",
     "send_skew_us", "left_send_duration_us", "right_send_duration_us"]
  }

  function Header(): Record {
    HeadNames() + SendNames()
    + JointNames("left_q_actual_") + JointNames("right_q_actual_")
    + JointNames("left_q_sent_") + JointNames("right_q_sent_")
    + ["left_error_code", "right_error_code"]
  }

  /** A written sample and the drop count its row shows. */
  datatype Entry = Entry(sample: ServoSample, dropped: nat)

  function Rows(entries: seq<Entry>): seq<Record> {
    if entries == [] then []
    else Rows(entries[..|entries| - 1]) + [Columns(entries[|entries| - 1].sample, entries[|entries| - 1].dropped)]
  }

  function LogText(entries: seq<Entry>): string {
    Text([Header()] + Rows(entries))
  }

  lemma {:induction false} RowAt(entries: seq<Entry>, k: nat)
    requires k < |entries|
    ensures |Rows(entries)| == |entries| && Rows(entries)[k] == Columns(entries[k].sample, entries[k].dropped)
  {
    if k < |entries| - 1 {
      RowAt(entries[..|entries| - 1], k);
    } else if |entries| > 1 {
      RowAt(entries[..|entries| - 1], 0);
    }
  }

  lemma EmptyLog()
    ensures LogText([]) == Line(Header())
  {
    hide Header;
    hide Line;
    assert [Header()] + Rows([]) == [Header()] && [Header()][1..] == [];
  }

  lemma LogSnoc(entries: seq<Entry>, e: Entry)
    ensures LogText(entries + [e]) == LogText(entries) + Line(Columns(e.sample, e.dropped))
  {
    hide Line;
    hide Columns;
    TextSnoc([Header()] + Rows(entries), Columns(e.sample, e.dropped));
    assert (entries + [e])[..|entries|] == entries;
    assert [Header()] + (Rows(entries) + [Columns(e.sample, e.dropped)])
        == ([Header()] + Rows(entries)) + [Columns(e.sample, e.dropped)];
  }

  predicate ShowsEntry(row: Record, e: Entry) {
    |row| == WIDTH && row[FAULT_REASON] == e.sample.faultReason && row[DROPPED] == Decimal(e.dropped)
  }

  lemma ColumnsShow(e: Entry)
    ensures ShowsEntry(Columns(e.sample, e.dropped), e)
  {
  }

  lemma HeaderNames()
    ensures |Header()| == WIDTH
    ensures Header()[FAULT_REASON] == "fault_reason" && Header()[DROPPED] == "logger_dropped_samples"
  {
  }

  /** Whatever the fault reasons say, the log splits back into the header and one row of 49 columns per
      sample, with each fault reason unchanged under its own heading. */
  lemma LogReadsBack(entries: seq<Entry>)
    ensures
      var rows := Rows(entries);
      && ReadText(LogText(entries)) == Some([Header()] + rows)
      && |rows| == |entries| && forall k :: 0 <= k < |entries| ==> ShowsEntry(rows[k], entries[k])
  {
    hide Header;
    hide Columns;
    hide ShowsEntry;
    TextReadsBack([Header()] + Rows(entries));
    if entries != [] {
      RowAt(entries, 0);
    }
    forall k | 0 <= k < |entries| ensures ShowsEntry(Rows(entries)[k], entries[k]) {
      RowAt(entries, k);
      ColumnsShow(entries[k]);
    }
  }

  // ---- Writing a row -----------------------------------------------------------------------------

  lemma {:induction false} JoinedSnoc(fields: Record, last: string)
    ensures Joined(fields + [last]) == Joined(fields) + "," + Escaped(last)
  {
    hide Escaped;
    if |fields| == 1 {
      assert (fields + [last])[1..] == [last];
    } else {
      JoinedSnoc(fields[1..], last);
      assert (fields + [last])[1..] == fields[1..] + [last];
    }
  }

  lemma JoinedWord(fields: Record, last: Word)
    ensures Joined(fields + [last]) == Joined(fields) + "," + last
  {
    JoinedSnoc(fields, last);
    hide Joined;
  }

  /** Appends plain fields, each after a comma. */
  method PutAll(text: string, ghost fields: Record, words: seq<Word>) returns (out: string)
    requires text == Joined(fields)
    ensures out == Joined(fields + words)
  {
    hide Joined;
    hide Plain;
    out := text;
    assert fields + words[..0] == fields;
    for i := 0 to |words|
      invariant out == Joined(fields + words[..i])
    {
      JoinedWord(fields + words[..i], words[i]);
      assert fields + words[..i + 1] == fields + words[..i] + [words[i]];
      out := out + "," + words[i];
    }
    assert words[..|words|] == words;
  }

  method RowText(s: ServoSample, dropped: nat) returns (row: string)
    ensures row == Line(Columns(s, dropped))
  {
    hide Joined;
    hide Before;
    hide Middle;
    ghost var done: Record := [Decimal(s.tick)];
    row := Decimal(s.tick);
    JoinedOne(row);
    row := PutAll(row, done, Before(s));
    done := done + Before(s);
    var reason := CsvEscape(s.faultReason);
    JoinedSnoc(done, s.faultReason);
    row := row + "," + reason;
    done := done + [s.faultReason];
    row := PutAll(row, done, Middle(s, dropped));
    done := done + Middle(s, dropped);
    row := PutAll(row, done, s.leftActual);
    done := done + s.leftActual;
    row := PutAll(row, done, s.rightActual);
    done := done + s.rightActual;
    row := PutAll(row, done, s.leftSent);
    done := done + s.leftSent;
    row := PutAll(row, done, s.rightSent);
    done := done + s.rightSent;
    row := PutAll(row, done, [Signed(s.leftErrorCode), Signed(s.rightErrorCode)]);
    row := row + "\n";
  }

  lemma JoinedOne(word: Word)
    ensures Joined([word]) == word
  {
  }

  // ---- The logger --------------------------------------------------------------------------------

  /** The queue holds the newest samples; those taken are older, in order, and each is written at most
      once; every sample is queued, taken or counted as dropped; and row k shows at least as many drops as
      samples are missing before it. */
  ghost predicate Consistent(capacity: nat, queue: seq<ServoSample>, dropped: nat, pushed: seq<ServoSample>,
                             taken: seq<nat>, written: seq<Entry>) {
    && |queue| <= capacity
    && |pushed| == dropped + |taken| + |queue|
    && queue == pushed[|pushed| - |queue|..]
    && (forall k :: 0 <= k < |taken| ==> taken[k] < |pushed| - |queue|)
    && (forall j, k :: 0 <= j < k < |taken| ==> taken[j] < taken[k])
    && (forall k :: 0 <= k < |taken| ==> taken[k] - k <= dropped)
    && |written| <= |taken| <= |written| + 1
    && (forall k :: 0 <= k < |written| ==>
          written[k].sample == pushed[taken[k]] && taken[k] - k <= written[k].dropped <= dropped)
    && (forall j, k :: 0 <= j < k < |written| ==> written[j].dropped <= written[k].dropped)
  }

  /** A pushed sample goes behind the queue, from which d samples were dropped. */
  lemma PushKeeps(capacity: nat, queue: seq<ServoSample>, dropped: nat, pushed: seq<ServoSample>, taken: seq<nat>,
                  written: seq<Entry>, s: ServoSample, d: nat)
    requires Consistent(capacity, queue, dropped, pushed, taken, written)
    requires d <= |queue| && |queue| - d < capacity
    ensures Consistent(capacity, queue[d..] + [s], dropped + d, pushed + [s], taken, written)
  {
    var rest, all := queue[d..] + [s], pushed + [s];
    assert rest == all[|all| - |rest|..];
  }

  /** Without any capacity a pushed sample is dropped at once. */
  lemma PushDrops(dropped: nat, pushed: seq<ServoSample>, taken: seq<nat>, written: seq<Entry>, s: ServoSample)
    requires Consistent(0, [], dropped, pushed, taken, written)
    ensures Consistent(0, [], dropped + 1, pushed + [s], taken, written)
  {}

  class ServoLogger {
    const enable: bool
    const capacity: nat
    var running: bool
    var queue: seq<ServoSample>
    var dropped: nat
    var file: string

    /** Every sample offered while running, the places in it of those taken for writing, and the rows. */
    ghost var pushed: seq<ServoSample>
    ghost var taken: seq<nat>
    ghost var written: seq<Entry>

    ghost predicate Valid()
      reads this
    {
      Consistent(capacity, queue, dropped, pushed, taken, written) && file == LogText(written)
    }

    /** A logger whose file has just been opened. */
    constructor (enable: bool, capacity: nat)
      ensures Valid() && this.enable == enable && this.capacity == capacity
      ensures running == enable && queue == [] && dropped == 0 && pushed == [] && written == []
    {
      hide LogText;
      hide Header;
      hide Columns;
      hide Line;
      EmptyLog();
      this.enable := enable;
      this.capacity := capacity;
      running := enable;
      queue := [];
      dropped := 0;
      file := Line(Header());
      pushed := [];
      taken := [];
      written := [];
    }

    /** A full queue loses its oldest sample. */
    method Push(s: ServoSample)
      requires Valid()
      modifies this
      ensures Valid() && running == old(running) && file == old(file) && taken == old(taken) && written == old(written)
      ensures !old(enable && running) ==> queue == old(queue) && dropped == old(dropped) && pushed == old(pushed)
      ensures old(enable && running) ==>
        pushed == old(pushed) + [s]
        && dropped == old(dropped) + (if old(|queue|) < capacity then 0 else 1)
        && queue == (if capacity == 0 then []
                     else if old(|queue|) < capacity then old(queue) + [s]
                     else old(queue)[1..] + [s])
    {
      hide Consistent;
      hide LogText;
      if !enable || !running {
        return;
      }
      QueueFits();
      if capacity == 0 {
        PushDrops(dropped, pushed, taken, written, s);
        pushed := pushed + [s];
        dropped := dropped + 1;
        return;
      }
      PushKeeps(capacity, queue, dropped, pushed, taken, written, s, if |queue| >= capacity then 1 else 0);
      pushed := pushed + [s];
      if |queue| >= capacity {
        queue := queue[1..];
        dropped := dropped + 1;
      }
      queue := queue + [s];
    }

    lemma QueueFits()
      requires Valid()
      ensures |queue| <= capacity
    {
      hide LogText;
    }

    /** The writer takes the oldest sample. */
    method TakeOldest() returns (s: ServoSample)
      requires Valid() && queue != [] && |taken| == |written|
      modifies this
      ensures Valid() && running == old(running) && file == old(file) && written == old(written)
      ensures pushed == old(pushed) && dropped == old(dropped)
      ensures s == old(queue[0]) && queue == old(queue[1..])
      ensures taken == old(taken) + [old(|pushed| - |queue|)]
    {
      hide LogText;
      hide Header;
      hide Columns;
      hide Line;
      s := queue[0];
      taken := taken + [|pushed| - |queue|];
      queue := queue[1..];
    }

    /** The writer writes the sample it has taken; samples may have been pushed in between. */
    method WriteSample(s: ServoSample)
      requires Valid() && |taken| == |written| + 1 && s == pushed[taken[|written|]]
      modifies this`file, this`written
      ensures Valid() && written == old(written) + [Entry(s, dropped)]
      ensures file == old(file) + Line(Columns(s, dropped))
    {
      hide LogText;
      hide Header;
      hide Columns;
      hide Line;
      var row := RowText(s, dropped);
      LogSnoc(written, Entry(s, dropped));
      file := file + row;
      written := written + [Entry(s, dropped)];
    }
  }

  /** At any time, the file splits back into the header and the rows of pushed samples, in the order pushed;
      row k shows the fault reason of its sample, and at least as many drops as samples are missing before it. */
  lemma FileShowsPushed(log: ServoLogger)
    requires log.Valid()
    ensures
      var rows := Rows(log.written);
      && ReadText(log.file) == Some([Header()] + rows)
      && |rows| == |log.written|
      && forall k :: 0 <= k < |rows| ==>
           && log.taken[k] < |log.pushed|
           && ShowsEntry(rows[k], Entry(log.pushed[log.taken[k]], log.written[k].dropped))
           && log.taken[k] <= k + log.written[k].dropped
           && (0 < k ==> log.taken[k - 1] < log.taken[k])
  {
    hide LogText;
    hide Rows;
    hide ShowsEntry;
    hide Header;
    LogReadsBack(log.written);
  }

  // ---- What the columns mean ---------------------------------------------------------------------

  predicate Under(heading: string, word: string, k: nat, row: Record) {
    |row| == WIDTH && k < WIDTH && |Header()| == WIDTH && Header()[k] == heading && row[k] == word
  }

  /** Where the parts of a row lie. */
  lemma PartsAt(row: seq<string>, h: seq<string>, t: seq<string>, a: seq<string>, b: seq<string>, c: seq<string>,
                d: seq<string>, e: seq<string>)
    requires row == h + t + a + b + c + d + e
    requires |h| == 16 && |t| == 7 && |a| == |b| == |c| == |d| == DOF && |e| == 2
    ensures |row| == WIDTH
    ensures forall k :: 0 <= k < 16 ==> row[k] == h[k]
    ensures forall k :: 0 <= k < 7 ==> row[16 + k] == t[k]
    ensures forall k :: 0 <= k < DOF ==>
      row[23 + k] == a[k] && row[29 + k] == b[k] && row[35 + k] == c[k] && row[41 + k] == d[k]
    ensures row[47] == e[0] && row[48] == e[1]
  {}

  function HeadColumns(s: ServoSample, dropped: nat): seq<string> {
    [Decimal(s.tick), Decimal(s.loopStart), Decimal(s.loopEnd), s.periodMs, s.jitterMs, s.filterDtMs,
     VerdictName(s.verdict), StateName(s.motionState), Flag(s.faultLatched), s.faultReason,
     Decimal(dropped), Decimal(s.commandSeq), ModeName(s.leftMode), ModeName(s.rightMode),
     Flag(s.leftSendOk), Flag(s.rightSendOk)]
  }

  function SendColumns(s: ServoSample): seq<string> {
    [Decimal(s.leftSendStart), Decimal(s.leftSendEnd), Decimal(s.rightSendStart), Decimal(s.rightSendEnd),
     s.sendSkewUs, s.leftSendDurationUs, s.rightSendDurationUs]
  }

  lemma HeadParts(s: ServoSample, dropped: nat)
    ensures [Decimal(s.tick)] + Before(s) + [s.faultReason] + Middle(s, dropped)
         == HeadColumns(s, dropped) + SendColumns(s)
  {
    hide VerdictName;
    hide StateName;
    hide ModeName;
    hide Decimal;
    hide Flag;
  }

  lemma ColumnParts(s: ServoSample, dropped: nat)
    ensures
      var row := Columns(s, dropped);
      && |row| == WIDTH && |Header()| == WIDTH
      && (forall k :: 0 <= k < 16 ==> row[k] == HeadColumns(s, dropped)[k] && Header()[k] == HeadNames()[k])
      && (forall k :: 0 <= k < 7 ==> row[16 + k] == SendColumns(s)[k] && Header()[16 + k] == SendNames()[k])
      && (forall k :: 0 <= k < DOF ==>
            && row[23 + k] == s.leftActual[k] && Header()[23 + k] == JointNames("left_q_actual_")[k]
            && row[29 + k] == s.rightActual[k] && Header()[29 + k] == JointNames("right_q_actual_")[k]
            && row[35 + k] == s.leftSent[k] && Header()[35 + k] == JointNames("left_q_sent_")[k]
            && row[41 + k] == s.rightSent[k] && Header()[41 + k] == JointNames("right_q_sent_")[k])
      && row[47] == Signed(s.leftErrorCode) && Header()[47] == "left_error_code"
      && row[48] == Signed(s.rightErrorCode) && Header()[48] == "right_error_code"
  {
    HeadParts(s, dropped);
    PartSizes(s, dropped);
    hide Before;
    hide Middle;
    hide HeadColumns;
    hide SendColumns;
    hide HeadNames;
    hide SendNames;
    hide JointNames;
    hide Signed;
    hide Decimal;
    PartsAt(Columns(s, dropped), HeadColumns(s, dropped), SendColumns(s), s.leftActual, s.rightActual, s.leftSent,
            s.rightSent, [Signed(s.leftErrorCode), Signed(s.rightErrorCode)]);
    PartsAt(Header(), HeadNames(), SendNames(), JointNames("left_q_actual_"), JointNames("right_q_actual_"),
            JointNames("left_q_sent_"), JointNames("right_q_sent_"), ["left_error_code", "right_error_code"]);
  }

  lemma PartSizes(s: ServoSample, dropped: nat)
    ensures |HeadColumns(s, dropped)| == |HeadNames()| == 16 && |SendColumns(s)| == |SendNames()| == 7
    ensures forall p :: |JointNames(p)| == DOF
  {}

  /** Each value is under its own heading. */
  lemma ColumnsHeaded(s: ServoSample, dropped: nat)
    ensures
      var row := Columns(s, dropped);
      && Under("tick", Decimal(s.tick), 0, row)
      && Under("loop_start_time_ns", Decimal(s.loopStart), 1, row)
      && Under("loop_end_time_ns", Decimal(s.loopEnd), 2, row)
      && Under("period_ms", s.periodMs, 3, row)
      && Under("jitter_ms", s.jitterMs, 4, row)
      && Under("filter_dt_ms", s.filterDtMs, 5, row)
      && Under("safety_verdict", VerdictName(s.verdict), 6, row)
      && Under("motion_state", StateName(s.motionState), 7, row)
      && Under("fault_latched", if s.faultLatched then "1" else "0", 8, row)
      && Under("fault_reason", s.faultReason, 9, row)
      && Under("logger_dropped_samples", Decimal(dropped), 10, row)
      && Under("command_seq", Decimal(s.commandSeq), 11, row)
      && Under("left_mode", ModeName(s.leftMode), 12, row)
      && Under("right_mode", ModeName(s.rightMode), 13, row)
      && Under("left_send_ok", if s.leftSendOk then "1" else "0", 14, row)
      && Under("right_send_ok", if s.rightSendOk then "1" else "0", 15, row)
  {
    ColumnParts(s, dropped);
    hide VerdictName;
    hide StateName;
    hide ModeName;
    hide Decimal;
    hide Columns;
    hide Header;
    hide SendNames;
    hide SendColumns;
    hide JointNames;
  }

  /** The same for the columns about the sends and the error codes. */
  lemma SendColumnsHeaded(s: ServoSample, dropped: nat)
    ensures
      var row := Columns(s, dropped);
      && Under("left_send_start_ns", Decimal(s.leftSendStart), 16, row)
      && Under("left_send_end_ns", Decimal(s.leftSendEnd), 17, row)
      && Under("right_send_start_ns", Decimal(s.rightSendStart), 18, row)
      && Under("right_send_end_ns", Decimal(s.rightSendEnd), 19, row)
      && Under("send_skew_us", s.sendSkewUs, 20, row)
      && Under("left_send_duration_us", s.leftSendDurationUs, 21, row)
      && Under("right_send_duration_us", s.rightSendDurationUs, 22, row)
      && Under("left_error_code", Signed(s.leftErrorCode), 47, row)
      && Under("right_error_code", Signed(s.rightErrorCode), 48, row)
  {
    ColumnParts(s, dropped);
    var row, names := Columns(s, dropped), Header();
    assert row[16 + 0] == SendColumns(s)[0] && names[16 + 0] == SendNames()[0];
    assert row[16 + 1] == SendColumns(s)[1] && names[16 + 1] == SendNames()[1];
    assert row[16 + 2] == SendColumns(s)[2] && names[16 + 2] == SendNames()[2];
    assert row[16 + 3] == SendColumns(s)[3] && names[16 + 3] == SendNames()[3];
    assert row[16 + 4] == SendColumns(s)[4] && names[16 + 4] == SendNames()[4];
    assert row[16 + 5] == SendColumns(s)[5] && names[16 + 5] == SendNames()[5];
    assert row[16 + 6] == SendColumns(s)[6] && names[16 + 6] == SendNames()[6];
    hide Decimal;
    hide Signed;
    hide Columns;
    hide Header;
    hide HeadNames;
    hide HeadColumns;
    hide JointNames;
  }

  /** Each joint value is under the heading of its arm, its kind and its number. */
  lemma JointsHeaded(s: ServoSample, dropped: nat, j: nat)
    requires j < DOF
    ensures
      var row := Columns(s, dropped);
      && Under("left_q_actual_" + Decimal(j), s.leftActual[j], 23 + j, row)
      && Under("right_q_actual_" + Decimal(j), s.rightActual[j], 29 + j, row)
      && Under("left_q_sent_" + Decimal(j), s.leftSent[j], 35 + j, row)
      && Under("right_q_sent_" + Decimal(j), s.rightSent[j], 41 + j, row)
  {
    ColumnParts(s, dropped);
    JointNameAt("left_q_actual_", j);
    JointNameAt("right_q_actual_", j);
    JointNameAt("left_q_sent_", j);
    JointNameAt("right_q_sent_", j);
    hide Decimal;
    hide Columns;
    hide Header;
    hide JointNames;
  }

  lemma JointNameAt(prefix: string, j: nat)
    requires j < DOF
    ensures |JointNames(prefix)| == DOF && JointNames(prefix)[j] == prefix + Decimal(j)
  {
    assert Decimal(j) == [Digit(j)];
    assert j == 0 ==> Decimal(j) == "0";
    assert j == 1 ==> Decimal(j) == "1";
    assert j == 2 ==> Decimal(j) == "2";
    assert j == 3 ==> Decimal(j) == "3";
    assert j == 4 ==> Decimal(j) == "4";
    assert j == 5 ==> Decimal(j) == "5";
  }

  /** The number that digits denote. */
  function ReadDecimal(s: string): int {
    if s == "" then 0 else 10 * ReadDecimal(s[..|s| - 1]) + (s[|s| - 1] as int - '0' as int)
  }

  function ReadSigned(s: string): int {
    if s != "" && s[0] == '-' then -ReadDecimal(s[1..]) else ReadDecimal(s)
  }

  lemma {:induction false} DecimalReadsBack(n: nat)
    ensures Decimal(n) != "" && Decimal(n)[0] != '-' && ReadDecimal(Decimal(n)) == n
  {
    if n < 10 {
      assert Decimal(n)[..0] == "";
    } else {
      DecimalReadsBack(n / 10);
      assert Decimal(n)[..|Decimal(n)| - 1] == Decimal(n / 10);
    }
  }

  /** The numbers printed are read back, and the names printed for verdicts and motion states tell them apart. */
  lemma WordsReadBack(n: int, v: Verdict, w: Verdict, x: MotionState, y: MotionState)
    ensures ReadSigned(Signed(n)) == n
    ensures VerdictName(v) == VerdictName(w) ==> v == w
    ensures StateName(x) == StateName(y) ==> x == y
  {
    DecimalReadsBack(if n < 0 then -n else n);
    if n < 0 {
      assert Signed(n)[1..] == Decimal(-n);
    }
    VerdictsDiffer(v, w);
    StatesDiffer(x, y);
    hide Decimal;
    hide VerdictName;
    hide StateName;
  }

  lemma VerdictsDiffer(v: Verdict, w: Verdict)
    ensures VerdictName(v) == VerdictName(w) ==> v == w
  {
    assert |VerdictName(v)| == |VerdictName(w)| ==> v == w || VerdictName(v)[0] != VerdictName(w)[0];
  }

  lemma StatesDiffer(x: MotionState, y: MotionState)
    ensures StateName(x) == StateName(y) ==> x == y
  {}
}
