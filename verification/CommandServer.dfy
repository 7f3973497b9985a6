/** The command parser over a JSON tree: which messages are accepted and what they mean, stated field by
    field, and the readers that establish it step by step. */
module CommandServer {
  import opened Types

  type Fields = map<string, Json>

  /** Unsigned integers are kept apart because only they are accepted as sequence numbers. */
  datatype Json =
    | Null
    | Bool(b: bool)
    | Unsigned(n: nat)
    | Num(v: Number)
    | Str(s: string)
    | Arr(items: seq<Json>)
    | Obj(fields: map<string, Json>)

  // ---- Names -------------------------------------------------------------------------------------

  function LowerChar(c: char): char {
    if 'A' <= c <= 'Z' then (c as int + 32) as char else c
  }

  function Lower(s: string): string {
    seq(|s|, i requires 0 <= i < |s| => LowerChar(s[i]))
  }

  function ModeNamed(name: string): Option<ControlMode> {
    var m := Lower(name);
    if m == "idle" then Some(Idle)
    else if m == "hold" then Some(Hold)
    else if m == "armmotion" || m == "arm_motion" || m == "arm" then Some(ArmMotion)
    else if m == "disarmmotion" || m == "disarm_motion" || m == "disarm" then Some(DisarmMotion)
    else if m == "jointtarget" || m == "joint_target" then Some(JointTarget)
    else if m == "jointvelocity" || m == "joint_velocity" then Some(JointVelocity)
    else if m == "tcpposetarget" || m == "tcp_pose_target" then Some(TcpPoseTarget)
    else if m == "tcpdeltastand" || m == "tcp_delta_stand" then Some(TcpDeltaStand)
    else if m == "tcpdeltalocal" || m == "tcp_delta_local" then Some(TcpDeltaLocal)
    else if m == "emergencystop" || m == "emergency_stop" || m == "estop" then Some(EmergencyStop)
    else if m == "resetfault" || m == "reset_fault" || m == "reset" then Some(ResetFault)
    else None
  }

  function ForceModeNamed(name: string): Option<ForceMode> {
    var m := Lower(name);
    if m == "off" then Some(Off)
    else if m == "admittance" then Some(Admittance)
    else if m == "impedance" then Some(Impedance)
    else if m == "externalforcesafety" || m == "external_force_safety" || m == "safety" then Some(ExternalForceSafety)
    else None
  }

  // ---- What a field may hold ---------------------------------------------------------------------

  predicate IsNumber(j: Json) {
    j.Unsigned? || (j.Num? && j.v.Finite?)
  }

  function Value(j: Json): real
    requires IsNumber(j)
  {
    if j.Unsigned? then j.n as real else j.v.r
  }

  predicate IsSix(j: Json) {
    j.Arr? && |j.items| == DOF && forall i :: 0 <= i < DOF ==> IsNumber(j.items[i])
  }

  function SixValues(j: Json): JointArray
    requires IsSix(j)
  {
    seq(DOF, i requires 0 <= i < DOF => Value(j.items[i]))
  }

  predicate NumberOk(o: Fields, key: string) {
    key in o ==> IsNumber(o[key])
  }

  function NumberOr(o: Fields, key: string, default: real): real
    requires NumberOk(o, key)
  {
    if key in o then Value(o[key]) else default
  }

  predicate BoolOk(o: Fields, key: string) {
    key in o ==> o[key].Bool?
  }

  function BoolOr(o: Fields, key: string, default: bool): bool
    requires BoolOk(o, key)
  {
    if key in o then o[key].b else default
  }

  predicate StringOk(o: Fields, key: string) {
    key in o ==> o[key].Str?
  }

  function StringOr(o: Fields, key: string, default: string): string
    requires StringOk(o, key)
  {
    if key in o then o[key].s else default
  }

  predicate UnsignedOk(o: Fields, key: string) {
    key in o ==> o[key].Unsigned?
  }

  function UnsignedOr(o: Fields, key: string, default: nat): nat
    requires UnsignedOk(o, key)
  {
    if key in o then o[key].n else default
  }

  predicate SixOk(o: Fields, key: string) {
    key in o ==> IsSix(o[key])
  }

  function SixOr(o: Fields, key: string, default: JointArray): JointArray
    requires SixOk(o, key)
  {
    if key in o then SixValues(o[key]) else default
  }

  /** The empty name leaves the mode as it is. */
  predicate ModeOk(o: Fields) {
    StringOk(o, "mode") && (StringOr(o, "mode", "") != "" ==> ModeNamed(StringOr(o, "mode", "")).Some?)
  }

  function ModeOr(o: Fields, default: ControlMode): ControlMode
    requires ModeOk(o)
  {
    var name := StringOr(o, "mode", "");
    if name == "" then default else ModeNamed(name).value
  }

  // ---- What a message means ----------------------------------------------------------------------

  predicate PayloadsOk(o: Fields) {
    && SixOk(o, "q_target_deg") && SixOk(o, "dq_target_deg_s")
    && SixOk(o, "tcp_target_stand") && SixOk(o, "tcp_delta_stand") && SixOk(o, "tcp_delta_local")
  }

  function WithPayloads(a: ArmCommand, o: Fields): ArmCommand
    requires PayloadsOk(o)
  {
    a.(qTarget := SixOr(o, "q_target_deg", a.qTarget), hasJointTarget := "q_target_deg" in o,
       dqTarget := SixOr(o, "dq_target_deg_s", a.dqTarget), hasJointVelocity := "dq_target_deg_s" in o,
       tcpTarget := SixOr(o, "tcp_target_stand", a.tcpTarget), hasTcpTarget := "tcp_target_stand" in o,
       tcpDeltaStand := SixOr(o, "tcp_delta_stand", a.tcpDeltaStand), hasTcpDeltaStand := "tcp_delta_stand" in o,
       tcpDeltaLocal := SixOr(o, "tcp_delta_local", a.tcpDeltaLocal), hasTcpDeltaLocal := "tcp_delta_local" in o)
  }

  predicate AxesOk(j: Json) {
    && j.Obj?
    && BoolOk(j.fields, "x") && BoolOk(j.fields, "y") && BoolOk(j.fields, "z")
    && BoolOk(j.fields, "roll") && BoolOk(j.fields, "pitch") && BoolOk(j.fields, "yaw")
  }

  function Axes(j: Json): seq<bool>
    requires AxesOk(j)
  {
    [BoolOr(j.fields, "x", false), BoolOr(j.fields, "y", false), BoolOr(j.fields, "z", false),
     BoolOr(j.fields, "roll", false), BoolOr(j.fields, "pitch", false), BoolOr(j.fields, "yaw", false)]
  }

  predicate ForceFieldsOk(o: Fields) {
    && StringOk(o, "mode") && (StringOr(o, "mode", "") != "" ==> ForceModeNamed(StringOr(o, "mode", "")).Some?)
    && SixOk(o, "target_wrench")
    && NumberOk(o, "max_pos_offset_m") && NumberOk(o, "max_rot_offset_rad")
    && NumberOk(o, "max_pos_step_m") && NumberOk(o, "max_rot_step_rad")
    && ("enabled_axis" in o ==> AxesOk(o["enabled_axis"]))
  }

  function ForceMeaning(o: Fields): ForceCommand
    requires ForceFieldsOk(o)
  {
    var name, d := StringOr(o, "mode", ""), DEFAULT_FORCE;
    ForceCommand(
      if name == "" then d.mode else ForceModeNamed(name).value,
      SixOr(o, "target_wrench", d.targetWrench),
      if "enabled_axis" in o then Axes(o["enabled_axis"]) else d.enabledAxis,
      NumberOr(o, "max_pos_offset_m", d.maxPosOffset), NumberOr(o, "max_rot_offset_rad", d.maxRotOffset),
      NumberOr(o, "max_pos_step_m", d.maxPosStep), NumberOr(o, "max_rot_step_rad", d.maxRotStep))
  }

  predicate ForceOk(o: Fields) {
    "force_control" in o ==> o["force_control"].Obj? && ForceFieldsOk(o["force_control"].fields)
  }

  function ForceOr(o: Fields): ForceCommand
    requires ForceOk(o)
  {
    if "force_control" in o then ForceMeaning(o["force_control"].fields) else DEFAULT_FORCE
  }

  predicate GripperOk(o: Fields) {
    if "gripper_target" in o then NumberOk(o, "gripper_target") else NumberOk(o, "gripper")
  }

  function GripperOr(o: Fields, default: real): real
    requires GripperOk(o)
  {
    if "gripper_target" in o then NumberOr(o, "gripper_target", default) else NumberOr(o, "gripper", default)
  }

  function BlankArm(id: ArmId, seqNo: nat, time: nat, mode: ControlMode, timeout: real): ArmCommand {
    DEFAULT_ARM.(armId := id, seqNo := seqNo, hostTime := time, mode := mode, timeout := Finite(timeout))
  }

  predicate ArmOk(j: Json) {
    j.Null? ||
    (&& j.Obj?
     && ModeOk(j.fields)
     && NumberOk(j.fields, "timeout_sec") && 0.0 < NumberOr(j.fields, "timeout_sec", 1.0)
     && GripperOk(j.fields) && PayloadsOk(j.fields) && ForceOk(j.fields))
  }

  function ArmMeaning(j: Json, id: ArmId, seqNo: nat, time: nat, mode: ControlMode, timeout: real): ArmCommand
    requires ArmOk(j)
  {
    var blank := BlankArm(id, seqNo, time, mode, timeout);
    if j.Null? then blank
    else
      var o := j.fields;
      WithPayloads(blank, o).(mode := ModeOr(o, mode), timeout := Finite(NumberOr(o, "timeout_sec", timeout)),
                              gripper := GripperOr(o, blank.gripper), force := ForceOr(o))
  }

  function Child(o: Fields, key: string): Json {
    if key in o then o[key] else Null
  }

  /** No arm is addressed on its own, so payloads at the root are for both. */
  predicate IsShared(o: Fields) {
    "left" !in o && "right" !in o
  }

  predicate HeaderOk(o: Fields, configTimeout: Number) {
    && UnsignedOk(o, "seq") && BoolOk(o, "coupled_timeout")
    && StringOk(o, "mode") && ModeNamed(StringOr(o, "mode", "Hold")).Some?
    && configTimeout.Finite? && 0.0 < configTimeout.r
    && NumberOk(o, "timeout_sec") && 0.0 < NumberOr(o, "timeout_sec", configTimeout.r)
  }

  predicate BodyOk(o: Fields) {
    ArmOk(Child(o, "left")) && ArmOk(Child(o, "right")) && (IsShared(o) ==> PayloadsOk(o))
  }

  function Meaning(o: Fields, configTimeout: Number, time: nat): DualCommand
    requires HeaderOk(o, configTimeout) && BodyOk(o)
  {
    var seqNo := UnsignedOr(o, "seq", 0);
    var mode := ModeNamed(StringOr(o, "mode", "Hold")).value;
    var timeout := NumberOr(o, "timeout_sec", configTimeout.r);
    var left := ArmMeaning(Child(o, "left"), ArmId.Left, seqNo, time, mode, timeout);
    var right := ArmMeaning(Child(o, "right"), ArmId.Right, seqNo, time, mode, timeout);
    DualCommand(seqNo, time,
                if IsShared(o) then WithPayloads(left, o) else left,
                if IsShared(o) then WithPayloads(right, o) else right,
                BoolOr(o, "coupled_timeout", true))
  }

  /** A message is accepted when every field it has is well formed and each motion mode has its payload. */
  predicate Acceptable(root: Json, configTimeout: Number, time: nat) {
    && root.Obj? && HeaderOk(root.fields, configTimeout) && BodyOk(root.fields)
    && !MissingPayload(Meaning(root.fields, configTimeout, time).left)
    && !MissingPayload(Meaning(root.fields, configTimeout, time).right)
  }

  // ---- The readers -------------------------------------------------------------------------------

  method ReadOptionalNumber(o: Fields, key: string, out: real) returns (ok: bool, value: real)
    ensures ok == NumberOk(o, key) && (ok ==> value == NumberOr(o, key, out))
  {
    value := out;
    if key !in o {
      return true, value;
    }
    ok := IsNumber(o[key]);
    if ok {
      value := Value(o[key]);
    }
  }

  method ReadOptionalArray6(o: Fields, key: string, out: JointArray)
      returns (ok: bool, values: JointArray, present: bool)
    ensures ok == SixOk(o, key)
    ensures ok ==> values == SixOr(o, key, out) && present == (key in o)
  {
    values, present := out, false;
    if key !in o {
      return true, values, present;
    }
    if !o[key].Arr? || |o[key].items| != DOF {
      return false, values, present;
    }
    var read: JointArray := ZERO6;
    for i := 0 to DOF
      invariant forall k :: 0 <= k < i ==> IsNumber(o[key].items[k]) && read[k] == Value(o[key].items[k])
    {
      if !IsNumber(o[key].items[i]) {
        return false, values, present;
      }
      read := read[i := Value(o[key].items[i])];
    }
    assert read == SixValues(o[key]);
    return true, read, true;
  }

  method ReadPayloads(o: Fields, a: ArmCommand) returns (ok: bool, out: ArmCommand)
    ensures ok == PayloadsOk(o) && (ok ==> out == WithPayloads(a, o))
  {
    hide IsSix;
    out := a;
    var present, six;
    ok, six, present := ReadOptionalArray6(o, "q_target_deg", out.qTarget);
    if !ok { return; }
    out := out.(qTarget := six, hasJointTarget := present);
    ok, six, present := ReadOptionalArray6(o, "dq_target_deg_s", out.dqTarget);
    if !ok { return; }
    out := out.(dqTarget := six, hasJointVelocity := present);
    ok, six, present := ReadOptionalArray6(o, "tcp_target_stand", out.tcpTarget);
    if !ok { return; }
    out := out.(tcpTarget := six, hasTcpTarget := present);
    ok, six, present := ReadOptionalArray6(o, "tcp_delta_stand", out.tcpDeltaStand);
    if !ok { return; }
    out := out.(tcpDeltaStand := six, hasTcpDeltaStand := present);
    ok, six, present := ReadOptionalArray6(o, "tcp_delta_local", out.tcpDeltaLocal);
    if !ok { return; }
    out := out.(tcpDeltaLocal := six, hasTcpDeltaLocal := present);
  }

  method ParseForceControl(o: Fields) returns (ok: bool, out: ForceCommand)
    ensures ok == ForceOk(o) && (ok ==> out == ForceOr(o))
  {
    out := DEFAULT_FORCE;
    if "force_control" !in o {
      return true, out;
    }
    if !o["force_control"].Obj? {
      return false, out;
    }
    hide IsSix;
    hide ForceModeNamed;
    hide IsNumber;
    var f := o["force_control"].fields;
    if !StringOk(f, "mode") {
      return false, out;
    }
    var name := StringOr(f, "mode", "");
    if name != "" {
      var mode := ForceModeNamed(name);
      if mode.None? {
        return false, out;
      }
      out := out.(mode := mode.value);
    }
    var six, present, x;
    ok, six, present := ReadOptionalArray6(f, "target_wrench", out.targetWrench);
    if !ok { return; }
    out := out.(targetWrench := six);
    ok, x := ReadOptionalNumber(f, "max_pos_offset_m", out.maxPosOffset);
    if !ok { return; }
    out := out.(maxPosOffset := x);
    ok, x := ReadOptionalNumber(f, "max_rot_offset_rad", out.maxRotOffset);
    if !ok { return; }
    out := out.(maxRotOffset := x);
    ok, x := ReadOptionalNumber(f, "max_pos_step_m", out.maxPosStep);
    if !ok { return; }
    out := out.(maxPosStep := x);
    ok, x := ReadOptionalNumber(f, "max_rot_step_rad", out.maxRotStep);
    if !ok { return; }
    out := out.(maxRotStep := x);
    if "enabled_axis" in f {
      if !AxesOk(f["enabled_axis"]) {
        return false, out;
      }
      out := out.(enabledAxis := Axes(f["enabled_axis"]));
    }
  }

  /** The mode, the timeout and the gripper target of an arm object. */
  method ReadArmHeader(o: Fields, blank: ArmCommand, timeout: real) returns (ok: bool, out: ArmCommand)
    ensures ok == (ModeOk(o) && NumberOk(o, "timeout_sec") && GripperOk(o))
    ensures ok ==> out == blank.(mode := ModeOr(o, blank.mode), timeout := Finite(NumberOr(o, "timeout_sec", timeout)),
                                 gripper := GripperOr(o, blank.gripper))
  {
    hide ModeNamed;
    hide IsNumber;
    out := blank;
    if !StringOk(o, "mode") {
      return false, out;
    }
    var name := StringOr(o, "mode", "");
    if name != "" {
      var named := ModeNamed(name);
      if named.None? {
        return false, out;
      }
      out := out.(mode := named.value);
    }
    var x;
    ok, x := ReadOptionalNumber(o, "timeout_sec", timeout);
    if !ok { return; }
    out := out.(timeout := Finite(x));
    if "gripper_target" in o {
      ok, x := ReadOptionalNumber(o, "gripper_target", out.gripper);
    } else {
      ok, x := ReadOptionalNumber(o, "gripper", out.gripper);
    }
    if !ok { return; }
    out := out.(gripper := x);
  }

  method ParseArmObject(j: Json, id: ArmId, seqNo: nat, time: nat, mode: ControlMode, timeout: real)
      returns (ok: bool, out: ArmCommand)
    requires 0.0 < timeout
    ensures ok == ArmOk(j) && (ok ==> out == ArmMeaning(j, id, seqNo, time, mode, timeout))
  {
    hide ModeOk;
    hide ModeOr;
    hide IsNumber;
    hide GripperOk;
    hide GripperOr;
    hide PayloadsOk;
    hide SixOr;
    hide ForceOk;
    hide ForceOr;
    out := BlankArm(id, seqNo, time, mode, timeout);
    if j.Null? {
      return true, out;
    }
    if !j.Obj? {
      return false, out;
    }
    var o := j.fields;
    ok, out := ReadArmHeader(o, out, timeout);
    if !ok { return; }
    ok, out := ReadPayloads(o, out);
    if !ok { return; }
    var force;
    ok, force := ParseForceControl(o);
    if !ok { return; }
    out := out.(force := force);
    ok := 0.0 < out.timeout.r;
  }

  /** Accepts exactly the acceptable messages and returns what they mean. */
  method ParseMessage(root: Json, configTimeout: Number, time: nat) returns (result: Option<DualCommand>)
    ensures result.Some? <==> Acceptable(root, configTimeout, time)
    ensures result.Some? ==> result.value == Meaning(root.fields, configTimeout, time)
  {
    if !root.Obj? {
      return None;
    }
    hide ModeNamed;
    hide IsNumber;
    hide ArmOk;
    hide ArmMeaning;
    hide PayloadsOk;
    hide WithPayloads;
    hide MissingPayload;
    var o := root.fields;
    if !UnsignedOk(o, "seq") || !BoolOk(o, "coupled_timeout") || !StringOk(o, "mode") {
      return None;
    }
    var seqNo, coupled := UnsignedOr(o, "seq", 0), BoolOr(o, "coupled_timeout", true);
    var mode := ModeNamed(StringOr(o, "mode", "Hold"));
    if mode.None? || !configTimeout.Finite? || configTimeout.r <= 0.0 {
      return None;
    }
    var ok, timeout := ReadOptionalNumber(o, "timeout_sec", configTimeout.r);
    if !ok || timeout <= 0.0 {
      return None;
    }
    var left, right;
    ok, left := ParseArmObject(Child(o, "left"), ArmId.Left, seqNo, time, mode.value, timeout);
    if !ok { return None; }
    ok, right := ParseArmObject(Child(o, "right"), ArmId.Right, seqNo, time, mode.value, timeout);
    if !ok { return None; }
    if IsShared(o) {
      ok, left := ReadPayloads(o, left);
      if !ok { return None; }
      ok, right := ReadPayloads(o, right);
    }
    if MissingPayload(left) || MissingPayload(right) {
      return None;
    }
    return Some(DualCommand(seqNo, time, left, right, coupled));
  }
}
