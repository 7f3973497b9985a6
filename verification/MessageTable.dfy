/** What an accepted message makes of each arm, described from the items of its JSON tree alone. */
module MessageTable {
  import opened Types
  import opened CommandServer

  /** The item is this number. */
  predicate Denotes(j: Json, x: real) {
    || (j.Unsigned? && x == j.n as real)
    || (j.Num? && j.v == Finite(x))
  }

  predicate SameNumber(j: Json, t: Number) {
    t.Finite? && Denotes(j, t.r)
  }

  /** The items of the array are the six components of q, in order. */
  predicate SixItems(j: Json, q: JointArray) {
    && j.Arr? && |j.items| == 6
    && Denotes(j.items[0], q[0]) && Denotes(j.items[1], q[1]) && Denotes(j.items[2], q[2])
    && Denotes(j.items[3], q[3]) && Denotes(j.items[4], q[4]) && Denotes(j.items[5], q[5])
  }

  predicate HasSix(o: Fields, key: string, q: JointArray) {
    key in o && SixItems(o[key], q)
  }

  predicate NamesMode(j: Json, m: ControlMode) {
    j.Str? && ModeNamed(j.s) == Some(m)
  }

  /** The object of the arm itself; an arm without one has no fields of its own. */
  function Own(o: Fields, key: string): Fields {
    if key in o && o[key].Obj? then o[key].fields else map[]
  }

  /** The object the payload of the arm is read from: its own, or the message itself if no arm has one. */
  function PayloadSource(o: Fields, key: string): Fields {
    if "left" !in o && "right" !in o then o else Own(o, key)
  }

  /** The mode is the arm's own, else the message's, else Hold. */
  predicate ModeFrom(o: Fields, own: Fields, m: ControlMode) {
    if "mode" in own && own["mode"] != Str("") then NamesMode(own["mode"], m)
    else if "mode" in o then NamesMode(o["mode"], m)
    else m == Hold
  }

  /** The timeout is the arm's own, else the message's, else the configured one, and positive. */
  predicate TimeoutFrom(o: Fields, own: Fields, configTimeout: Number, t: Number) {
    && t.Finite? && 0.0 < t.r
    && if "timeout_sec" in own then SameNumber(own["timeout_sec"], t)
       else if "timeout_sec" in o then SameNumber(o["timeout_sec"], t)
       else t == configTimeout
  }

  predicate GripperFrom(own: Fields, x: real) {
    if "gripper_target" in own then Denotes(own["gripper_target"], x)
    else if "gripper" in own then Denotes(own["gripper"], x)
    else x == 0.0
  }

  /** A payload that is present is taken item by item, and the arm knows that it is present. */
  predicate PayloadFrom(source: Fields, key: string, has: bool, q: JointArray) {
    && (has <==> key in source)
    && if key in source then SixItems(source[key], q) else q == ZERO6
  }

  predicate PayloadsFrom(source: Fields, a: ArmCommand) {
    && PayloadFrom(source, "q_target_deg", a.hasJointTarget, a.qTarget)
    && PayloadFrom(source, "dq_target_deg_s", a.hasJointVelocity, a.dqTarget)
    && PayloadFrom(source, "tcp_target_stand", a.hasTcpTarget, a.tcpTarget)
    && PayloadFrom(source, "tcp_delta_stand", a.hasTcpDeltaStand, a.tcpDeltaStand)
    && PayloadFrom(source, "tcp_delta_local", a.hasTcpDeltaLocal, a.tcpDeltaLocal)
  }

  predicate NumberFrom(f: Fields, key: string, default: real, x: real) {
    if key in f then Denotes(f[key], x) else x == default
  }

  predicate FlagFrom(axes: Fields, key: string, b: bool) {
    if key in axes then axes[key] == Bool(b) else !b
  }

  /** The force settings are read field by field, with defaults for the absent ones. */
  predicate ForceFrom(own: Fields, f: ForceCommand) {
    if "force_control" !in own then f == DEFAULT_FORCE
    else
      && own["force_control"].Obj?
      && var o := own["force_control"].fields;
      && (if "mode" in o && o["mode"] != Str("") then o["mode"].Str? && ForceModeNamed(o["mode"].s) == Some(f.mode)
          else f.mode == Off)
      && (if "target_wrench" in o then SixItems(o["target_wrench"], f.targetWrench) else f.targetWrench == ZERO6)
      && NumberFrom(o, "max_pos_offset_m", 0.01, f.maxPosOffset)
      && NumberFrom(o, "max_rot_offset_rad", 0.1, f.maxRotOffset)
      && NumberFrom(o, "max_pos_step_m", 0.001, f.maxPosStep)
      && NumberFrom(o, "max_rot_step_rad", 0.01, f.maxRotStep)
      && |f.enabledAxis| == 6
      && (if "enabled_axis" in o then AxesFrom(o["enabled_axis"], f.enabledAxis) else true !in f.enabledAxis)
  }

  predicate AxesFrom(j: Json, axes: seq<bool>)
    requires |axes| == 6
  {
    && j.Obj?
    && FlagFrom(j.fields, "x", axes[0]) && FlagFrom(j.fields, "y", axes[1]) && FlagFrom(j.fields, "z", axes[2])
    && FlagFrom(j.fields, "roll", axes[3]) && FlagFrom(j.fields, "pitch", axes[4])
    && FlagFrom(j.fields, "yaw", axes[5])
  }

  predicate ArmFrom(o: Fields, key: string, configTimeout: Number, time: nat, a: ArmCommand) {
    var own := Own(o, key);
    && (if "seq" in o then o["seq"] == Unsigned(a.seqNo) else a.seqNo == 0)
    && a.hostTime == time
    && ModeFrom(o, own, a.mode)
    && TimeoutFrom(o, own, configTimeout, a.timeout)
    && GripperFrom(own, a.gripper)
    && PayloadsFrom(PayloadSource(o, key), a)
    && ForceFrom(own, a.force)
  }

  predicate HasPayload(a: ArmCommand) {
    && (a.mode == JointTarget ==> a.hasJointTarget)
    && (a.mode == JointVelocity ==> a.hasJointVelocity)
    && (a.mode == TcpPoseTarget ==> a.hasTcpTarget)
    && (a.mode == TcpDeltaStand ==> a.hasTcpDeltaStand)
    && (a.mode == TcpDeltaLocal ==> a.hasTcpDeltaLocal)
  }

  // ---- Each reader does what its row says --------------------------------------------------------

  lemma NumberMeans(j: Json)
    requires IsNumber(j)
    ensures Denotes(j, Value(j))
  {}

  lemma SixMeans(j: Json)
    requires IsSix(j)
    ensures SixItems(j, SixValues(j))
  {
    var q := SixValues(j);
    assert forall i :: 0 <= i < DOF ==> IsNumber(j.items[i]) && q[i] == Value(j.items[i]);
    hide IsNumber;
    NumberMeans(j.items[0]);
    NumberMeans(j.items[1]);
    NumberMeans(j.items[2]);
    NumberMeans(j.items[3]);
    NumberMeans(j.items[4]);
    NumberMeans(j.items[5]);
    hide Denotes;
  }

  lemma PayloadMeans(o: Fields, key: string)
    requires SixOk(o, key)
    ensures PayloadFrom(o, key, key in o, SixOr(o, key, ZERO6))
  {
    if key in o {
      SixMeans(o[key]);
    }
    hide SixItems;
    hide IsSix;
    hide SixValues;
  }

  lemma PayloadsMean(o: Fields, a: ArmCommand)
    requires PayloadsOk(o)
    requires a.qTarget == a.dqTarget == a.tcpTarget == a.tcpDeltaStand == a.tcpDeltaLocal == ZERO6
    ensures PayloadsFrom(o, WithPayloads(a, o))
  {
    PayloadMeans(o, "q_target_deg");
    PayloadMeans(o, "dq_target_deg_s");
    PayloadMeans(o, "tcp_target_stand");
    PayloadMeans(o, "tcp_delta_stand");
    PayloadMeans(o, "tcp_delta_local");
    hide PayloadFrom;
    hide SixOk;
    hide SixOr;
  }

  lemma NoPayloads(a: ArmCommand)
    requires a.qTarget == a.dqTarget == a.tcpTarget == a.tcpDeltaStand == a.tcpDeltaLocal == ZERO6
    requires !a.hasJointTarget && !a.hasJointVelocity && !a.hasTcpTarget && !a.hasTcpDeltaStand && !a.hasTcpDeltaLocal
    ensures PayloadsFrom(map[], a)
  {}

  lemma NumberFieldMeans(o: Fields, key: string, default: real)
    requires NumberOk(o, key)
    ensures NumberFrom(o, key, default, NumberOr(o, key, default))
  {}

  lemma AxesMean(j: Json)
    requires AxesOk(j)
    ensures |Axes(j)| == 6 && AxesFrom(j, Axes(j))
  {}

  lemma ForceFieldsMean(o: Fields)
    requires ForceFieldsOk(o)
    ensures
      var f := ForceMeaning(o);
      && (if "mode" in o && o["mode"] != Str("") then o["mode"].Str? && ForceModeNamed(o["mode"].s) == Some(f.mode)
          else f.mode == Off)
      && (if "target_wrench" in o then SixItems(o["target_wrench"], f.targetWrench) else f.targetWrench == ZERO6)
      && NumberFrom(o, "max_pos_offset_m", 0.01, f.maxPosOffset)
      && NumberFrom(o, "max_rot_offset_rad", 0.1, f.maxRotOffset)
      && NumberFrom(o, "max_pos_step_m", 0.001, f.maxPosStep)
      && NumberFrom(o, "max_rot_step_rad", 0.01, f.maxRotStep)
      && |f.enabledAxis| == 6
      && (if "enabled_axis" in o then AxesFrom(o["enabled_axis"], f.enabledAxis) else true !in f.enabledAxis)
  {
    hide ForceModeNamed;
    PayloadMeans(o, "target_wrench");
    NumberFieldMeans(o, "max_pos_offset_m", 0.01);
    NumberFieldMeans(o, "max_rot_offset_rad", 0.1);
    NumberFieldMeans(o, "max_pos_step_m", 0.001);
    NumberFieldMeans(o, "max_rot_step_rad", 0.01);
    if "enabled_axis" in o {
      AxesMean(o["enabled_axis"]);
    }
    hide Axes;
    hide AxesFrom;
    hide AxesOk;
    hide NumberFrom;
    hide NumberOr;
    hide NumberOk;
    hide SixItems;
    hide SixOk;
    hide SixOr;
  }

  lemma ForceMeans(own: Fields)
    requires ForceOk(own)
    ensures ForceFrom(own, ForceOr(own))
  {
    if "force_control" in own {
      ForceFieldsMean(own["force_control"].fields);
    }
    hide ForceMeaning;
    hide ForceFieldsOk;
    hide NumberFrom;
    hide AxesFrom;
    hide SixItems;
    hide ForceModeNamed;
  }

  lemma GripperMeans(own: Fields)
    requires GripperOk(own)
    ensures GripperFrom(own, GripperOr(own, 0.0))
  {}

  lemma ModeMeans(o: Fields, own: Fields)
    requires StringOk(o, "mode") && ModeNamed(StringOr(o, "mode", "Hold")).Some? && ModeOk(own)
    ensures ModeFrom(o, own, ModeOr(own, ModeNamed(StringOr(o, "mode", "Hold")).value))
  {
    HoldIsNamed();
    hide ModeNamed;
  }

  lemma HoldIsNamed()
    ensures ModeNamed("Hold") == Some(Hold)
  {
    assert Lower("Hold") == "hold";
  }

  lemma TimeoutMeans(o: Fields, own: Fields, configTimeout: Number)
    requires configTimeout.Finite? && 0.0 < configTimeout.r
    requires NumberOk(o, "timeout_sec") && 0.0 < NumberOr(o, "timeout_sec", configTimeout.r)
    requires NumberOk(own, "timeout_sec") && 0.0 < NumberOr(own, "timeout_sec", 1.0)
    ensures TimeoutFrom(o, own, configTimeout,
                        Finite(NumberOr(own, "timeout_sec", NumberOr(o, "timeout_sec", configTimeout.r))))
  {}

  // ---- Arms and messages -------------------------------------------------------------------------

  lemma ArmMeans(o: Fields, key: string, id: ArmId, configTimeout: Number, time: nat)
    requires HeaderOk(o, configTimeout) && BodyOk(o) && (key == "left" || key == "right")
    ensures
      var mode := ModeNamed(StringOr(o, "mode", "Hold")).value;
      var timeout := NumberOr(o, "timeout_sec", configTimeout.r);
      var arm := ArmMeaning(Child(o, key), id, UnsignedOr(o, "seq", 0), time, mode, timeout);
      ArmFrom(o, key, configTimeout, time, if IsShared(o) then WithPayloads(arm, o) else arm)
  {
    var own := Own(o, key);
    var mode := ModeNamed(StringOr(o, "mode", "Hold")).value;
    var timeout := NumberOr(o, "timeout_sec", configTimeout.r);
    var blank := BlankArm(id, UnsignedOr(o, "seq", 0), time, mode, timeout);
    OwnOk(o, key);
    ModeMeans(o, own);
    TimeoutMeans(o, own, configTimeout);
    GripperMeans(own);
    ForceMeans(own);
    if IsShared(o) {
      PayloadsMean(o, blank);
    } else {
      PayloadsMean(own, blank);
    }
    NoPayloads(blank);
    OwnMeaning(o, key, id, UnsignedOr(o, "seq", 0), time, mode, timeout);
    hide ModeNamed;
    hide ModeFrom;
    hide TimeoutFrom;
    hide GripperFrom;
    hide ForceFrom;
    hide PayloadsFrom;
    hide PayloadsOk;
    hide ArmMeaning;
    hide ModeOr;
    hide GripperOr;
    hide ForceOr;
    hide ArmOk;
    hide ModeOk;
    hide ForceOk;
    hide GripperOk;
    hide IsNumber;
    hide SixOr;
  }

  /** An arm without an object of its own has none of the optional fields. */
  lemma OwnOk(o: Fields, key: string)
    requires ArmOk(Child(o, key))
    ensures
      var own := Own(o, key);
      && ModeOk(own) && NumberOk(own, "timeout_sec") && 0.0 < NumberOr(own, "timeout_sec", 1.0)
      && GripperOk(own) && PayloadsOk(own) && ForceOk(own)
  {
    hide ModeNamed;
    hide IsNumber;
    hide IsSix;
    hide ForceFieldsOk;
  }

  lemma OwnMeaning(o: Fields, key: string, id: ArmId, seqNo: nat, time: nat, mode: ControlMode, timeout: real)
    requires ArmOk(Child(o, key))
    requires
      var own := Own(o, key);
      && ModeOk(own) && NumberOk(own, "timeout_sec") && GripperOk(own) && PayloadsOk(own) && ForceOk(own)
    ensures
      var own, blank := Own(o, key), BlankArm(id, seqNo, time, mode, timeout);
      ArmMeaning(Child(o, key), id, seqNo, time, mode, timeout)
      == WithPayloads(blank, own).(mode := ModeOr(own, mode), timeout := Finite(NumberOr(own, "timeout_sec", timeout)),
                                   gripper := GripperOr(own, 0.0), force := ForceOr(own))
  {
    hide ModeNamed;
    hide IsNumber;
    hide IsSix;
    hide SixValues;
    hide ForceFieldsOk;
    hide ForceMeaning;
  }

  /** Each arm of an accepted message is what the items of the message say, and has the payload of its mode. */
  lemma MessageMeans(root: Json, configTimeout: Number, time: nat)
    requires Acceptable(root, configTimeout, time)
    ensures
      var cmd, o := Meaning(root.fields, configTimeout, time), root.fields;
      && cmd.hostTime == time
      && ArmFrom(o, "left", configTimeout, time, cmd.left) && HasPayload(cmd.left)
      && ArmFrom(o, "right", configTimeout, time, cmd.right) && HasPayload(cmd.right)
      && (if "coupled_timeout" in o then o["coupled_timeout"] == Bool(cmd.coupledTimeout) else cmd.coupledTimeout)
  {
    ArmMeans(root.fields, "left", ArmId.Left, configTimeout, time);
    ArmMeans(root.fields, "right", ArmId.Right, configTimeout, time);
    PayloadNeeded(Meaning(root.fields, configTimeout, time).left);
    PayloadNeeded(Meaning(root.fields, configTimeout, time).right);
    hide ArmFrom;
    hide HasPayload;
    hide MissingPayload;
    hide ArmMeaning;
    hide ArmOk;
    hide PayloadsOk;
    hide WithPayloads;
    hide ModeNamed;
    hide IsNumber;
  }

  lemma PayloadNeeded(a: ArmCommand)
    ensures MissingPayload(a) <==> !HasPayload(a)
  {}

  // ---- Which messages are accepted ---------------------------------------------------------------

  predicate IsPositive(j: Json) {
    (j.Unsigned? && 0 < j.n) || (j.Num? && j.v.Finite? && 0.0 < j.v.r)
  }

  predicate IsFinite(j: Json) {
    j.Unsigned? || (j.Num? && j.v.Finite?)
  }

  predicate SixFinite(o: Fields, key: string) {
    key in o ==>
      && o[key].Arr? && |o[key].items| == 6
      && IsFinite(o[key].items[0]) && IsFinite(o[key].items[1]) && IsFinite(o[key].items[2])
      && IsFinite(o[key].items[3]) && IsFinite(o[key].items[4]) && IsFinite(o[key].items[5])
  }

  predicate PayloadsWellFormed(o: Fields) {
    && SixFinite(o, "q_target_deg") && SixFinite(o, "dq_target_deg_s")
    && SixFinite(o, "tcp_target_stand") && SixFinite(o, "tcp_delta_stand") && SixFinite(o, "tcp_delta_local")
  }

  predicate FlagWellFormed(o: Fields, key: string) {
    key in o ==> o[key].Bool?
  }

  predicate ForceWellFormed(own: Fields) {
    "force_control" in own ==>
      && own["force_control"].Obj?
      && var o := own["force_control"].fields;
      && ("mode" in o ==> o["mode"].Str? && (o["mode"].s != "" ==> ForceModeNamed(o["mode"].s).Some?))
      && SixFinite(o, "target_wrench")
      && ("max_pos_offset_m" in o ==> IsFinite(o["max_pos_offset_m"]))
      && ("max_rot_offset_rad" in o ==> IsFinite(o["max_rot_offset_rad"]))
      && ("max_pos_step_m" in o ==> IsFinite(o["max_pos_step_m"]))
      && ("max_rot_step_rad" in o ==> IsFinite(o["max_rot_step_rad"]))
      && ("enabled_axis" in o ==> AxesWellFormed(o["enabled_axis"]))
  }

  predicate AxesWellFormed(j: Json) {
    && j.Obj?
    && FlagWellFormed(j.fields, "x") && FlagWellFormed(j.fields, "y") && FlagWellFormed(j.fields, "z")
    && FlagWellFormed(j.fields, "roll") && FlagWellFormed(j.fields, "pitch") && FlagWellFormed(j.fields, "yaw")
  }

  /** An arm may be absent or null. */
  predicate ArmWellFormed(o: Fields, key: string) {
    key in o && !o[key].Null? ==>
      && o[key].Obj?
      && var own := o[key].fields;
      && ("mode" in own ==> own["mode"].Str? && (own["mode"].s != "" ==> ModeNamed(own["mode"].s).Some?))
      && ("timeout_sec" in own ==> IsPositive(own["timeout_sec"]))
      && ("gripper_target" in own ==> IsFinite(own["gripper_target"]))
      && ("gripper_target" !in own && "gripper" in own ==> IsFinite(own["gripper"]))
      && PayloadsWellFormed(own) && ForceWellFormed(own)
  }

  predicate WellFormed(root: Json, configTimeout: Number) {
    && root.Obj?
    && var o := root.fields;
    && ("seq" in o ==> o["seq"].Unsigned?)
    && FlagWellFormed(o, "coupled_timeout")
    && ("mode" in o ==> o["mode"].Str? && ModeNamed(o["mode"].s).Some?)
    && configTimeout.Finite? && 0.0 < configTimeout.r
    && ("timeout_sec" in o ==> IsPositive(o["timeout_sec"]))
    && ArmWellFormed(o, "left") && ArmWellFormed(o, "right")
    && ("left" !in o && "right" !in o ==> PayloadsWellFormed(o))
  }

  lemma SixWellFormed(o: Fields, key: string)
    ensures SixOk(o, key) <==> SixFinite(o, key)
  {}

  lemma PayloadsAgree(o: Fields)
    ensures PayloadsOk(o) <==> PayloadsWellFormed(o)
  {
    SixWellFormed(o, "q_target_deg");
    SixWellFormed(o, "dq_target_deg_s");
    SixWellFormed(o, "tcp_target_stand");
    SixWellFormed(o, "tcp_delta_stand");
    SixWellFormed(o, "tcp_delta_local");
    hide SixOk;
    hide SixFinite;
  }

  lemma ForceAgrees(own: Fields)
    ensures ForceOk(own) <==> ForceWellFormed(own)
  {
    if "force_control" in own && own["force_control"].Obj? {
      SixWellFormed(own["force_control"].fields, "target_wrench");
    }
    hide SixOk;
    hide SixFinite;
    hide ForceModeNamed;
  }

  lemma ArmAgrees(o: Fields, key: string)
    ensures ArmOk(Child(o, key)) <==> ArmWellFormed(o, key)
  {
    if key in o && o[key].Obj? {
      PayloadsAgree(o[key].fields);
      ForceAgrees(o[key].fields);
    }
    hide PayloadsOk;
    hide PayloadsWellFormed;
    hide ForceOk;
    hide ForceWellFormed;
    hide ModeNamed;
  }

  lemma HeaderAgrees(o: Fields, configTimeout: Number)
    ensures HeaderOk(o, configTimeout) <==>
      && ("seq" in o ==> o["seq"].Unsigned?)
      && FlagWellFormed(o, "coupled_timeout")
      && ("mode" in o ==> o["mode"].Str? && ModeNamed(o["mode"].s).Some?)
      && configTimeout.Finite? && 0.0 < configTimeout.r
      && ("timeout_sec" in o ==> IsPositive(o["timeout_sec"]))
  {
    HoldIsNamed();
    hide ModeNamed;
  }

  /** The payload of whichever mode the arm ends with is there. */
  predicate Supplied(o: Fields, key: string) {
    var source := PayloadSource(o, key);
    forall m :: ModeFrom(o, Own(o, key), m) ==>
      && (m == JointTarget ==> "q_target_deg" in source)
      && (m == JointVelocity ==> "dq_target_deg_s" in source)
      && (m == TcpPoseTarget ==> "tcp_target_stand" in source)
      && (m == TcpDeltaStand ==> "tcp_delta_stand" in source)
      && (m == TcpDeltaLocal ==> "tcp_delta_local" in source)
  }

  lemma SuppliedMeans(o: Fields, key: string, configTimeout: Number, time: nat, a: ArmCommand)
    requires ArmFrom(o, key, configTimeout, time, a)
    ensures HasPayload(a) <==> Supplied(o, key)
  {
    hide ModeNamed;
    hide SixItems;
    hide ForceFrom;
    hide GripperFrom;
    hide TimeoutFrom;
    assert forall m :: ModeFrom(o, Own(o, key), m) ==> m == a.mode;
    hide ModeFrom;
  }

  /** A message is accepted if and only if it is well formed and the mode of each arm has its payload. */
  lemma AcceptedIff(root: Json, configTimeout: Number, time: nat)
    ensures Acceptable(root, configTimeout, time) <==>
      WellFormed(root, configTimeout) && Supplied(root.fields, "left") && Supplied(root.fields, "right")
  {
    if Acceptable(root, configTimeout, time) {
      AcceptedIsWellFormed(root, configTimeout, time);
    } else if WellFormed(root, configTimeout) {
      WellFormedIsMeant(root, configTimeout, time);
    }
    if WellFormed(root, configTimeout) {
      var o := root.fields;
      ArmMeans(o, "left", ArmId.Left, configTimeout, time);
      ArmMeans(o, "right", ArmId.Right, configTimeout, time);
      var cmd := Meaning(o, configTimeout, time);
      SuppliedMeans(o, "left", configTimeout, time, cmd.left);
      SuppliedMeans(o, "right", configTimeout, time, cmd.right);
      PayloadNeeded(cmd.left);
      PayloadNeeded(cmd.right);
    }
    hide Supplied;
    hide ArmFrom;
    hide ArmMeaning;
    hide WithPayloads;
    hide MissingPayload;
    hide HasPayload;
    hide HeaderOk;
    hide BodyOk;
    hide WellFormed;
    hide ModeNamed;
  }

  lemma AcceptedIsWellFormed(root: Json, configTimeout: Number, time: nat)
    requires Acceptable(root, configTimeout, time)
    ensures WellFormed(root, configTimeout)
  {
    var o := root.fields;
    HeaderAgrees(o, configTimeout);
    ArmAgrees(o, "left");
    ArmAgrees(o, "right");
    PayloadsAgree(o);
    hide HeaderOk;
    hide ArmOk;
    hide ArmWellFormed;
    hide PayloadsOk;
    hide PayloadsWellFormed;
    hide ModeNamed;
    hide Meaning;
  }

  lemma WellFormedIsMeant(root: Json, configTimeout: Number, time: nat)
    requires WellFormed(root, configTimeout)
    ensures HeaderOk(root.fields, configTimeout) && BodyOk(root.fields)
  {
    var o := root.fields;
    HeaderAgrees(o, configTimeout);
    ArmAgrees(o, "left");
    ArmAgrees(o, "right");
    PayloadsAgree(o);
    hide HeaderOk;
    hide ArmOk;
    hide ArmWellFormed;
    hide PayloadsOk;
    hide PayloadsWellFormed;
    hide ModeNamed;
  }

  // ---- Names -------------------------------------------------------------------------------------

  /** The spellings of a mode, in any case. */
  predicate Spells(name: string, m: ControlMode) {
    var s := Lower(name);
    match m
    case Idle => s == "idle"
    case Hold => s == "hold"
    case ArmMotion => s in ["armmotion", "arm_motion", "arm"]
    case DisarmMotion => s in ["disarmmotion", "disarm_motion", "disarm"]
    case JointTarget => s in ["jointtarget", "joint_target"]
    case JointVelocity => s in ["jointvelocity", "joint_velocity"]
    case TcpPoseTarget => s in ["tcpposetarget", "tcp_pose_target"]
    case TcpDeltaStand => s in ["tcpdeltastand", "tcp_delta_stand"]
    case TcpDeltaLocal => s in ["tcpdeltalocal", "tcp_delta_local"]
    case EmergencyStop => s in ["emergencystop", "emergency_stop", "estop"]
    case ResetFault => s in ["resetfault", "reset_fault", "reset"]
  }

  /** A name is read as a mode if and only if it is one of its spellings. */
  lemma SpellingsRead(name: string, m: ControlMode)
    ensures ModeNamed(name) == Some(m) <==> Spells(name, m)
  {
    ReadIsSpelled(name, m);
    if IsMotion(m) {
      MotionSpellingRead(name, m);
    } else {
      OtherSpellingRead(name, m);
    }
    hide *;
  }

  lemma ReadIsSpelled(name: string, m: ControlMode)
    ensures ModeNamed(name) == Some(m) ==> Spells(name, m)
  {
    hide Lower;
  }

  lemma MotionSpellingRead(name: string, m: ControlMode)
    requires IsMotion(m)
    ensures Spells(name, m) ==> ModeNamed(name) == Some(m)
  {
    hide Lower;
  }

  lemma OtherSpellingRead(name: string, m: ControlMode)
    requires !IsMotion(m)
    ensures Spells(name, m) ==> ModeNamed(name) == Some(m)
  {
    hide Lower;
  }
}
