/** The value types shared by every component of the servo server. */
module Types {

  datatype Option<+T> = None | Some(value: T)

  /** The number of joints of one arm. */
  const DOF: nat := 6

  /** One value per joint, or the six components of a pose or a wrench. */
  type JointArray = q: seq<real> | |q| == DOF witness [0.0, 0.0, 0.0, 0.0, 0.0, 0.0]

  const ZERO6: JointArray := [0.0, 0.0, 0.0, 0.0, 0.0, 0.0]

  /** A double that may be an infinity or a NaN. */
  datatype Number = Finite(r: real) | NonFinite

  datatype ArmId = Left | Right

  datatype RunMode = Real | Simulation | Mock

  datatype ControlMode =
    | Idle | Hold
    | ArmMotion | DisarmMotion
    | JointTarget | JointVelocity
    | TcpPoseTarget | TcpDeltaStand | TcpDeltaLocal
    | EmergencyStop | ResetFault

  datatype MotionState = Disconnected | ConnectedHold | ArmedHold | Running | FaultLatched | EmergencyLatched

  datatype ConnectionState = NotConnected | Connected | ConnectionError

  datatype Verdict =
    | Ok
    | LimitClamped
    | TrackingError
    | RobotStateError
    | SendFailure
    | EmergencyStopped
    | Latched
    | InvalidCommand
    | CartesianUnavailable

  datatype TrackingErrorPolicy = SnapToActual | FaultLatch

  /** `qFinite` says whether all six readings are finite; the numbers themselves are reals. */
  datatype RobotState = RobotState(
    qActual: JointArray,
    qFinite: bool,
    hasValidJointState: bool,
    connection: ConnectionState,
    hasError: bool)

  datatype ForceMode = Off | Admittance | Impedance | ExternalForceSafety

  /** `enabledAxis` lists x, y, z, roll, pitch, yaw. */
  datatype ForceCommand = ForceCommand(
    mode: ForceMode,
    targetWrench: JointArray,
    enabledAxis: seq<bool>,
    maxPosOffset: real,
    maxRotOffset: real,
    maxPosStep: real,
    maxRotStep: real)

  const DEFAULT_FORCE: ForceCommand :=
    ForceCommand(Off, ZERO6, [false, false, false, false, false, false], 0.01, 0.1, 0.001, 0.01)

  datatype ArmCommand = ArmCommand(
    armId: ArmId,
    seqNo: nat,
    hostTime: nat,
    mode: ControlMode,
    qTarget: JointArray,
    dqTarget: JointArray,
    tcpTarget: JointArray,
    tcpDeltaStand: JointArray,
    tcpDeltaLocal: JointArray,
    force: ForceCommand,
    gripper: real,
    timeout: Number,
    hasJointTarget: bool,
    hasJointVelocity: bool,
    hasTcpTarget: bool,
    hasTcpDeltaStand: bool,
    hasTcpDeltaLocal: bool)

  /** An arm command with every field at its default value. */
  const DEFAULT_ARM: ArmCommand :=
    ArmCommand(ArmId.Left, 0, 0, Hold, ZERO6, ZERO6, ZERO6, ZERO6, ZERO6, DEFAULT_FORCE, 0.0,
               Finite(0.2), false, false, false, false, false)

  datatype DualCommand = DualCommand(
    seqNo: nat,
    hostTime: nat,
    left: ArmCommand,
    right: ArmCommand,
    coupledTimeout: bool)

  predicate IsCartesian(m: ControlMode) {
    m == TcpPoseTarget || m == TcpDeltaStand || m == TcpDeltaLocal
  }

  predicate IsMotion(m: ControlMode) {
    m == JointTarget || m == JointVelocity || IsCartesian(m)
  }

  predicate IsLifecycle(m: ControlMode) {
    m == ArmMotion || m == DisarmMotion || m == EmergencyStop || m == ResetFault
  }

  predicate MissingPayload(c: ArmCommand) {
    match c.mode
    case JointTarget => !c.hasJointTarget
    case JointVelocity => !c.hasJointVelocity
    case TcpPoseTarget => !c.hasTcpTarget
    case TcpDeltaStand => !c.hasTcpDeltaStand
    case TcpDeltaLocal => !c.hasTcpDeltaLocal
    case _ => false
  }

  /** A hold command for both arms. */
  function HoldCommand(now: nat, leftPose: JointArray, rightPose: JointArray): DualCommand {
    DualCommand(0, now, DEFAULT_ARM.(qTarget := leftPose),
                DEFAULT_ARM.(armId := ArmId.Right, qTarget := rightPose), true)
  }

  datatype SafetyConfig = SafetyConfig(
    qMin: JointArray,
    qMax: JointArray,
    dqMax: JointArray,
    ddqMax: JointArray,
    maxTrackingError: real,
    trackingPolicy: TrackingErrorPolicy,
    stopBothArms: bool,
    latchOnStateError: bool)

  datatype ServoConfig = ServoConfig(rateHz: int, dtMinRatio: real, dtMaxRatio: real)

  datatype Config = Config(leftMode: RunMode, rightMode: RunMode, servo: ServoConfig, safety: SafetyConfig)

  predicate IsReal(c: Config) {
    c.leftMode == Real || c.rightMode == Real
  }

  /** What the position, velocity and acceleration limits must satisfy for the clamps to be meaningful. */
  predicate SoundLimits(c: SafetyConfig) {
    forall i :: 0 <= i < DOF ==> c.qMin[i] <= c.qMax[i] && 0.0 < c.dqMax[i] && 0.0 < c.ddqMax[i]
  }

  function Abs(x: real): real {
    if x < 0.0 then -x else x
  }

  function Min(x: real, y: real): real {
    if y < x then y else x
  }

  function Max(x: real, y: real): real {
    if x < y then y else x
  }

  /** std::clamp */
  function Clamp(x: real, lo: real, hi: real): real {
    if x < lo then lo else if hi < x then hi else x
  }
}
