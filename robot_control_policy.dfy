/*
 * The control policies that turn one cycle's inputs into a control decision:
 * which outputs to write, which motor intents to apply, and whether the tool
 * changers should blink their error.
 *
 * Both policies share a guard: no inputs, or the Contec I/O board in Error,
 * gives the blinking decision; inputs without both buttons raise. Past the
 * guard the lights mirror the buttons. The RimoKun policy also turns the
 * joysticks into six speed intents, one per motor.
 *
 * The joystick axes and the axis configuration are floating-point numbers in
 * the system; the model computes with exact reals.
 */
module ControlPolicy {
  import opened Wrappers
  import opened Common

  /** Signal names to levels, ordered by name in the system. */
  type SignalMap = map<string, bool>

  /** The control modes of a motor. The policy only ever asks for `Speed`;
      the remaining modes of the enumeration are carried by name. */
  datatype MotorControlMode = Speed | OtherMode(name: string)

  datatype MotorControlDirection = Forward | Reverse

  /** What the controller should do with one motor this cycle. */
  datatype MotorIntent = MotorIntent(
    motorId: MotorId,
    mode: Option<MotorControlMode>,
    direction: Option<MotorControlDirection>,
    speed: Option<int>,
    acceleration: Option<int>,
    deceleration: Option<int>,
    position: Option<int>,
    startMovement: bool,
    stopMovement: bool)

  datatype ControlDecision = ControlDecision(
    outputs: Option<SignalMap>,
    motorIntents: seq<MotorIntent>,
    setToolChangerErrorBlinking: bool)

  /** The motion settings of one joystick axis. */
  datatype AxisConfig = AxisConfig(
    neutralAxisActivationThreshold: real,
    speedUpdateAxisDeltaThreshold: real,
    maxLinearSpeedMmPerSec: real,
    stepsPerMm: real)

  const DefaultAxis := AxisConfig(0.10, 0.02, 80.0, 100.0)

  datatype MotionConfig = MotionConfig(
    leftArmX: AxisConfig,
    leftArmY: AxisConfig,
    rightArmX: AxisConfig,
    rightArmY: AxisConfig,
    gantryZ: AxisConfig)

  const DefaultMotion := MotionConfig(DefaultAxis, DefaultAxis, DefaultAxis, DefaultAxis, DefaultAxis)

  /** The two policies the server can run. */
  datatype Policy = DefaultPolicy | RimoKunPolicy(motion: MotionConfig)

  const MissingButtons := "Missing required input signals 'button1'/'button2' for control policy."

  /** The decision of the shared guard: write nothing, blink the error. */
  const Blinking := ControlDecision(None, [], true)

  /** The lights mirror the buttons. */
  function Lights(inputs: SignalMap): (r: SignalMap)
    requires "button1" in inputs && "button2" in inputs
    ensures r.Keys == {"light1", "light2"}
    ensures r["light1"] == inputs["button1"] && r["light2"] == inputs["button2"]
  {
    map["light1" := inputs["button1"], "light2" := inputs["button2"]]
  }

  /** `DefaultRobotControlPolicy::decide`; the current outputs and the robot
      status are not consulted. */
  function DecideDefault(inputs: Option<SignalMap>, contecState: ComponentState): Result<ControlDecision>
  {
    if inputs.None? || contecState == ComponentState.Error then Ok(Blinking)
    else if "button1" !in inputs.value || "button2" !in inputs.value then Err(MissingButtons)
    else Ok(ControlDecision(Some(Lights(inputs.value)), [], false))
  }

  // ----- The RimoKun policy -----

  function Clamp(v: real): (r: real)
    ensures -1.0 <= r <= 1.0
    ensures -1.0 <= v <= 1.0 ==> r == v
  {
    if v < -1.0 then -1.0 else if v > 1.0 then 1.0 else v
  }

  function Abs(v: real): real
  {
    if v < 0.0 then -v else v
  }

  /** `std::llround`: the nearest integer, halves away from zero. */
  function RoundHalfAway(v: real): (r: int)
    ensures v >= 0.0 ==> r as real <= v + 0.5 < r as real + 1.0
    ensures v < 0.0 ==> r as real - 1.0 < v - 0.5 <= r as real
  {
    if v >= 0.0 then (v + 0.5).Floor else -((-v + 0.5).Floor)
  }

  /** A conversion to a 32-bit signed integer, which keeps the value modulo
      2^32. */
  function ToInt32(n: int): (r: int)
    ensures -0x8000_0000 <= r < 0x8000_0000
    ensures -0x8000_0000 <= n < 0x8000_0000 ==> r == n
    ensures (r - n) % 0x1_0000_0000 == 0
  {
    (n + 0x8000_0000) % 0x1_0000_0000 - 0x8000_0000
  }

  /** `speedStepsPerSecFromAxis`: the rounded speed of the clamped
      deflection, whatever its sign, as a 32-bit value. */
  function SpeedStepsPerSec(axis: real, cfg: AxisConfig): (r: int)
    ensures -0x8000_0000 <= r < 0x8000_0000
  {
    StepsOfDeflection(Abs(Clamp(axis)), cfg)
  }

  /** The rounded speed of a deflection `d` between 0 and 1. */
  function StepsOfDeflection(d: real, cfg: AxisConfig): int
  {
    ToInt32(RoundHalfAway(d * cfg.maxLinearSpeedMmPerSec * cfg.stepsPerMm))
  }

  /** `joystickOrNeutral`: a missing joystick reads as centred and released. */
  function JoystickOrNeutral(status: RobotStatus, arm: Arm): (r: JoystickStatus)
    ensures arm !in status.joystics ==> r == JoystickStatus(0.0, 0.0, false)
    ensures arm in status.joystics ==> r == status.joystics[arm]
  {
    if arm in status.joystics then status.joystics[arm] else JoystickStatus(0.0, 0.0, false)
  }

  function StopOnly(m: MotorId): MotorIntent
  {
    MotorIntent(m, None, None, None, None, None, None, false, true)
  }

  /** The intent `appendSpeedIntent` builds for one motor: stop while the
      clamped axis is inside the neutral band, otherwise run at speed in the
      axis's direction. */
  function SpeedIntent(m: MotorId, axis: real, cfg: AxisConfig): MotorIntent
  {
    if Abs(Clamp(axis)) < cfg.neutralAxisActivationThreshold then StopOnly(m)
    else
      var steps := SpeedStepsPerSec(axis, cfg);
      MotorIntent(m, Some(Speed), Some(if axis >= 0.0 then Forward else Reverse),
                  Some(if steps < 1 then 1 else steps), None, None, None, true, false)
  }

  /** The six intents, left joystick for the left arm, right joystick for the
      right arm, and the gantry joystick's y axis for both Z motors. */
  function RimoKunIntents(motion: MotionConfig, status: RobotStatus): seq<MotorIntent>
  {
    var leftJs := JoystickOrNeutral(status, Left);
    var rightJs := JoystickOrNeutral(status, Right);
    var gantryJs := JoystickOrNeutral(status, Gantry);
    [SpeedIntent(XLeft, leftJs.x, motion.leftArmX),
     SpeedIntent(YLeft, leftJs.y, motion.leftArmY),
     SpeedIntent(XRight, rightJs.x, motion.rightArmX),
     SpeedIntent(YRight, rightJs.y, motion.rightArmY),
     SpeedIntent(ZLeft, gantryJs.y, motion.gantryZ),
     SpeedIntent(ZRight, gantryJs.y, motion.gantryZ)]
  }

  /** `RimoKunControlPolicy::decide`; the current outputs are not consulted. */
  function DecideRimoKun(motion: MotionConfig, inputs: Option<SignalMap>, contecState: ComponentState,
                         status: RobotStatus): Result<ControlDecision>
  {
    if inputs.None? || contecState == ComponentState.Error then Ok(Blinking)
    else if "button1" !in inputs.value || "button2" !in inputs.value then Err(MissingButtons)
    else Ok(ControlDecision(Some(Lights(inputs.value)), RimoKunIntents(motion, status), false))
  }

  /** `decide` of the policy in use. */
  function Decide(policy: Policy, inputs: Option<SignalMap>, currentOutputs: Option<SignalMap>,
                  contecState: ComponentState, status: RobotStatus): Result<ControlDecision>
  {
    match policy
    case DefaultPolicy => DecideDefault(inputs, contecState)
    case RimoKunPolicy(motion) => DecideRimoKun(motion, inputs, contecState, status)
  }

  // ----- Properties -----

  /** The guard of either policy: blinking exactly when there are no inputs
      or the Contec board is in Error, and then nothing is written and no
      motor is commanded. */
  lemma BlinkingIffGuard(policy: Policy, inputs: Option<SignalMap>, currentOutputs: Option<SignalMap>,
                         contecState: ComponentState, status: RobotStatus)
    ensures var r := Decide(policy, inputs, currentOutputs, contecState, status);
      && (r.Ok? && r.value.setToolChangerErrorBlinking <==> inputs.None? || contecState == ComponentState.Error)
      && (r.Ok? && r.value.setToolChangerErrorBlinking ==> r.value.outputs.None? && r.value.motorIntents == [])
  {
  }

  /** Past the guard, a missing button raises, and nothing else does. */
  lemma MissingButtonRaises(policy: Policy, inputs: Option<SignalMap>, currentOutputs: Option<SignalMap>,
                            contecState: ComponentState, status: RobotStatus)
    ensures var r := Decide(policy, inputs, currentOutputs, contecState, status);
      && (r.Err? <==> inputs.Some? && contecState != ComponentState.Error
                      && ("button1" !in inputs.value || "button2" !in inputs.value))
      && (r.Err? ==> r.msg == MissingButtons)
  {
  }

  /** A decision past the guard writes exactly light1 and light2, copied from
      button1 and button2, and does not blink. */
  lemma LightsFollowButtons(policy: Policy, inputs: Option<SignalMap>, currentOutputs: Option<SignalMap>,
                            contecState: ComponentState, status: RobotStatus)
    requires inputs.Some? && contecState != ComponentState.Error
    requires "button1" in inputs.value && "button2" in inputs.value
    ensures var r := Decide(policy, inputs, currentOutputs, contecState, status);
      && r.Ok? && !r.value.setToolChangerErrorBlinking && r.value.outputs.Some?
      && r.value.outputs.value.Keys == {"light1", "light2"}
      && r.value.outputs.value["light1"] == inputs.value["button1"]
      && r.value.outputs.value["light2"] == inputs.value["button2"]
  {
  }

  /** The default policy never commands a motor. */
  lemma DefaultPolicyHasNoIntents(inputs: Option<SignalMap>, currentOutputs: Option<SignalMap>,
                                  contecState: ComponentState, status: RobotStatus)
    ensures var r := Decide(DefaultPolicy, inputs, currentOutputs, contecState, status);
      r.Ok? ==> r.value.motorIntents == []
  {
  }

  /** RimoKun decides outputs, blinking and errors exactly as the default
      policy does; it differs only in its motor intents. */
  lemma RimoKunAgreesWithDefault(motion: MotionConfig, inputs: Option<SignalMap>, currentOutputs: Option<SignalMap>,
                                 contecState: ComponentState, status: RobotStatus)
    ensures var k := Decide(RimoKunPolicy(motion), inputs, currentOutputs, contecState, status);
      var d := Decide(DefaultPolicy, inputs, currentOutputs, contecState, status);
      && k.Ok? == d.Ok?
      && (k.Err? ==> k.msg == d.msg)
      && (k.Ok? ==> k.value.outputs == d.value.outputs
                    && k.value.setToolChangerErrorBlinking == d.value.setToolChangerErrorBlinking)
  {
  }

  /** Past the guard RimoKun emits six intents, for XLeft, YLeft, XRight,
      YRight, ZLeft and ZRight in that order, and the two Z motors get the
      same command. */
  lemma SixIntentsInOrder(motion: MotionConfig, inputs: Option<SignalMap>, currentOutputs: Option<SignalMap>,
                          contecState: ComponentState, status: RobotStatus)
    requires Decide(RimoKunPolicy(motion), inputs, currentOutputs, contecState, status).Ok?
    requires !Decide(RimoKunPolicy(motion), inputs, currentOutputs, contecState, status).value.setToolChangerErrorBlinking
    ensures var intents := Decide(RimoKunPolicy(motion), inputs, currentOutputs, contecState, status).value.motorIntents;
      && |intents| == 6
      && intents[0].motorId == XLeft && intents[1].motorId == YLeft
      && intents[2].motorId == XRight && intents[3].motorId == YRight
      && intents[4].motorId == ZLeft && intents[5].motorId == ZRight
      && intents[5] == intents[4].(motorId := ZRight)
  {
  }

  /** Every intent is either stop-only, exactly when the clamped axis is
      inside the neutral band, or a start in Speed mode whose direction is
      Forward exactly when the axis is not negative, at a speed of at least 1
      step per second that fits in 32 bits. */
  lemma SpeedIntentShape(m: MotorId, axis: real, cfg: AxisConfig)
    ensures var i := SpeedIntent(m, axis, cfg);
      && i.motorId == m
      && i.acceleration.None? && i.deceleration.None? && i.position.None?
      && (i.stopMovement <==> Abs(Clamp(axis)) < cfg.neutralAxisActivationThreshold)
      && (i.stopMovement ==> i == StopOnly(m))
      && (!i.stopMovement ==>
            && i.startMovement && i.mode == Some(Speed)
            && i.direction.Some? && (i.direction.value == Forward <==> axis >= 0.0)
            && i.speed.Some? && 1 <= i.speed.value < 0x8000_0000)
  {
  }

  /** The speed does not depend on the direction of the deflection: an
      axis and its mirror image run equally fast. */
  lemma SpeedIgnoresDirection(axis: real, cfg: AxisConfig)
    ensures SpeedStepsPerSec(-axis, cfg) == SpeedStepsPerSec(axis, cfg)
  {
    assert Clamp(-axis) == -Clamp(axis);
    assert Abs(Clamp(-axis)) == Abs(Clamp(axis));
  }

  /** A joystick the status does not hold drives its axes as if centred. */
  lemma MissingJoystickIsNeutral(motion: MotionConfig, status: RobotStatus, arm: Arm)
    requires arm !in status.joystics
    ensures RimoKunIntents(motion, status) ==
      RimoKunIntents(motion, status.(joystics := status.joystics[arm := JoystickStatus(0.0, 0.0, false)]))
  {
  }

  /** With every joystick missing and positive thresholds, every motor is
      told to stop. */
  lemma NoJoysticksStopsAll(motion: MotionConfig, status: RobotStatus)
    requires status.joystics == map[]
    requires motion.leftArmX.neutralAxisActivationThreshold > 0.0
    requires motion.leftArmY.neutralAxisActivationThreshold > 0.0
    requires motion.rightArmX.neutralAxisActivationThreshold > 0.0
    requires motion.rightArmY.neutralAxisActivationThreshold > 0.0
    requires motion.gantryZ.neutralAxisActivationThreshold > 0.0
    ensures forall i :: 0 <= i < |RimoKunIntents(motion, status)| ==>
      RimoKunIntents(motion, status)[i].stopMovement && !RimoKunIntents(motion, status)[i].startMovement
  {
  }

  /** Full deflection on a default axis runs at 80 mm/s times 100 steps/mm,
      and a deflection past the end stop runs no faster. */
  lemma FullDeflectionSpeed(m: MotorId)
    ensures SpeedIntent(m, 1.0, DefaultAxis).speed == Some(8000)
    ensures SpeedIntent(m, 2.5, DefaultAxis) == SpeedIntent(m, 1.0, DefaultAxis)
    ensures SpeedIntent(m, -1.0, DefaultAxis).direction == Some(Reverse)
    ensures SpeedIntent(m, -1.0, DefaultAxis).speed == Some(8000)
  {
    assert RoundHalfAway(8000.0) == 8000;
  }
}
