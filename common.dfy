/*
 * Vocabulary shared by the server and the GUI: the enumerations of the
 * machine (arms, tool-changer actions, robot components, motors, LED states,
 * status flags, component states), their text names, the robot status that
 * the server publishes, and the JSON and YAML document trees that commands
 * and responses travel in.
 *
 * Every enumeration is written to text by its constant's own name and read
 * back by exact, case-sensitive comparison with those names; any other text
 * is an invalid enum value.
 */
module Common {
  import opened Wrappers

  datatype Arm = Left | Right | Gantry
  datatype ToolChangerAction = Open | Close
  datatype RobotComponent = Contec | ControlPanel | MotorControl
  datatype MotorId = XLeft | XRight | YLeft | YRight | ZLeft | ZRight
  datatype LedState = On | Off | Error | Warning | ErrorBlinking
  datatype ToolChangerFlag = ProxSen | OpenSen | ClosedSen | OpenValve | ClosedValve
  datatype MotorFlag = Alarm | BrakeApplied | Enabled | Warning

  /** The health of a machine component. */
  datatype ComponentState = Normal | Warning | Error

  /** Every constant of each enumeration, in declaration order. */
  const Arms: seq<Arm> := [Left, Right, Gantry]
  const ToolChangerActions: seq<ToolChangerAction> := [Open, Close]
  const RobotComponents: seq<RobotComponent> := [Contec, ControlPanel, MotorControl]
  const Motors: seq<MotorId> := [XLeft, XRight, YLeft, YRight, ZLeft, ZRight]
  const LedStates: seq<LedState> :=
    [LedState.On, LedState.Off, LedState.Error, LedState.Warning, LedState.ErrorBlinking]
  const ToolChangerFlags: seq<ToolChangerFlag> := [ProxSen, OpenSen, ClosedSen, OpenValve, ClosedValve]

  function ArmName(a: Arm): string
  {
    match a
    case Left => "Left"
    case Right => "Right"
    case Gantry => "Gantry"
  }

  function ActionName(a: ToolChangerAction): string
  {
    match a
    case Open => "Open"
    case Close => "Close"
  }

  function ComponentName(c: RobotComponent): string
  {
    match c
    case Contec => "Contec"
    case ControlPanel => "ControlPanel"
    case MotorControl => "MotorControl"
  }

  function MotorName(m: MotorId): string
  {
    match m
    case XLeft => "XLeft"
    case XRight => "XRight"
    case YLeft => "YLeft"
    case YRight => "YRight"
    case ZLeft => "ZLeft"
    case ZRight => "ZRight"
  }

  function LedName(l: LedState): string
  {
    match l
    case On => "On"
    case Off => "Off"
    case Error => "Error"
    case Warning => "Warning"
    case ErrorBlinking => "ErrorBlinking"
  }

  /** The first of `values` whose name is `text`, or none. */
  function FindByName<T>(values: seq<T>, name: T -> string, text: string): (r: Option<T>)
    ensures r.Some? ==> r.value in values && name(r.value) == text
    ensures r.None? ==> forall i :: 0 <= i < |values| ==> name(values[i]) != text
  {
    if |values| == 0 then None
    else if name(values[0]) == text then Some(values[0])
    else FindByName(values[1..], name, text)
  }

  /** Reading the name of a listed value gives that value back, when no two
      listed values share a name. */
  lemma {:induction false} FindByNameOfName<T>(values: seq<T>, name: T -> string, v: T)
    requires v in values
    requires forall i, j :: 0 <= i < j < |values| ==> name(values[i]) != name(values[j])
    ensures FindByName(values, name, name(v)) == Some(v)
  {
    if values[0] == v {
    } else {
      assert name(values[0]) != name(v) by {
        var j :| 0 <= j < |values| && values[j] == v;
        assert j != 0;
      }
      assert v in values[1..] by {
        var j :| 0 <= j < |values| && values[j] == v;
        assert values[1..][j - 1] == v;
      }
      assert forall i, j :: 0 <= i < j < |values[1..]| ==> name(values[1..][i]) != name(values[1..][j]) by {
        forall i, j | 0 <= i < j < |values[1..]|
          ensures name(values[1..][i]) != name(values[1..][j])
        {
          assert values[1..][i] == values[i + 1] && values[1..][j] == values[j + 1];
        }
      }
      FindByNameOfName(values[1..], name, v);
    }
  }

  /** `stringToEnum`: the constant named `text`, or the error that names the text. */
  function ParseArm(text: string): (r: Result<Arm>)
    ensures r.Ok? <==> exists a: Arm :: ArmName(a) == text
    ensures r.Ok? ==> ArmName(r.value) == text
    ensures r.Err? ==> r.msg == "Invalid enum value: " + text
  {
    match FindByName(Arms, ArmName, text)
    case Some(a) => Ok(a)
    case None =>
      assert forall a: Arm :: ArmName(a) != text by {
        forall a: Arm ensures ArmName(a) != text {
          assert a == Arms[0] || a == Arms[1] || a == Arms[2];
        }
      }
      Err("Invalid enum value: " + text)
  }

  function ParseAction(text: string): (r: Result<ToolChangerAction>)
    ensures r.Ok? <==> exists a: ToolChangerAction :: ActionName(a) == text
    ensures r.Ok? ==> ActionName(r.value) == text
    ensures r.Err? ==> r.msg == "Invalid enum value: " + text
  {
    match FindByName(ToolChangerActions, ActionName, text)
    case Some(a) => Ok(a)
    case None =>
      assert forall a: ToolChangerAction :: ActionName(a) != text by {
        forall a: ToolChangerAction ensures ActionName(a) != text {
          assert a == ToolChangerActions[0] || a == ToolChangerActions[1];
        }
      }
      Err("Invalid enum value: " + text)
  }

  function ParseComponent(text: string): (r: Result<RobotComponent>)
    ensures r.Ok? <==> exists c: RobotComponent :: ComponentName(c) == text
    ensures r.Ok? ==> ComponentName(r.value) == text
    ensures r.Err? ==> r.msg == "Invalid enum value: " + text
  {
    match FindByName(RobotComponents, ComponentName, text)
    case Some(c) => Ok(c)
    case None =>
      assert forall c: RobotComponent :: ComponentName(c) != text by {
        forall c: RobotComponent ensures ComponentName(c) != text {
          assert c == RobotComponents[0] || c == RobotComponents[1] || c == RobotComponents[2];
        }
      }
      Err("Invalid enum value: " + text)
  }

  function ParseMotor(text: string): (r: Result<MotorId>)
    ensures r.Ok? <==> exists m: MotorId :: MotorName(m) == text
    ensures r.Ok? ==> MotorName(r.value) == text
    ensures r.Err? ==> r.msg == "Invalid enum value: " + text
  {
    match FindByName(Motors, MotorName, text)
    case Some(m) => Ok(m)
    case None =>
      assert forall m: MotorId :: MotorName(m) != text by {
        forall m: MotorId ensures MotorName(m) != text {
          assert m == Motors[0] || m == Motors[1] || m == Motors[2]
              || m == Motors[3] || m == Motors[4] || m == Motors[5];
        }
      }
      Err("Invalid enum value: " + text)
  }

  /** Writing an arm by name and reading the name back gives the same arm. */
  lemma ArmNameRoundTrip(a: Arm)
    ensures ParseArm(ArmName(a)) == Ok(a)
  {
    assert a in Arms;
    FindByNameOfName(Arms, ArmName, a);
  }

  lemma ActionNameRoundTrip(a: ToolChangerAction)
    ensures ParseAction(ActionName(a)) == Ok(a)
  {
    assert a in ToolChangerActions;
    FindByNameOfName(ToolChangerActions, ActionName, a);
  }

  lemma ComponentNameRoundTrip(c: RobotComponent)
    ensures ParseComponent(ComponentName(c)) == Ok(c)
  {
    assert c in RobotComponents;
    FindByNameOfName(RobotComponents, ComponentName, c);
  }

  lemma MotorNameRoundTrip(m: MotorId)
    ensures ParseMotor(MotorName(m)) == Ok(m)
  {
    assert m in Motors;
    FindByNameOfName(Motors, MotorName, m);
  }

  /** Names are case-sensitive: the lower-cased name of a constant is not accepted. */
  lemma NamesAreCaseSensitive()
    ensures ParseArm("left").Err?
    ensures ParseAction("open").Err?
    ensures ParseComponent("contec").Err?
  {
  }

  // ----- The published robot status -----

  /** The status of one motor. Positions and speed are floating-point numbers
      in the system; the model carries them as reals and only copies them. */
  datatype SingleMotorStatus = SingleMotorStatus(
    currentPosition: real,
    targetPosition: real,
    speed: real,
    torque: int,
    state: LedState,
    warningDescription: string,
    alarmDescription: string,
    flags: map<MotorFlag, LedState>)

  datatype ToolChangerStatus = ToolChangerStatus(flags: map<ToolChangerFlag, LedState>)

  datatype JoystickStatus = JoystickStatus(x: real, y: real, btn: bool)

  datatype RobotStatus = RobotStatus(
    motors: map<MotorId, SingleMotorStatus>,
    toolChangers: map<Arm, ToolChangerStatus>,
    robotComponents: map<RobotComponent, LedState>,
    joystics: map<Arm, JoystickStatus>)

  /** A default-constructed status: every map empty. */
  const EmptyStatus := RobotStatus(map[], map[], map[], map[])

  // ----- Document trees -----

  /** A JSON value. Numbers are integers in this model. */
  datatype Json =
    | JNull
    | JBool(b: bool)
    | JNumber(n: int)
    | JString(s: string)
    | JArray(items: seq<Json>)
    | JObject(fields: map<string, Json>)

  /** A YAML node with string keys. A key that a map does not hold reads as
      an undefined node, which is `None` where a lookup can miss. */
  datatype Yaml =
    | YNull
    | YScalar(text: string)
    | YSequence(items: seq<Yaml>)
    | YMap(entries: map<string, Yaml>)

  /** `node[key]`: the child under `key` of a map node; undefined otherwise. */
  function Child(node: Yaml, key: string): (r: Option<Yaml>)
    ensures r.Some? <==> node.YMap? && key in node.entries
    ensures r.Some? ==> r.value == node.entries[key]
  {
    if node.YMap? && key in node.entries then Some(node.entries[key]) else None
  }
}
