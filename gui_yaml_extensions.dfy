/*
 * The GUI's YAML conversions: how the tool-changer, reconnect and raw
 * commands, the command wrapper and the server's response are written to
 * and read from YAML nodes.
 *
 * A decoder either decodes, refuses (returns false), or raises a conversion
 * error; the last happens when a field is present but does not name a
 * constant of its enumeration. Enumerations are written as the scalar of
 * their constant's name and read back only from such a scalar. Cloning a
 * node is the identity on node values.
 */
module GuiYaml {
  import opened Wrappers
  import opened Common

  /** The commands of the YAML wrapper. */
  datatype GuiCommand =
    | GuiToolChanger(arm: Arm, action: ToolChangerAction)
    | GuiReconnect(component: RobotComponent)
    | GuiRaw(node: Yaml)

  datatype GuiResponse = GuiResponse(ok: bool, message: string, payload: Option<Yaml>)

  /** What a `decode` gives. */
  datatype Decoded<T> = Decoded(value: T) | Refused | ConversionError

  /** The enumeration converter: a scalar holding a constant's exact name. */
  function DecodeEnum<T>(node: Yaml, parse: string -> Result<T>): (r: Option<T>)
    ensures r.Some? <==> node.YScalar? && parse(node.text).Ok?
  {
    if node.YScalar? && parse(node.text).Ok? then Some(parse(node.text).value) else None
  }

  /** `node.as<E>()`: the enumeration converter's answer, or a conversion
      error. */
  function AsEnum<T>(node: Yaml, parse: string -> Result<T>): Decoded<T>
  {
    match DecodeEnum(node, parse)
    case Some(v) => Decoded(v)
    case None => ConversionError
  }

  /** The node is a map whose "type" is the scalar `t`. */
  predicate HasType(node: Yaml, t: string)
  {
    var typeNode := Child(node, "type");
    typeNode.Some? && typeNode.value.YScalar? && typeNode.value.text == t
  }

  // ----- GuiToolChangerCommand -----

  function EncodeToolChanger(arm: Arm, action: ToolChangerAction): Yaml
  {
    YMap(map["type" := YScalar("toolChanger"), "position" := YScalar(ArmName(arm)),
             "action" := YScalar(ActionName(action))])
  }

  /** `decode`: refused unless a map of type "toolChanger" with "position"
      and "action"; those then must name an arm and an action. */
  function DecodeToolChanger(node: Yaml): (r: Decoded<(Arm, ToolChangerAction)>)
    ensures !node.YMap? || !HasType(node, "toolChanger") ==> r == Refused
    ensures node.YMap? && ("position" !in node.entries || "action" !in node.entries) ==> r == Refused
  {
    if !node.YMap? || !HasType(node, "toolChanger") then Refused
    else if "position" !in node.entries || "action" !in node.entries then Refused
    else
      match (AsEnum(node.entries["position"], ParseArm), AsEnum(node.entries["action"], ParseAction))
      case (Decoded(arm), Decoded(action)) => Decoded((arm, action))
      case _ => ConversionError
  }

  // ----- GuiReconnectCommand -----

  function EncodeReconnect(component: RobotComponent): Yaml
  {
    YMap(map["type" := YScalar("reset"), "system" := YScalar(ComponentName(component))])
  }

  /** `decode`: refused unless a map of type "reset" with "system", which
      then must name a component. */
  function DecodeReconnect(node: Yaml): (r: Decoded<RobotComponent>)
    ensures !node.YMap? || !HasType(node, "reset") || "system" !in node.entries ==> r == Refused
  {
    if !node.YMap? || !HasType(node, "reset") || "system" !in node.entries then Refused
    else AsEnum(node.entries["system"], ParseComponent)
  }

  // ----- GuiCommand -----

  /** `encode`: each variant by its own converter; a raw command is a clone
      of its node. */
  function EncodeCommand(c: GuiCommand): Yaml
  {
    match c
    case GuiToolChanger(arm, action) => EncodeToolChanger(arm, action)
    case GuiReconnect(component) => EncodeReconnect(component)
    case GuiRaw(node) => node
  }

  /** `decode`: none for anything but a map. A scalar "type" of
      "toolChanger" or "reset" selects that command, and any failure to
      convert it makes the decode fail; every other map becomes a raw
      command holding the node. */
  function DecodeCommand(node: Yaml): (r: Option<GuiCommand>)
    ensures !node.YMap? ==> r.None?
    ensures node.YMap? && !HasType(node, "toolChanger") && !HasType(node, "reset") ==> r == Some(GuiRaw(node))
  {
    if !node.YMap? then None
    else if HasType(node, "toolChanger") then
      match DecodeToolChanger(node)
      case Decoded((arm, action)) => Some(GuiToolChanger(arm, action))
      case _ => None
    else if HasType(node, "reset") then
      match DecodeReconnect(node)
      case Decoded(component) => Some(GuiReconnect(component))
      case _ => None
    else Some(GuiRaw(node))
  }

  // ----- GuiResponse -----

  /** `encode`: "status" OK or Error, the message, and "response" only
      when there is a payload. */
  function EncodeResponse(r: GuiResponse): Yaml
  {
    var base := map["status" := YScalar(if r.ok then "OK" else "Error"), "message" := YScalar(r.message)];
    YMap(if r.payload.Some? then base["response" := r.payload.value] else base)
  }

  /** `decode`: none for anything but a map; otherwise everything is reset,
      ok is set iff a scalar "status" reads "OK", the message is taken
      from a scalar "message", and the payload is "response" when present. */
  function DecodeResponse(node: Yaml): (r: Option<GuiResponse>)
    ensures r.None? <==> !node.YMap?
  {
    if !node.YMap? then None
    else
      var status := Child(node, "status");
      var message := Child(node, "message");
      Some(GuiResponse(
        status.Some? && status.value.YScalar? && status.value.text == "OK",
        if message.Some? && message.value.YScalar? then message.value.text else "",
        Child(node, "response")))
  }

  // ----- Properties -----

  /** A tool-changer command decodes back to itself. */
  lemma ToolChangerRoundTrip(arm: Arm, action: ToolChangerAction)
    ensures DecodeToolChanger(EncodeToolChanger(arm, action)) == Decoded((arm, action))
    ensures DecodeCommand(EncodeCommand(GuiToolChanger(arm, action))) == Some(GuiToolChanger(arm, action))
  {
    ArmNameRoundTrip(arm);
    ActionNameRoundTrip(action);
  }

  /** A reconnect command decodes back to itself. */
  lemma ReconnectRoundTrip(component: RobotComponent)
    ensures DecodeReconnect(EncodeReconnect(component)) == Decoded(component)
    ensures DecodeCommand(EncodeCommand(GuiReconnect(component))) == Some(GuiReconnect(component))
  {
    ComponentNameRoundTrip(component);
    var node := EncodeReconnect(component);
    assert !HasType(node, "toolChanger");
  }

  /** A raw command decodes back to itself exactly when its node is a map
      that does not look like a tool-changer or reconnect command. */
  lemma RawRoundTrip(node: Yaml)
    requires node.YMap? && !HasType(node, "toolChanger") && !HasType(node, "reset")
    ensures DecodeCommand(EncodeCommand(GuiRaw(node))) == Some(GuiRaw(node))
  {
  }

  /** A raw command whose node is not a map cannot be read back. */
  lemma RawScalarNotDecoded(node: Yaml)
    requires !node.YMap?
    ensures DecodeCommand(EncodeCommand(GuiRaw(node))).None?
  {
  }

  /** A field that names no constant is a conversion error for the typed
      decoder and a failed decode for the wrapper. */
  lemma BadFieldFailsDecode(node: Yaml)
    requires node.YMap? && HasType(node, "reset") && "system" in node.entries
    requires !node.entries["system"].YScalar? || ParseComponent(node.entries["system"].text).Err?
    ensures DecodeReconnect(node) == ConversionError
    ensures DecodeCommand(node).None?
  {
    assert !HasType(node, "toolChanger");
  }

  /** Every response decodes back to itself. */
  lemma ResponseRoundTrip(r: GuiResponse)
    ensures DecodeResponse(EncodeResponse(r)) == Some(r)
  {
  }

  /** A decoded response is reset first: a map without the fields reads as
      not ok, with no message and no payload. */
  lemma EmptyMapResponse()
    ensures DecodeResponse(YMap(map[])) == Some(GuiResponse(false, "", None))
  {
  }
}
