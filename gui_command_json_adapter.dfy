/*
 * The GUI's JSON adapter: it writes the commands the GUI sends to the server
 * as JSON objects and reads the server's JSON responses back.
 *
 * The command variants are those the adapter handles, including the motor
 * diagnostics, alarm reset, motor enabling and Contec diagnostics commands;
 * a raw command carries a JSON document of its own.
 */
module GuiJson {
  import opened Wrappers
  import opened Common
  import CommandInterface
  import CommandProcessor

  /** A command the GUI sends. */
  datatype GuiCommand =
    | GuiToolChanger(arm: Arm, action: ToolChangerAction)
    | GuiReconnect(component: RobotComponent)
    | GuiMotorDiagnostics(motor: MotorId)
    | GuiResetMotorAlarm(motor: MotorId)
    | GuiSetMotorEnabled(motor: MotorId, enabled: bool)
    | GuiSetAllMotorsEnabled(enabled: bool)
    | GuiContecDiagnostics
    | GuiRaw(node: Json)

  /** The server's answer as the GUI sees it. */
  datatype GuiResponse = GuiResponse(ok: bool, message: string, payload: Option<Json>)

  /** The "type" each typed command is written with. */
  function TypeName(c: GuiCommand): string
    requires !c.GuiRaw?
  {
    match c
    case GuiToolChanger(_, _) => "toolChanger"
    case GuiReconnect(_) => "reset"
    case GuiMotorDiagnostics(_) => "motorDiagnostics"
    case GuiResetMotorAlarm(_) => "resetMotorAlarm"
    case GuiSetMotorEnabled(_, _) => "setMotorEnabled"
    case GuiSetAllMotorsEnabled(_) => "setAllMotorsEnabled"
    case GuiContecDiagnostics => "contecDiagnostics"
  }

  /** `toJson`: a typed command becomes an object with its "type" and its
      fields, enumerations by their names; a raw command is its own
      document. */
  function ToJson(c: GuiCommand): (r: Json)
    ensures !c.GuiRaw? ==> r.JObject? && "type" in r.fields && r.fields["type"] == JString(TypeName(c))
    ensures c.GuiRaw? ==> r == c.node
  {
    match c
    case GuiToolChanger(arm, action) =>
      JObject(map["type" := JString("toolChanger"), "position" := JString(ArmName(arm)),
                  "action" := JString(ActionName(action))])
    case GuiReconnect(component) =>
      JObject(map["type" := JString("reset"), "system" := JString(ComponentName(component))])
    case GuiMotorDiagnostics(motor) =>
      JObject(map["type" := JString("motorDiagnostics"), "motor" := JString(MotorName(motor))])
    case GuiResetMotorAlarm(motor) =>
      JObject(map["type" := JString("resetMotorAlarm"), "motor" := JString(MotorName(motor))])
    case GuiSetMotorEnabled(motor, enabled) =>
      JObject(map["type" := JString("setMotorEnabled"), "motor" := JString(MotorName(motor)),
                  "enabled" := JBool(enabled)])
    case GuiSetAllMotorsEnabled(enabled) =>
      JObject(map["type" := JString("setAllMotorsEnabled"), "enabled" := JBool(enabled)])
    case GuiContecDiagnostics =>
      JObject(map["type" := JString("contecDiagnostics")])
    case GuiRaw(node) => node
  }

  /** `fromJson`: none for anything but an object. ok is set only by a
      string "status" equal to "OK"; the message is taken only from a string
      "message"; the payload is whatever "response" holds, when present. */
  function FromJson(response: Json): (r: Option<GuiResponse>)
    ensures r.None? <==> !response.JObject?
  {
    if !response.JObject? then None
    else
      var f := response.fields;
      Some(GuiResponse(
        "status" in f && f["status"].JString? && f["status"].s == "OK",
        if "message" in f && f["message"].JString? then f["message"].s else "",
        if "response" in f then Some(f["response"]) else None))
  }

  /** The server payload a typed command stands for. */
  function ServerPayload(c: GuiCommand): (p: CommandInterface.Payload)
    requires !c.GuiRaw?
  {
    match c
    case GuiToolChanger(arm, action) => CommandInterface.ToolChangerCommand(arm, action)
    case GuiReconnect(component) => CommandInterface.ReconnectCommand(component)
    case GuiMotorDiagnostics(motor) => CommandInterface.MotorDiagnosticsCommand(motor)
    case GuiResetMotorAlarm(motor) => CommandInterface.ResetMotorAlarmCommand(motor)
    case GuiSetMotorEnabled(motor, enabled) => CommandInterface.SetMotorEnabledCommand(motor, enabled)
    case GuiSetAllMotorsEnabled(enabled) => CommandInterface.SetAllMotorsEnabledCommand(enabled)
    case GuiContecDiagnostics => CommandInterface.ContecDiagnosticsCommand
  }

  /** The kinds `processCommand` handles. */
  predicate ServerHandles(c: GuiCommand)
  {
    c.GuiToolChanger? || c.GuiReconnect? || c.GuiMotorDiagnostics? || c.GuiResetMotorAlarm?
    || c.GuiContecDiagnostics?
  }

  // ----- Properties -----

  /** The GUI writes a command the server handles exactly as the server
      expects it, so the server dispatches that very command, once, with
      its two-second timeout. */
  lemma HandledCommandsDispatch(c: GuiCommand, dispatch: (CommandInterface.Payload, nat) -> string,
                                parseJson: string -> Option<Json>)
    requires ServerHandles(c)
    ensures CommandProcessor.CommandJson(ServerPayload(c)) == Some(ToJson(c))
    ensures CommandProcessor.ProcessCommand(ToJson(c), dispatch, parseJson).dispatched ==
      Some(CommandProcessor.Dispatch(ServerPayload(c), CommandProcessor.DispatchTimeoutMs))
  {
    CommandProcessor.CommandJsonDispatches(ServerPayload(c), dispatch, parseJson);
  }

  /** The motor-enabling commands the GUI writes are not types the server's
      processor knows: it refuses them as unknown without dispatching. */
  lemma EnableCommandsUnknownToServer(c: GuiCommand, dispatch: (CommandInterface.Payload, nat) -> string,
                                      parseJson: string -> Option<Json>)
    requires c.GuiSetMotorEnabled? || c.GuiSetAllMotorsEnabled?
    ensures var o := CommandProcessor.ProcessCommand(ToJson(c), dispatch, parseJson);
      && CommandProcessor.Status(o.response) == "Error" && o.dispatched.None?
      && CommandProcessor.Message(o.response) == "Unknown command type '" + TypeName(c) + "'!"
  {
    CommandProcessor.UnknownTypeRefused(ToJson(c), TypeName(c), dispatch, parseJson);
  }

  /** Reading back any response the server's processor writes gives its
      status, message and payload unchanged. */
  lemma ServerResponsesReadBack(ok: bool, message: string, payload: Option<Json>)
    ensures FromJson(CommandProcessor.Response(ok, message, payload)) == Some(GuiResponse(ok, message, payload))
  {
  }

  /** ok holds exactly when "status" is the string "OK"; a message or a
      status that is not a string is ignored; the payload is present
      exactly when "response" is, and verbatim. */
  lemma FromJsonFields(f: map<string, Json>)
    ensures var r := FromJson(JObject(f)).value;
      && (r.ok <==> "status" in f && f["status"] == JString("OK"))
      && ("message" in f && !f["message"].JString? ==> r.message == "")
      && ("message" !in f ==> r.message == "")
      && (r.payload.Some? <==> "response" in f)
      && ("response" in f ==> r.payload.value == f["response"])
  {
  }
}
