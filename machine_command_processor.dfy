/*
 * The server's command processor: it checks a JSON command, turns it into at
 * most one machine command, hands that to the dispatcher with a two-second
 * timeout, and answers with a JSON object holding a "status" ("OK" or
 * "Error"), a "message" and, for diagnostics, a "response".
 *
 * The dispatcher and the JSON parser that reads diagnostics replies are code
 * outside this model; both are parameters here.
 */
module CommandProcessor {
  import opened Wrappers
  import opened Common
  import opened CommandInterface

  /** The timeout every dispatch is given, in milliseconds. */
  const DispatchTimeoutMs := 2000

  /** A call of the dispatcher: the payload and its timeout. */
  datatype Dispatch = Dispatch(payload: Payload, timeoutMs: nat)

  /** The answer to a command, and the dispatch it caused, if any. */
  datatype Outcome = Outcome(response: Json, dispatched: Option<Dispatch>)

  /** The response object: status, message and an optional "response". */
  function Response(ok: bool, message: string, payload: Option<Json>): (r: Json)
    ensures r.JObject? && "status" in r.fields && "message" in r.fields
    ensures r.fields["status"] == JString(if ok then "OK" else "Error")
    ensures r.fields["message"] == JString(message)
    ensures "response" in r.fields <==> payload.Some?
    ensures payload.Some? ==> r.fields["response"] == payload.value
  {
    var base := map["status" := JString(if ok then "OK" else "Error"), "message" := JString(message)];
    JObject(if payload.Some? then base["response" := payload.value] else base)
  }

  /** `enumFromJsonStringField`: the field must be a string naming a
      constant of the enumeration. */
  function StringField(fields: map<string, Json>, key: string): (r: Result<string>)
    ensures r.Ok? <==> key in fields && fields[key].JString?
    ensures r.Ok? ==> r.value == fields[key].s
    ensures r.Err? ==> r.msg == "Missing or invalid '" + key + "' entry"
  {
    if key in fields && fields[key].JString? then Ok(fields[key].s)
    else Err("Missing or invalid '" + key + "' entry")
  }

  function ArmField(fields: map<string, Json>, key: string): Result<Arm>
  {
    var text :- StringField(fields, key);
    ParseArm(text)
  }

  function ActionField(fields: map<string, Json>, key: string): Result<ToolChangerAction>
  {
    var text :- StringField(fields, key);
    ParseAction(text)
  }

  function ComponentField(fields: map<string, Json>, key: string): Result<RobotComponent>
  {
    var text :- StringField(fields, key);
    ParseComponent(text)
  }

  function MotorField(fields: map<string, Json>, key: string): Result<MotorId>
  {
    var text :- StringField(fields, key);
    ParseMotor(text)
  }

  /** What every answer of the processor satisfies: an object with a string
      "status" that is "OK" or "Error" and a string "message", and a dispatch
      given two seconds when there is one. */
  predicate WellFormed(o: Outcome)
  {
    && o.response.JObject?
    && "status" in o.response.fields && o.response.fields["status"].JString?
    && (Status(o.response) == "OK" || Status(o.response) == "Error")
    && "message" in o.response.fields && o.response.fields["message"].JString?
    && (o.dispatched.Some? ==> o.dispatched.value.timeoutMs == DispatchTimeoutMs)
  }

  /** A refusal: an error response and no dispatch. */
  function Refuse(message: string): (o: Outcome)
    ensures WellFormed(o) && o.dispatched.None?
    ensures Status(o.response) == "Error" && Message(o.response) == message
    ensures "response" !in o.response.fields
  {
    Outcome(Response(false, message, None), None)
  }

  /** Dispatches a command whose reply is an error text: an empty reply is
      success, any other reply is the error message. */
  function DispatchForStatus(p: Payload, dispatch: (Payload, nat) -> string): (o: Outcome)
    ensures WellFormed(o) && o.dispatched == Some(Dispatch(p, DispatchTimeoutMs))
    ensures Status(o.response) == "OK" <==> dispatch(p, DispatchTimeoutMs) == []
    ensures Message(o.response) == dispatch(p, DispatchTimeoutMs)
    ensures "response" !in o.response.fields
  {
    var reply := dispatch(p, DispatchTimeoutMs);
    Outcome(Response(reply == [], reply, None), Some(Dispatch(p, DispatchTimeoutMs)))
  }

  /** Dispatches a diagnostics command: the reply must be a non-empty JSON
      text, which becomes the "response". */
  function DispatchForDiagnostics(p: Payload, name: string, dispatch: (Payload, nat) -> string,
                                  parseJson: string -> Option<Json>): (o: Outcome)
    ensures WellFormed(o) && o.dispatched == Some(Dispatch(p, DispatchTimeoutMs))
    ensures var reply := dispatch(p, DispatchTimeoutMs);
      && (reply == [] ==>
            Status(o.response) == "Error"
            && Message(o.response) == name + " command returned empty diagnostics payload.")
      && (reply != [] && parseJson(reply).Some? ==>
            Status(o.response) == "OK" && "response" in o.response.fields
            && o.response.fields["response"] == parseJson(reply).value)
      && (reply != [] && parseJson(reply).None? ==>
            Status(o.response) == "Error" && Message(o.response) == reply)
  {
    var reply := dispatch(p, DispatchTimeoutMs);
    var d := Some(Dispatch(p, DispatchTimeoutMs));
    if reply == [] then
      Outcome(Response(false, name + " command returned empty diagnostics payload.", None), d)
    else match parseJson(reply)
      case Some(j) => Outcome(Response(true, "", Some(j)), d)
      case None => Outcome(Response(false, reply, None), d)
  }

  /** The error for a field that did not convert. */
  function Invalid(name: string, cause: string): string
  {
    "Invalid " + name + " command: " + cause
  }

  /** A "toolChanger" command: needs "position" and "action", both names of
      constants. */
  function ToolChangerCase(f: map<string, Json>, dispatch: (Payload, nat) -> string): (o: Outcome)
    ensures WellFormed(o)
    ensures ("position" !in f || "action" !in f) ==>
      o == Refuse("toolChanger command requires both 'position' and 'action'.")
    ensures "position" in f && "action" in f && ArmField(f, "position").Ok? && ActionField(f, "action").Ok? ==>
      o == DispatchForStatus(ToolChangerCommand(ArmField(f, "position").value, ActionField(f, "action").value), dispatch)
    ensures (ArmField(f, "position").Err? || ActionField(f, "action").Err?) ==>
      o.dispatched.None? && Status(o.response) == "Error"
  {
    if "position" !in f || "action" !in f then
      Refuse("toolChanger command requires both 'position' and 'action'.")
    else match (ArmField(f, "position"), ActionField(f, "action"))
      case (Ok(arm), Ok(action)) => DispatchForStatus(ToolChangerCommand(arm, action), dispatch)
      case (Err(e), _) => Refuse(Invalid("toolChanger", e))
      case (_, Err(e)) => Refuse(Invalid("toolChanger", e))
  }

  /** A "reset" command: needs "system", the name of a component. */
  function ResetCase(f: map<string, Json>, dispatch: (Payload, nat) -> string): (o: Outcome)
    ensures WellFormed(o)
    ensures "system" !in f ==> o == Refuse("reset command requires a 'system' field.")
    ensures "system" in f && ComponentField(f, "system").Ok? ==>
      o == DispatchForStatus(ReconnectCommand(ComponentField(f, "system").value), dispatch)
    ensures "system" in f && ComponentField(f, "system").Err? ==>
      o == Refuse(Invalid("reset", ComponentField(f, "system").msg))
  {
    if "system" !in f then Refuse("reset command requires a 'system' field.")
    else match ComponentField(f, "system")
      case Ok(c) => DispatchForStatus(ReconnectCommand(c), dispatch)
      case Err(e) => Refuse(Invalid("reset", e))
  }

  /** "motorDiagnostics" and "resetMotorAlarm": need "motor", the name of a
      motor. */
  function MotorCase(t: string, f: map<string, Json>, dispatch: (Payload, nat) -> string,
                     parseJson: string -> Option<Json>): (o: Outcome)
    requires t == "motorDiagnostics" || t == "resetMotorAlarm"
    ensures WellFormed(o)
    ensures "motor" !in f ==> o == Refuse(t + " command requires a 'motor' field.")
    ensures "motor" in f && MotorField(f, "motor").Err? ==>
      o == Refuse(Invalid(t, MotorField(f, "motor").msg))
    ensures "motor" in f && MotorField(f, "motor").Ok? ==>
      o == if t == "motorDiagnostics"
           then DispatchForDiagnostics(MotorDiagnosticsCommand(MotorField(f, "motor").value), t, dispatch, parseJson)
           else DispatchForStatus(ResetMotorAlarmCommand(MotorField(f, "motor").value), dispatch)
  {
    if "motor" !in f then Refuse(t + " command requires a 'motor' field.")
    else match MotorField(f, "motor")
      case Ok(m) =>
        if t == "motorDiagnostics" then DispatchForDiagnostics(MotorDiagnosticsCommand(m), t, dispatch, parseJson)
        else DispatchForStatus(ResetMotorAlarmCommand(m), dispatch)
      case Err(e) => Refuse(Invalid(t, e))
  }

  /** `processCommand`: at most one dispatch, and a well-formed answer. */
  function ProcessCommand(command: Json, dispatch: (Payload, nat) -> string,
                          parseJson: string -> Option<Json>): (o: Outcome)
    ensures WellFormed(o)
  {
    if !command.JObject? then Refuse("Command must be a map! Ignoring!")
    else
      var f := command.fields;
      if "type" !in f || !f["type"].JString? then Refuse("Command lacks a valid 'type' entry! Ignoring!")
      else ProcessTyped(f["type"].s, f, dispatch, parseJson)
  }

  /** The decision on the command type. */
  function ProcessTyped(t: string, f: map<string, Json>, dispatch: (Payload, nat) -> string,
                        parseJson: string -> Option<Json>): (o: Outcome)
    ensures WellFormed(o)
  {
    if t == "toolChanger" then ToolChangerCase(f, dispatch)
    else if t == "reset" then ResetCase(f, dispatch)
    else if t == "motorDiagnostics" || t == "resetMotorAlarm" then MotorCase(t, f, dispatch, parseJson)
    else if t == "contecDiagnostics" then DispatchForDiagnostics(ContecDiagnosticsCommand, t, dispatch, parseJson)
    else Outcome(Response(false, "Unknown command type '" + t + "'!", Some(JString("YAY!"))), None)
  }

  /** The status of a response object. */
  function Status(r: Json): string
  {
    if r.JObject? && "status" in r.fields && r.fields["status"].JString? then r.fields["status"].s else ""
  }

  /** The message of a response object. */
  function Message(r: Json): string
  {
    if r.JObject? && "message" in r.fields && r.fields["message"].JString? then r.fields["message"].s else ""
  }

  /** The type names the processor handles. */
  predicate IsKnownType(t: string)
  {
    t == "toolChanger" || t == "reset" || t == "motorDiagnostics" || t == "resetMotorAlarm"
    || t == "contecDiagnostics"
  }

  /** A command that is not an object, or has no string "type", is refused
      without a dispatch. */
  lemma MalformedCommandRefused(command: Json, dispatch: (Payload, nat) -> string, parseJson: string -> Option<Json>)
    requires !command.JObject? || "type" !in command.fields || !command.fields["type"].JString?
    ensures var o := ProcessCommand(command, dispatch, parseJson);
      && Status(o.response) == "Error" && o.dispatched.None?
      && "response" !in o.response.fields
  {
  }

  /** An unknown type is refused without a dispatch, naming the type, with
      the "response" set to "YAY!". */
  lemma UnknownTypeRefused(command: Json, t: string, dispatch: (Payload, nat) -> string, parseJson: string -> Option<Json>)
    requires command.JObject? && "type" in command.fields && command.fields["type"] == JString(t)
    requires !IsKnownType(t)
    ensures var o := ProcessCommand(command, dispatch, parseJson);
      && Status(o.response) == "Error" && o.dispatched.None?
      && Message(o.response) == "Unknown command type '" + t + "'!"
      && "response" in o.response.fields && o.response.fields["response"] == JString("YAY!")
  {
  }

  /** A known type without its required fields is refused without a
      dispatch. */
  lemma MissingFieldsRefused(command: Json, t: string, dispatch: (Payload, nat) -> string, parseJson: string -> Option<Json>)
    requires command.JObject? && "type" in command.fields && command.fields["type"] == JString(t)
    ensures var f := command.fields;
      var o := ProcessCommand(command, dispatch, parseJson);
      && (t == "toolChanger" && ("position" !in f || "action" !in f) ==>
            && Status(o.response) == "Error" && o.dispatched.None?
            && Message(o.response) == "toolChanger command requires both 'position' and 'action'.")
      && (t == "reset" && "system" !in f ==>
            && Status(o.response) == "Error" && o.dispatched.None?
            && Message(o.response) == "reset command requires a 'system' field.")
      && ((t == "motorDiagnostics" || t == "resetMotorAlarm") && "motor" !in f ==>
            && Status(o.response) == "Error" && o.dispatched.None?
            && Message(o.response) == t + " command requires a 'motor' field.")
  {
  }

  /** A field that is not a string naming a constant refuses the command
      without a dispatch; the message names the command type and the cause. */
  lemma InvalidEnumRefused(command: Json, t: string, dispatch: (Payload, nat) -> string, parseJson: string -> Option<Json>)
    requires command.JObject? && "type" in command.fields && command.fields["type"] == JString(t)
    ensures var f := command.fields;
      var o := ProcessCommand(command, dispatch, parseJson);
      && (t == "reset" && "system" in f && ComponentField(f, "system").Err? ==>
            o.dispatched.None? && Message(o.response) == Invalid(t, ComponentField(f, "system").msg))
      && ((t == "motorDiagnostics" || t == "resetMotorAlarm") && "motor" in f && MotorField(f, "motor").Err? ==>
            o.dispatched.None? && Message(o.response) == Invalid(t, MotorField(f, "motor").msg))
      && (t == "toolChanger" && (ArmField(f, "position").Err? || ActionField(f, "action").Err?) ==>
            o.dispatched.None? && Status(o.response) == "Error")
  {
  }

  /** An enumeration field holding text that names no constant is reported
      with the text. */
  lemma InvalidEnumMessage(fields: map<string, Json>, key: string, text: string)
    requires key in fields && fields[key] == JString(text)
    requires forall m: MotorId :: MotorName(m) != text
    ensures MotorField(fields, key) == Err("Invalid enum value: " + text)
  {
  }

  /** For tool-changer, reset and alarm-reset commands that reach the
      machine, the status is OK exactly when the reply is empty; otherwise the
      reply is the message. */
  lemma StatusFollowsReply(command: Json, t: string, dispatch: (Payload, nat) -> string, parseJson: string -> Option<Json>)
    requires command.JObject? && "type" in command.fields && command.fields["type"] == JString(t)
    requires t == "toolChanger" || t == "reset" || t == "resetMotorAlarm"
    ensures var o := ProcessCommand(command, dispatch, parseJson);
      o.dispatched.Some? ==>
        var reply := dispatch(o.dispatched.value.payload, 2000);
        && (Status(o.response) == "OK" <==> reply == [])
        && Message(o.response) == reply
        && "response" !in o.response.fields
  {
  }

  /** For diagnostics commands that reach the machine: an empty reply is an
      error; a reply that parses as JSON becomes the "response" of an OK
      answer; any other reply is the error message. */
  lemma DiagnosticsReply(command: Json, t: string, dispatch: (Payload, nat) -> string, parseJson: string -> Option<Json>)
    requires command.JObject? && "type" in command.fields && command.fields["type"] == JString(t)
    requires t == "motorDiagnostics" || t == "contecDiagnostics"
    ensures var o := ProcessCommand(command, dispatch, parseJson);
      o.dispatched.Some? ==>
        var reply := dispatch(o.dispatched.value.payload, 2000);
        && (reply == [] ==>
              Status(o.response) == "Error"
              && Message(o.response) == t + " command returned empty diagnostics payload.")
        && (reply != [] && parseJson(reply).Some? ==>
              Status(o.response) == "OK" && o.response.fields["response"] == parseJson(reply).value)
        && (reply != [] && parseJson(reply).None? ==>
              Status(o.response) == "Error" && Message(o.response) == reply)
  {
  }

  /** The JSON command the processor accepts for a payload it handles. */
  function CommandJson(p: Payload): Option<Json>
  {
    match p
    case ToolChangerCommand(arm, action) =>
      Some(JObject(map["type" := JString("toolChanger"), "position" := JString(ArmName(arm)),
                       "action" := JString(ActionName(action))]))
    case ReconnectCommand(c) =>
      Some(JObject(map["type" := JString("reset"), "system" := JString(ComponentName(c))]))
    case MotorDiagnosticsCommand(m) =>
      Some(JObject(map["type" := JString("motorDiagnostics"), "motor" := JString(MotorName(m))]))
    case ResetMotorAlarmCommand(m) =>
      Some(JObject(map["type" := JString("resetMotorAlarm"), "motor" := JString(MotorName(m))]))
    case ContecDiagnosticsCommand =>
      Some(JObject(map["type" := JString("contecDiagnostics")]))
    case _ => None
  }

  /** Every payload the processor handles has a JSON form that dispatches
      exactly that payload, once, with two seconds. */
  lemma CommandJsonDispatches(p: Payload, dispatch: (Payload, nat) -> string, parseJson: string -> Option<Json>)
    requires CommandJson(p).Some?
    ensures ProcessCommand(CommandJson(p).value, dispatch, parseJson).dispatched == Some(Dispatch(p, 2000))
  {
    match p
    case ToolChangerCommand(arm, action) => ToolChangerJsonDispatches(arm, action, dispatch, parseJson);
    case ReconnectCommand(c) => ResetJsonDispatches(c, dispatch, parseJson);
    case MotorDiagnosticsCommand(m) => MotorJsonDispatches(p, m, dispatch, parseJson);
    case ResetMotorAlarmCommand(m) => MotorJsonDispatches(p, m, dispatch, parseJson);
    case ContecDiagnosticsCommand =>
  }

  /** An object with a string "type" is decided on that type. */
  lemma ProcessCommandOfType(f: map<string, Json>, t: string,
                             dispatch: (Payload, nat) -> string, parseJson: string -> Option<Json>)
    requires "type" in f && f["type"] == JString(t)
    ensures ProcessCommand(JObject(f), dispatch, parseJson) == ProcessTyped(t, f, dispatch, parseJson)
  {
  }

  /** A field holding a motor's name reads as that motor. */
  lemma MotorFieldOfName(f: map<string, Json>, key: string, m: MotorId)
    requires key in f && f[key] == JString(MotorName(m))
    ensures MotorField(f, key) == Ok(m)
  {
    MotorNameRoundTrip(m);
  }

  lemma ToolChangerJsonDispatches(arm: Arm, action: ToolChangerAction,
                                  dispatch: (Payload, nat) -> string, parseJson: string -> Option<Json>)
    ensures var p := ToolChangerCommand(arm, action);
      ProcessCommand(CommandJson(p).value, dispatch, parseJson).dispatched == Some(Dispatch(p, 2000))
  {
    var f := map["type" := JString("toolChanger"), "position" := JString(ArmName(arm)),
                 "action" := JString(ActionName(action))];
    assert CommandJson(ToolChangerCommand(arm, action)) == Some(JObject(f));
    ArmNameRoundTrip(arm);
    ActionNameRoundTrip(action);
    assert ArmField(f, "position") == Ok(arm);
    assert ActionField(f, "action") == Ok(action);
    ProcessCommandOfType(f, "toolChanger", dispatch, parseJson);
  }

  lemma ResetJsonDispatches(c: RobotComponent, dispatch: (Payload, nat) -> string, parseJson: string -> Option<Json>)
    ensures var p := ReconnectCommand(c);
      ProcessCommand(CommandJson(p).value, dispatch, parseJson).dispatched == Some(Dispatch(p, 2000))
  {
    var f := map["type" := JString("reset"), "system" := JString(ComponentName(c))];
    assert CommandJson(ReconnectCommand(c)) == Some(JObject(f));
    ComponentNameRoundTrip(c);
    assert ComponentField(f, "system") == Ok(c);
    ProcessCommandOfType(f, "reset", dispatch, parseJson);
  }

  lemma MotorJsonDispatches(p: Payload, m: MotorId, dispatch: (Payload, nat) -> string, parseJson: string -> Option<Json>)
    requires p == MotorDiagnosticsCommand(m) || p == ResetMotorAlarmCommand(m)
    ensures ProcessCommand(CommandJson(p).value, dispatch, parseJson).dispatched == Some(Dispatch(p, 2000))
  {
    var t := if p.MotorDiagnosticsCommand? then "motorDiagnostics" else "resetMotorAlarm";
    var f := map["type" := JString(t), "motor" := JString(MotorName(m))];
    assert CommandJson(p) == Some(JObject(f));
    MotorFieldOfName(f, "motor", m);
    ProcessCommandOfType(f, t, dispatch, parseJson);
  }
}
