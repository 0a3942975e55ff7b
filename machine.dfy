/*
 * The machine: it owns the Contec I/O board, the control panel and the motor
 * control, translates between named signals and the board's channel
 * indices, caches the signals it reads once per cycle, queues the commands
 * the command server submits and answers them from the machine loop.
 *
 * The board is outside the model. What a read of its inputs or outputs
 * returns (a channel vector, or an exception) and whether it is in Error
 * are the callers' values, passed in; every read and every write the
 * machine makes on it is recorded, in order. The reply a command handler
 * produces is the caller's value too. A raised exception is an error value.
 *
 * A `std::map` is visited in ascending key order. Where that order matters
 * the operation takes the map's keys in that order as `keys`.
 */
module MachineCore {
  import opened Wrappers
  import opened Common
  import Panel
  import opened CommandInterface
  import ComponentService

  type SignalMap = map<string, bool>

  /** A signal mapping: signal name to channel index. */
  type Mapping = map<string, nat>

  // ----- Key order -----

  /** `std::string` ordering: lexicographic by character. */
  predicate StrLess(a: string, b: string)
    decreases |a|
  {
    if a == [] then b != []
    else if b == [] then false
    else a[0] < b[0] || (a[0] == b[0] && StrLess(a[1..], b[1..]))
  }

  /** `keys` are the keys of `m`, in the order a `std::map` visits them. */
  ghost predicate InKeyOrder<V>(m: map<string, V>, keys: seq<string>)
  {
    && (forall k :: k in m <==> k in keys)
    && (forall i, j :: 0 <= i < j < |keys| ==> StrLess(keys[i], keys[j]))
  }

  // ----- Mapping checks -----

  function MissingMappingKey(key: string): string
  {
    "Missing required signal mapping key '" + key + "'"
  }

  /** `requireMappingIndex`: the index the key maps to, or the error naming
      the key. */
  function RequireMappingIndex(mapping: Mapping, key: string): (r: Result<nat>)
    ensures r.Ok? <==> key in mapping
    ensures r.Ok? ==> r.value == mapping[key]
    ensures r.Err? ==> r.msg == MissingMappingKey(key)
  {
    if key in mapping then Ok(mapping[key]) else Err(MissingMappingKey(key))
  }

  function OutOfRange(signal: string, index: nat, ioSize: nat, ioKind: string): string
  {
    (if ioKind == "input" then "Input" else "Output") + " mapping '" + signal
    + "' points outside Contec " + ioKind + " range (index=" + Panel.NatText(index)
    + ", size=" + Panel.NatText(ioSize) + ")"
  }

  /** `validateMappedIndex`: raises (the error text) exactly when the index
      is not a channel of a vector of `ioSize` channels. */
  function ValidateMappedIndex(signal: string, index: nat, ioSize: nat, ioKind: string): (r: Option<string>)
    ensures r.None? <==> index < ioSize
    ensures r.Some? ==> r.value == OutOfRange(signal, index, ioSize, ioKind)
  {
    if index >= ioSize then Some(OutOfRange(signal, index, ioSize, ioKind)) else None
  }

  // ----- Construction -----

  const NoClock := "Machine requires a non-null clock instance."

  /** The settings the constructor reads from the `Machine` section. */
  datatype MachineConfig = MachineConfig(
    inputMapping: Mapping,
    outputMapping: Mapping,
    loopIntervalMs: nat,
    updateIntervalMs: nat)

  /** An interval in milliseconds: the current key, else the legacy key,
      else the default, and never below 1. */
  function Interval(current: Option<int>, legacy: Option<int>, default: int): (r: nat)
    ensures r >= 1
  {
    var ms := if current.Some? then current.value else if legacy.Some? then legacy.value else default;
    if ms < 1 then 1 else ms
  }

  /** The constructor: a clock is required; the loop interval comes from
      `loopIntervalMS` (legacy `loopSleepTimeMS`, default 10) and the update
      interval from `updateIntervalMS` (legacy `statusPublishPeriodMS`,
      default 50); then button1, button2, toolChangerLeft, toolChangerRight,
      light1 and light2 must be mapped, checked in that order. */
  function Configure(hasClock: bool, inputMapping: Mapping, outputMapping: Mapping,
                     loopIntervalMS: Option<int>, loopSleepTimeMS: Option<int>,
                     updateIntervalMS: Option<int>, statusPublishPeriodMS: Option<int>): (r: Result<MachineConfig>)
    ensures r.Ok? ==> r.value.loopIntervalMs >= 1 && r.value.updateIntervalMs >= 1
  {
    if !hasClock then Err(NoClock)
    else
      var config := MachineConfig(inputMapping, outputMapping,
                                  Interval(loopIntervalMS, loopSleepTimeMS, 10),
                                  Interval(updateIntervalMS, statusPublishPeriodMS, 50));
      var _ :- RequireMappingIndex(inputMapping, "button1");
      var _ :- RequireMappingIndex(inputMapping, "button2");
      var _ :- RequireMappingIndex(outputMapping, "toolChangerLeft");
      var _ :- RequireMappingIndex(outputMapping, "toolChangerRight");
      var _ :- RequireMappingIndex(outputMapping, "light1");
      var _ :- RequireMappingIndex(outputMapping, "light2");
      Ok(config)
  }

  /** A machine is built exactly when there is a clock and all six required
      signals are mapped; it then keeps both mappings as given. */
  lemma ConfigureSucceedsIffMapped(hasClock: bool, inputMapping: Mapping, outputMapping: Mapping,
                                   loopIntervalMS: Option<int>, loopSleepTimeMS: Option<int>,
                                   updateIntervalMS: Option<int>, statusPublishPeriodMS: Option<int>)
    ensures var r := Configure(hasClock, inputMapping, outputMapping, loopIntervalMS, loopSleepTimeMS,
                               updateIntervalMS, statusPublishPeriodMS);
      && (r.Ok? <==> hasClock && "button1" in inputMapping && "button2" in inputMapping
                     && "toolChangerLeft" in outputMapping && "toolChangerRight" in outputMapping
                     && "light1" in outputMapping && "light2" in outputMapping)
      && (r.Ok? ==> r.value.inputMapping == inputMapping && r.value.outputMapping == outputMapping)
  {
  }

  /** The number of signals the constructor requires. */
  const RequiredCount := 6

  /** Required signal `k`, in the order the constructor checks them, with
      whether it is looked up in the input mapping. */
  function RequiredSignal(k: nat): (bool, string)
  {
    if k == 0 then (true, "button1")
    else if k == 1 then (true, "button2")
    else if k == 2 then (false, "toolChangerLeft")
    else if k == 3 then (false, "toolChangerRight")
    else if k == 4 then (false, "light1")
    else (false, "light2")
  }

  predicate SignalMapped(inputMapping: Mapping, outputMapping: Mapping, k: nat) {
    var (input, key) := RequiredSignal(k);
    if input then key in inputMapping else key in outputMapping
  }

  /** The constructor fails with the first failing check: the missing
      clock, else the first required signal, in check order, that its
      mapping lacks. */
  lemma MissingKeyNamed(hasClock: bool, inputMapping: Mapping, outputMapping: Mapping, a: Option<int>, b: Option<int>,
                        c: Option<int>, d: Option<int>, k: nat)
    requires k < RequiredCount && !SignalMapped(inputMapping, outputMapping, k)
    requires forall j :: 0 <= j < k ==> SignalMapped(inputMapping, outputMapping, j)
    ensures Configure(hasClock, inputMapping, outputMapping, a, b, c, d)
            == Err(if hasClock then MissingMappingKey(RequiredSignal(k).1) else NoClock)
  {
    var r := Configure(hasClock, inputMapping, outputMapping, a, b, c, d);
    if hasClock {
      if k == 0 {
        assert "button1" !in inputMapping;
      } else if k == 1 {
        assert SignalMapped(inputMapping, outputMapping, 0);
        assert "button2" !in inputMapping;
      } else {
        assert SignalMapped(inputMapping, outputMapping, 0);
        assert SignalMapped(inputMapping, outputMapping, 1);
        if k == 2 {
          assert "toolChangerLeft" !in outputMapping;
        } else {
          assert SignalMapped(inputMapping, outputMapping, 2);
          if k == 3 {
            assert "toolChangerRight" !in outputMapping;
          } else {
            assert SignalMapped(inputMapping, outputMapping, 3);
            if k == 4 {
              assert "light1" !in outputMapping;
            } else {
              assert SignalMapped(inputMapping, outputMapping, 4);
              assert "light2" !in outputMapping;
            }
          }
        }
      }
    }
  }

  /** The current interval keys win over the legacy ones, and the defaults
      are 10 ms and 50 ms. */
  lemma IntervalsPreferCurrentKeys(current: int, legacy: Option<int>, other: Option<int>)
    ensures Interval(Some(current), legacy, 10) == Interval(Some(current), other, 50)
    ensures current >= 1 ==> Interval(Some(current), legacy, 10) == current
    ensures current < 1 ==> Interval(Some(current), legacy, 10) == 1
    ensures Interval(None, Some(current), 10) == Interval(Some(current), None, 10)
    ensures Interval(None, None, 10) == 10 && Interval(None, None, 50) == 50
  {
  }

  // ----- Contec channel names -----

  /** The name `buildContecChannelNames` gives channel `i`: the first signal,
      in the order `keys` visits them, that maps to `i` and has a non-empty
      name (an empty name leaves the slot free); "" when there is none. */
  function ChannelName(mapping: Mapping, keys: seq<string>, i: nat): (r: string)
    ensures r == "" || (r in keys && r in mapping && mapping[r] == i)
  {
    if keys == [] then ""
    else if keys[0] in mapping && mapping[keys[0]] == i && keys[0] != "" then keys[0]
    else ChannelName(mapping, keys[1..], i)
  }

  /** Visiting one more key fills a slot only when it is still empty. */
  lemma {:induction false} ChannelNameExtend(mapping: Mapping, keys: seq<string>, k: string, i: nat)
    ensures ChannelName(mapping, keys + [k], i) ==
      if ChannelName(mapping, keys, i) != "" then ChannelName(mapping, keys, i)
      else if k in mapping && mapping[k] == i && k != "" then k
      else ""
  {
    if keys != [] {
      assert (keys + [k])[1..] == keys[1..] + [k];
      ChannelNameExtend(mapping, keys[1..], k, i);
    }
  }

  /** `buildContecChannelNames`: eight channel names from a mapping. */
  method BuildContecChannelNames(mapping: Mapping, keys: seq<string>) returns (names: seq<string>)
    requires InKeyOrder(mapping, keys)
    ensures |names| == 8
    ensures forall i :: 0 <= i < 8 ==> names[i] == ChannelName(mapping, keys, i)
  {
    names := ["", "", "", "", "", "", "", ""];
    for k := 0 to |keys|
      invariant |names| == 8
      invariant forall i :: 0 <= i < 8 ==> names[i] == ChannelName(mapping, keys[..k], i)
    {
      var signal := keys[k];
      assert signal in mapping;
      assert keys[..k + 1] == keys[..k] + [signal];
      forall i | 0 <= i < 8 {
        ChannelNameExtend(mapping, keys[..k], signal, i);
      }
      var index := mapping[signal];
      if index < |names| && names[index] == "" {
        names := names[index := signal];
      }
    }
    assert keys[..|keys|] == keys;
  }

  /** A named channel is the one its signal maps to, and its name comes
      first in key order among the non-empty names mapped to it; a channel
      some non-empty name maps to is never left unnamed. */
  lemma {:induction false} ChannelNameIsFirst(mapping: Mapping, keys: seq<string>, i: nat, s: string)
    requires forall a, b :: 0 <= a < b < |keys| ==> StrLess(keys[a], keys[b])
    requires s in keys && s in mapping && mapping[s] == i && s != ""
    ensures ChannelName(mapping, keys, i) != ""
    ensures ChannelName(mapping, keys, i) == s || StrLess(ChannelName(mapping, keys, i), s)
  {
    if keys[0] != s {
      if !(keys[0] in mapping && mapping[keys[0]] == i && keys[0] != "") {
        var j :| 0 <= j < |keys| && keys[j] == s;
        assert keys[1..][j - 1] == s;
        forall a, b | 0 <= a < b < |keys[1..]| ensures StrLess(keys[1..][a], keys[1..][b]) {
          assert keys[1..][a] == keys[a + 1] && keys[1..][b] == keys[b + 1];
        }
        ChannelNameIsFirst(mapping, keys[1..], i, s);
      } else {
        var j :| 0 <= j < |keys| && keys[j] == s;
        assert StrLess(keys[0], keys[j]);
      }
    }
  }

  // ----- Signals -----

  /** The named signals of a channel vector: every mapped signal takes its
      channel's value; none if any mapped index is outside the vector (the
      read raises). */
  function MappedSignals(mapping: Mapping, io: seq<bool>): (r: Option<SignalMap>)
    ensures r.Some? <==> forall s :: s in mapping ==> mapping[s] < |io|
    ensures r.Some? ==> r.value.Keys == mapping.Keys
  {
    if forall s :: s in mapping ==> mapping[s] < |io| then Some(map s | s in mapping :: io[mapping[s]])
    else None
  }

  /** The signal loop of the reads: each mapped index is validated, then the
      signal takes its channel's value. The signals are distinct keys, so the
      order they are visited in does not change the result. */
  method ReadMapped(mapping: Mapping, io: seq<bool>, ioKind: string) returns (r: Option<SignalMap>)
    ensures r == MappedSignals(mapping, io)
  {
    var signals: SignalMap := map[];
    var todo := mapping.Keys;
    while todo != {}
      invariant todo <= mapping.Keys
      invariant forall s :: s in signals <==> s in mapping && s !in todo
      invariant forall s :: s in signals ==> mapping[s] < |io| && signals[s] == io[mapping[s]]
      decreases todo
    {
      var s :| s in todo;
      if ValidateMappedIndex(s, mapping[s], |io|, ioKind).Some? {
        return None;
      }
      signals := signals[s := io[mapping[s]]];
      todo := todo - {s};
    }
    assert signals == map s | s in mapping :: io[mapping[s]];
    return Some(signals);
  }

  /** What a fresh read of one side of the board gives: none while the board
      is in Error or when the read raises; the mapped signals otherwise. */
  function FreshSignals(contecInError: bool, read: Result<seq<bool>>, mapping: Mapping): (r: Option<SignalMap>)
    ensures contecInError || read.Err? ==> r.None?
    ensures r.Some? ==> read.Ok? && r.value.Keys == mapping.Keys
    ensures r.Some? ==> forall s :: s in r.value ==> mapping[s] < |read.value| && r.value[s] == read.value[mapping[s]]
  {
    if contecInError || read.Err? then None else MappedSignals(mapping, read.value)
  }

  /** The board's channels after `setOutputs` merged `signals` into the
      vector read back: channel `i` holds the signal, among those mapped to
      it, that `keys` visits last, and the read-back value when there is
      none. */
  function MergedChannel(outputs: seq<bool>, mapping: Mapping, signals: SignalMap, keys: seq<string>, i: nat): bool
    requires i < |outputs|
    requires forall k :: k in keys ==> k in signals && k in mapping
  {
    if keys == [] then outputs[i]
    else
      var last := keys[|keys| - 1];
      if mapping[last] == i then signals[last]
      else MergedChannel(outputs, mapping, signals, keys[..|keys| - 1], i)
  }

  /** The vector `setOutputs` writes: none when a signal is not mapped or is
      mapped outside the vector (it raises before writing). */
  function Merged(outputs: seq<bool>, mapping: Mapping, signals: SignalMap, keys: seq<string>)
    : (r: Option<seq<bool>>)
    requires InKeyOrder(signals, keys)
    ensures r.Some? <==> forall s :: s in signals ==> s in mapping && mapping[s] < |outputs|
    ensures r.Some? ==> |r.value| == |outputs|
  {
    if forall s :: s in signals ==> s in mapping && mapping[s] < |outputs| then
      Some(seq(|outputs|, i requires 0 <= i < |outputs| => MergedChannel(outputs, mapping, signals, keys, i)))
    else None
  }

  /** A channel no named signal maps to keeps its read-back value. */
  lemma {:induction false} UntargetedChannelKept(outputs: seq<bool>, mapping: Mapping, signals: SignalMap,
                                                 keys: seq<string>, i: nat)
    requires i < |outputs|
    requires forall k :: k in keys ==> k in signals && k in mapping
    requires forall k :: k in keys ==> mapping[k] != i
    ensures MergedChannel(outputs, mapping, signals, keys, i) == outputs[i]
  {
    if keys != [] {
      assert keys[|keys| - 1] in keys;
      UntargetedChannelKept(outputs, mapping, signals, keys[..|keys| - 1], i);
    }
  }

  /** A channel exactly one named signal maps to takes that signal's value. */
  lemma {:induction false} TargetedChannelSet(outputs: seq<bool>, mapping: Mapping, signals: SignalMap,
                                              keys: seq<string>, s: string)
    requires s in keys && s in signals && s in mapping && mapping[s] < |outputs|
    requires forall k :: k in keys ==> k in signals && k in mapping
    requires forall k :: k in keys && k != s ==> mapping[k] != mapping[s]
    ensures MergedChannel(outputs, mapping, signals, keys, mapping[s]) == signals[s]
  {
    var last := keys[|keys| - 1];
    if last != s {
      assert s in keys[..|keys| - 1] by {
        var j :| 0 <= j < |keys| && keys[j] == s;
        assert j < |keys| - 1 && keys[..|keys| - 1][j] == s;
      }
      TargetedChannelSet(outputs, mapping, signals, keys[..|keys| - 1], s);
    }
  }

  // ----- Commands -----

  const ShuttingDown := "Machine is shutting down"
  const TimedOut := "Command processing timed out"
  const UnknownException := "Unknown exception while processing command"
  const NotWired := "Machine collaborators are not wired. Use MachineRuntime::wireMachine before initialize()."
  const AlreadyRunning := "Machine is already running."

  /** How a command's handler ended: it returned (with the JSON text of the
      diagnostics commands' answer), raised an exception, or raised
      something that is not an exception. */
  datatype HandlerOutcome = Returned(body: string) | Raised(what: string) | RaisedUnknown

  /** The text set on a command's reply: the diagnostics answer, "" for any
      other command that returns, the exception's text, or a fixed text for
      anything else thrown. */
  function ReplyText(payload: Payload, outcome: HandlerOutcome): (r: string)
    ensures outcome.Raised? ==> r == outcome.what
    ensures outcome.Returned? && !(payload.MotorDiagnosticsCommand? || payload.ContecDiagnosticsCommand?) ==> r == ""
  {
    match outcome
    case Returned(body) =>
      if payload.MotorDiagnosticsCommand? || payload.ContecDiagnosticsCommand? then body else ""
    case Raised(what) => what
    case RaisedUnknown => UnknownException
  }

  /** `handleReconnectCommand`: a complaint from the component service is
      raised; an empty answer means the reconnect went through. */
  function ReconnectOutcome(serviceMessage: string): (r: HandlerOutcome)
    ensures r.Returned? <==> serviceMessage == ""
    ensures r.Raised? ==> r.what == serviceMessage
  {
    if serviceMessage != "" then Raised(serviceMessage) else Returned("")
  }

  /** The reply to a reconnect command is exactly the component service's
      answer: "" on success, its complaint otherwise. */
  lemma ReconnectReplyIsServiceMessage(c: RobotComponent, serviceMessage: string)
    ensures ReplyText(ReconnectCommand(c), ReconnectOutcome(serviceMessage)) == serviceMessage
  {
  }

  /** One reply, set on the promise `replyTo` stands for. */
  datatype Reply = Reply(replyTo: nat, text: string)

  /** The replies `shutdown` gives the commands still queued, in order. */
  function ShutdownReplies(commands: seq<Command>): (r: seq<Reply>)
    ensures |r| == |commands|
    ensures forall i :: 0 <= i < |r| ==> r[i] == Reply(commands[i].replyTo, ShuttingDown)
  {
    if commands == [] then []
    else ShutdownReplies(commands[..|commands| - 1]) + [Reply(commands[|commands| - 1].replyTo, ShuttingDown)]
  }

  // ----- Component recovery -----

  /** The components an unhandled exception of a loop cycle resets, in
      order: motor control, Contec, control panel, each unless already in
      Error. */
  function CycleFailureResets(motorControl: ComponentState, contec: ComponentState, controlPanel: ComponentState)
    : (r: seq<RobotComponent>)
    ensures MotorControl in r <==> motorControl != ComponentState.Error
    ensures Contec in r <==> contec != ComponentState.Error
    ensures ControlPanel in r <==> controlPanel != ComponentState.Error
    ensures forall i, j :: 0 <= i < j < |r| ==> ResetRank(r[i]) < ResetRank(r[j])
  {
    (if motorControl != ComponentState.Error then [MotorControl] else [])
    + (if contec != ComponentState.Error then [Contec] else [])
    + (if controlPanel != ComponentState.Error then [ControlPanel] else [])
  }

  function ResetRank(c: RobotComponent): nat
  {
    match c
    case MotorControl => 0
    case Contec => 1
    case ControlPanel => 2
  }

  /** A failing control-loop task resets the motor control only, unless it
      is already in Error. */
  function ControlTaskFailureResets(motorControl: ComponentState): (r: seq<RobotComponent>)
    ensures r == CycleFailureResets(motorControl, ComponentState.Error, ComponentState.Error)
  {
    if motorControl != ComponentState.Error then [MotorControl] else []
  }

  // ----- The dummy status -----

  /** A motor as `makeDummyStatus` publishes it: at rest, every flag Off. */
  const IdleMotor := SingleMotorStatus(0.0, 0.0, 0.0, 0, LedState.Off, "", "",
    map[BrakeApplied := LedState.Off, Enabled := LedState.Off, MotorFlag.Warning := LedState.Off,
        Alarm := LedState.Off])

  /** A tool changer as `makeDummyStatus` publishes it: every flag Off. */
  const IdleToolChanger := ToolChangerStatus(
    map[ProxSen := LedState.Off, ClosedSen := LedState.Off, OpenSen := LedState.Off,
        OpenValve := LedState.Off, ClosedValve := LedState.Off])

  /** `makeDummyStatus`: the six motors idle and nothing else among the
      motors, both arms' tool changers idle; the rest of the status is
      kept. */
  function DummyStatus(status: RobotStatus): (r: RobotStatus)
  {
    status.(motors := map m | m in Motors :: IdleMotor,
            toolChangers := status.toolChangers[Left := IdleToolChanger][Right := IdleToolChanger])
  }

  /** The signal cache of one side of the board: whether it holds the read
      of cycle `cycle`, and what that read gave. */
  datatype SignalCache = SignalCache(valid: bool, cycle: nat, value: Option<SignalMap>)

  /** One read the machine makes of the board. */
  datatype BoardRead = ReadInputs | ReadOutputs

  class Machine {
    const inputMapping: Mapping
    const outputMapping: Mapping
    const loopIntervalMs: nat
    const updateIntervalMs: nat
    /** The commands submitted and not yet taken by the machine loop. */
    const commandQueue: CommandQueue
    /** The component service over the three components the machine owns. */
    const componentService: ComponentService.MachineComponentService

    var ioCacheCycle: nat
    var inputCache: SignalCache
    var outputCache: SignalCache
    /** Every read of the board, in order. */
    var boardReads: seq<BoardRead>
    /** Every output vector handed to the board, in order. */
    var boardWrites: seq<seq<bool>>
    var robotStatus: RobotStatus
    /** Every reply set on a command's promise, in order. */
    var replies: seq<Reply>
    var isRunning: bool

    constructor (config: MachineConfig)
      ensures inputMapping == config.inputMapping && outputMapping == config.outputMapping
      ensures loopIntervalMs == config.loopIntervalMs && updateIntervalMs == config.updateIntervalMs
      ensures fresh(commandQueue) && commandQueue.queue == [] && !commandQueue.isShutdown
      ensures fresh(componentService) && componentService.calls == []
      ensures componentService.components == map[Contec := true, ControlPanel := true, MotorControl := true]
      ensures ioCacheCycle == 0 && !inputCache.valid && !outputCache.valid
      ensures boardReads == [] && boardWrites == [] && replies == [] && !isRunning
      ensures robotStatus == EmptyStatus
    {
      inputMapping := config.inputMapping;
      outputMapping := config.outputMapping;
      loopIntervalMs := config.loopIntervalMs;
      updateIntervalMs := config.updateIntervalMs;
      commandQueue := new CommandQueue();
      componentService := new ComponentService.MachineComponentService(
        map[Contec := true, ControlPanel := true, MotorControl := true]);
      ioCacheCycle := 0;
      inputCache := SignalCache(false, 0, None);
      outputCache := SignalCache(false, 0, None);
      boardReads := [];
      boardWrites := [];
      robotStatus := EmptyStatus;
      replies := [];
      isRunning := false;
    }

    /** The cache holds this cycle's read. */
    predicate Cached(cache: SignalCache)
      reads this
    {
      cache.valid && cache.cycle == ioCacheCycle
    }

    /** `readInputSignals`: this cycle's cached signals if there are any;
        otherwise none while the board is in Error (without reading it), or
        a fresh read, which is then cached for the rest of the cycle. */
    method ReadInputSignals(contecInError: bool, read: Result<seq<bool>>) returns (r: Option<SignalMap>)
      modifies this
      ensures Cached(old(inputCache)) ==>
        r == old(inputCache).value && inputCache == old(inputCache) && boardReads == old(boardReads)
      ensures !Cached(old(inputCache)) ==>
        && r == FreshSignals(contecInError, read, inputMapping)
        && inputCache == SignalCache(true, ioCacheCycle, r)
        && boardReads == old(boardReads) + (if contecInError then [] else [ReadInputs])
      ensures ioCacheCycle == old(ioCacheCycle) && outputCache == old(outputCache)
      ensures boardWrites == old(boardWrites) && robotStatus == old(robotStatus)
      ensures replies == old(replies) && isRunning == old(isRunning)
    {
      if inputCache.valid && inputCache.cycle == ioCacheCycle {
        return inputCache.value;
      }
      if contecInError {
        inputCache := SignalCache(true, ioCacheCycle, None);
        return None;
      }
      boardReads := boardReads + [ReadInputs];
      if read.Err? {
        inputCache := SignalCache(true, ioCacheCycle, None);
        return None;
      }
      r := ReadMapped(inputMapping, read.value, "input");
      inputCache := SignalCache(true, ioCacheCycle, r);
    }

    /** `readOutputSignals`, the same for the outputs. */
    method ReadOutputSignals(contecInError: bool, read: Result<seq<bool>>) returns (r: Option<SignalMap>)
      modifies this
      ensures Cached(old(outputCache)) ==>
        r == old(outputCache).value && outputCache == old(outputCache) && boardReads == old(boardReads)
      ensures !Cached(old(outputCache)) ==>
        && r == FreshSignals(contecInError, read, outputMapping)
        && outputCache == SignalCache(true, ioCacheCycle, r)
        && boardReads == old(boardReads) + (if contecInError then [] else [ReadOutputs])
      ensures ioCacheCycle == old(ioCacheCycle) && inputCache == old(inputCache)
      ensures boardWrites == old(boardWrites) && robotStatus == old(robotStatus)
      ensures replies == old(replies) && isRunning == old(isRunning)
    {
      if outputCache.valid && outputCache.cycle == ioCacheCycle {
        return outputCache.value;
      }
      if contecInError {
        outputCache := SignalCache(true, ioCacheCycle, None);
        return None;
      }
      boardReads := boardReads + [ReadOutputs];
      if read.Err? {
        outputCache := SignalCache(true, ioCacheCycle, None);
        return None;
      }
      r := ReadMapped(outputMapping, read.value, "output");
      outputCache := SignalCache(true, ioCacheCycle, r);
    }

    /** The cache part of `runOneCycle`: a new cycle, with both caches
        invalid. */
    method BeginCycle()
      modifies this
      ensures ioCacheCycle == old(ioCacheCycle) + 1
      ensures inputCache == old(inputCache).(valid := false) && outputCache == old(outputCache).(valid := false)
      ensures boardReads == old(boardReads) && boardWrites == old(boardWrites)
      ensures robotStatus == old(robotStatus) && replies == old(replies) && isRunning == old(isRunning)
    {
      ioCacheCycle := ioCacheCycle + 1;
      inputCache := inputCache.(valid := false);
      outputCache := outputCache.(valid := false);
    }

    /** `setOutputs`: while the board is in Error nothing happens. Otherwise
        the outputs are read back, the named signals merged in, the vector
        written and the output signals cached from it. A read that raises,
        an unknown or out-of-range signal (nothing is written then) or a
        write that raises caches none. */
    method SetOutputs(signals: SignalMap, keys: seq<string>, contecInError: bool,
                      read: Result<seq<bool>>, writeSucceeds: bool)
      requires InKeyOrder(signals, keys)
      modifies this
      ensures contecInError ==> boardReads == old(boardReads) && boardWrites == old(boardWrites)
                                && outputCache == old(outputCache)
      ensures !contecInError ==> boardReads == old(boardReads) + [ReadOutputs]
      ensures !contecInError && read.Ok? && Merged(read.value, outputMapping, signals, keys).Some? ==>
        var written := Merged(read.value, outputMapping, signals, keys).value;
        && boardWrites == old(boardWrites) + [written]
        && outputCache == SignalCache(true, ioCacheCycle,
                                      if writeSucceeds then MappedSignals(outputMapping, written) else None)
      ensures !contecInError && (read.Err? || Merged(read.value, outputMapping, signals, keys).None?) ==>
        boardWrites == old(boardWrites) && outputCache == SignalCache(true, ioCacheCycle, None)
      ensures ioCacheCycle == old(ioCacheCycle) && inputCache == old(inputCache)
      ensures robotStatus == old(robotStatus) && replies == old(replies) && isRunning == old(isRunning)
    {
      if contecInError {
        return;
      }
      boardReads := boardReads + [ReadOutputs];
      if read.Err? {
        outputCache := SignalCache(true, ioCacheCycle, None);
        return;
      }
      var merged := MergeSignals(read.value, signals, keys);
      if merged.None? {
        outputCache := SignalCache(true, ioCacheCycle, None);
        return;
      }
      boardWrites := boardWrites + [merged.value];
      if !writeSucceeds {
        outputCache := SignalCache(true, ioCacheCycle, None);
        return;
      }
      var cached := ReadMapped(outputMapping, merged.value, "output");
      outputCache := SignalCache(true, ioCacheCycle, cached);
    }

    /** The merge loop of `setOutputs`: in key order, each signal must be
        mapped to a channel of the vector, and sets it. */
    method MergeSignals(outputs: seq<bool>, signals: SignalMap, keys: seq<string>) returns (r: Option<seq<bool>>)
      requires InKeyOrder(signals, keys)
      ensures r == Merged(outputs, outputMapping, signals, keys)
    {
      var merged := outputs;
      for k := 0 to |keys|
        invariant |merged| == |outputs|
        invariant forall j :: 0 <= j < k ==> keys[j] in outputMapping && outputMapping[keys[j]] < |outputs|
        invariant forall i :: 0 <= i < |outputs| ==>
          merged[i] == MergedChannel(outputs, outputMapping, signals, keys[..k], i)
      {
        var signal := keys[k];
        if signal !in outputMapping {
          return None;
        }
        if ValidateMappedIndex(signal, outputMapping[signal], |merged|, "output").Some? {
          return None;
        }
        var done := keys[..k + 1];
        assert done[..|done| - 1] == keys[..k] && done[|done| - 1] == signal;
        merged := merged[outputMapping[signal] := signals[signal]];
      }
      assert keys[..|keys|] == keys;
      forall s | s in signals ensures s in outputMapping && outputMapping[s] < |outputs| {
        var j :| 0 <= j < |keys| && keys[j] == s;
      }
      assert merged == seq(|outputs|, i requires 0 <= i < |outputs| =>
                             MergedChannel(outputs, outputMapping, signals, keys, i));
      return Some(merged);
    }

    /** `makeDummyStatus`: every motor idle, then both arms' tool changers. */
    method MakeDummyStatus()
      modifies this
      ensures robotStatus == DummyStatus(old(robotStatus))
      ensures ioCacheCycle == old(ioCacheCycle) && inputCache == old(inputCache) && outputCache == old(outputCache)
      ensures boardReads == old(boardReads) && boardWrites == old(boardWrites)
      ensures replies == old(replies) && isRunning == old(isRunning)
    {
      var motors: map<MotorId, SingleMotorStatus> := map[];
      for k := 0 to |Motors|
        invariant forall m :: m in motors <==> m in Motors[..k]
        invariant forall m :: m in motors ==> motors[m] == IdleMotor
      {
        motors := motors[Motors[k] := IdleMotor];
      }
      assert Motors[..|Motors|] == Motors;
      robotStatus := robotStatus.(motors := motors);
      robotStatus := robotStatus.(toolChangers := robotStatus.toolChangers[Left := IdleToolChanger]);
      robotStatus := robotStatus.(toolChangers := robotStatus.toolChangers[Right := IdleToolChanger]);
    }

    /** `submitCommand`: queued unless the machine is shutting down. */
    method SubmitCommand(c: Command) returns (accepted: bool)
      modifies commandQueue
      ensures accepted <==> !old(commandQueue.isShutdown)
      ensures commandQueue.queue == if accepted then old(commandQueue.queue) + [c] else old(commandQueue.queue)
      ensures commandQueue.isShutdown == old(commandQueue.isShutdown)
    {
      accepted := commandQueue.Push(c);
    }

    /** `dispatchCommandAndWait`: a refused command is answered at once;
        otherwise the caller waits for the reply, `answer` (none when the
        wait times out). */
    method DispatchCommandAndWait(c: Command, answer: Option<string>) returns (reply: string)
      modifies commandQueue
      ensures old(commandQueue.isShutdown) ==> reply == ShuttingDown && commandQueue.queue == old(commandQueue.queue)
      ensures !old(commandQueue.isShutdown) ==>
        && commandQueue.queue == old(commandQueue.queue) + [c]
        && reply == (if answer.Some? then answer.value else TimedOut)
      ensures commandQueue.isShutdown == old(commandQueue.isShutdown)
    {
      var accepted := SubmitCommand(c);
      if !accepted {
        return ShuttingDown;
      }
      if answer.None? {
        return TimedOut;
      }
      return answer.value;
    }

    /** The command task of `runOneCycle`: the front command, if any, is
        taken and answered. A reconnect command asks the component service
        to reconnect its component (`reconnectInit` is what that
        component's `initialize` does); an empty answer installs the dummy
        status and is the reply, a complaint is raised and becomes the
        reply. Any other command is answered with what its handler produced. */
    method ServeOneCommand(outcome: HandlerOutcome, reconnectInit: ComponentService.InitOutcome)
      returns (served: Option<Command>)
      modifies this, commandQueue, componentService
      ensures served.None? <==> old(commandQueue.queue) == []
      ensures served.None? ==>
        && commandQueue.queue == old(commandQueue.queue) && replies == old(replies)
        && robotStatus == old(robotStatus) && componentService.calls == old(componentService.calls)
      ensures served.Some? ==>
        && served.value == old(commandQueue.queue)[0]
        && commandQueue.queue == old(commandQueue.queue)[1..]
      ensures served.Some? && served.value.payload.ReconnectCommand? ==>
        var c := served.value.payload.robotComponent;
        var message := ComponentService.ReconnectAnswer(componentService.components, c, reconnectInit);
        && componentService.calls == old(componentService.calls) + ComponentService.ReconnectCalls(componentService.components, c)
        && replies == old(replies) + [Reply(served.value.replyTo, ReplyText(served.value.payload, ReconnectOutcome(message)))]
        && robotStatus == (if message == "" then DummyStatus(old(robotStatus)) else old(robotStatus))
      ensures served.Some? && !served.value.payload.ReconnectCommand? ==>
        && replies == old(replies) + [Reply(served.value.replyTo, ReplyText(served.value.payload, outcome))]
        && robotStatus == old(robotStatus) && componentService.calls == old(componentService.calls)
      ensures commandQueue.isShutdown == old(commandQueue.isShutdown) && isRunning == old(isRunning)
    {
      served := commandQueue.TryPop();
      if served.None? {
        return;
      }
      var command := served.value;
      if command.payload.ReconnectCommand? {
        var message := componentService.Reconnect(command.payload.robotComponent, reconnectInit);
        if message == "" {
          MakeDummyStatus();
        }
        replies := replies + [Reply(command.replyTo, ReplyText(command.payload, ReconnectOutcome(message)))];
      } else {
        replies := replies + [Reply(command.replyTo, ReplyText(command.payload, outcome))];
      }
    }

    /** `initialize`: refused while collaborators are missing or the machine
        already runs; otherwise it runs, publishes the dummy status and
        initializes every component. */
    method Initialize(wired: bool, outcome: RobotComponent -> ComponentService.InitOutcome)
      returns (error: Option<string>)
      modifies this, componentService
      ensures !wired ==> error == Some(NotWired)
      ensures wired && old(isRunning) ==> error == Some(AlreadyRunning)
      ensures error.Some? ==> isRunning == old(isRunning) && robotStatus == old(robotStatus)
                              && componentService.calls == old(componentService.calls)
      ensures error.None? <==> wired && !old(isRunning)
      ensures error.None? ==>
        && isRunning
        && robotStatus == DummyStatus(old(robotStatus))
        && componentService.calls ==
             old(componentService.calls) + ComponentService.InitCalls(RobotComponents, componentService.components)
      ensures replies == old(replies)
    {
      if !wired {
        return Some(NotWired);
      }
      if isRunning {
        return Some(AlreadyRunning);
      }
      isRunning := true;
      MakeDummyStatus();
      var _ := componentService.InitializeAll(outcome);
      return None;
    }

    /** `shutdown`: the machine stops, the queue refuses new commands, and
        every command still queued is answered "Machine is shutting down",
        in order. */
    method Shutdown()
      modifies this, commandQueue
      ensures !isRunning
      ensures commandQueue.isShutdown && commandQueue.queue == []
      ensures replies == old(replies) + ShutdownReplies(old(commandQueue.queue))
      ensures robotStatus == old(robotStatus)
    {
      isRunning := false;
      commandQueue.Shutdown();
      var drained := commandQueue.Drain();
      replies := replies + ShutdownReplies(drained);
    }
  }

  // ----- Properties -----

  /** `setOutputs` changes only the channels of the named signals: a
      channel no named signal maps to keeps its read-back value, and a
      channel a single named signal maps to takes that signal's value. */
  lemma MergeChangesOnlyNamedChannels(outputs: seq<bool>, mapping: Mapping, signals: SignalMap,
                                      keys: seq<string>, i: nat, s: string)
    requires InKeyOrder(signals, keys)
    requires Merged(outputs, mapping, signals, keys).Some?
    ensures i < |outputs| && (forall k :: k in signals ==> mapping[k] != i) ==>
      Merged(outputs, mapping, signals, keys).value[i] == outputs[i]
    ensures s in signals && (forall k :: k in signals && k != s ==> mapping[k] != mapping[s]) ==>
      Merged(outputs, mapping, signals, keys).value[mapping[s]] == signals[s]
  {
    if i < |outputs| && (forall k :: k in signals ==> mapping[k] != i) {
      UntargetedChannelKept(outputs, mapping, signals, keys, i);
    }
    if s in signals && (forall k :: k in signals && k != s ==> mapping[k] != mapping[s]) {
      TargetedChannelSet(outputs, mapping, signals, keys, s);
    }
  }

  /** An unknown signal, or one mapped outside the vector, means nothing is
      written. */
  lemma UnknownSignalWritesNothing(outputs: seq<bool>, mapping: Mapping, signals: SignalMap,
                                   keys: seq<string>, s: string)
    requires InKeyOrder(signals, keys)
    requires s in signals && (s !in mapping || mapping[s] >= |outputs|)
    ensures Merged(outputs, mapping, signals, keys) == None
  {
  }

  /** The read signals are exactly the mapped channels' values. */
  lemma MappedSignalsAreChannels(mapping: Mapping, io: seq<bool>, s: string)
    requires MappedSignals(mapping, io).Some? && s in mapping
    ensures s in MappedSignals(mapping, io).value && MappedSignals(mapping, io).value[s] == io[mapping[s]]
  {
  }

  /** Writing the merged vector and reading it back gives the named signals
      their new values when each names its own channel. */
  lemma WrittenSignalsReadBack(outputs: seq<bool>, mapping: Mapping, signals: SignalMap, keys: seq<string>, s: string)
    requires InKeyOrder(signals, keys)
    requires Merged(outputs, mapping, signals, keys).Some?
    requires MappedSignals(mapping, Merged(outputs, mapping, signals, keys).value).Some?
    requires s in signals && forall k :: k in signals && k != s ==> mapping[k] != mapping[s]
    ensures MappedSignals(mapping, Merged(outputs, mapping, signals, keys).value).value[s] == signals[s]
  {
    MergeChangesOnlyNamedChannels(outputs, mapping, signals, keys, 0, s);
  }

  /** The dummy status: exactly the six motors, each idle; both arms' tool
      changers with all five flags Off; the gantry's tool changer, the
      component LEDs and the joysticks as they were. */
  lemma DummyStatusShape(status: RobotStatus)
    ensures var d := DummyStatus(status);
      && (forall m: MotorId :: m in d.motors && d.motors[m] == IdleMotor)
      && d.motors[XLeft].flags.Keys == {BrakeApplied, Enabled, MotorFlag.Warning, Alarm}
      && (forall f :: f in d.motors[XLeft].flags ==> d.motors[XLeft].flags[f] == LedState.Off)
      && d.toolChangers[Left] == d.toolChangers[Right] == IdleToolChanger
      && (forall f :: f in IdleToolChanger.flags && IdleToolChanger.flags[f] == LedState.Off)
      && (Gantry in d.toolChangers <==> Gantry in status.toolChangers)
      && (Gantry in d.toolChangers ==> d.toolChangers[Gantry] == status.toolChangers[Gantry])
      && d.robotComponents == status.robotComponents && d.joystics == status.joystics
  {
    forall m: MotorId ensures m in Motors {
      assert m == Motors[0] || m == Motors[1] || m == Motors[2] || m == Motors[3] || m == Motors[4]
        || m == Motors[5];
    }
    forall f: ToolChangerFlag ensures f in IdleToolChanger.flags && IdleToolChanger.flags[f] == LedState.Off {
      assert f == ProxSen || f == OpenSen || f == ClosedSen || f == OpenValve || f == ClosedValve;
    }
  }

  /** Within one cycle the board is read once and the second read returns
      the first one's signals, even though the board changed; the next cycle
      reads it again. */
  method CachedWithinCycle(config: MachineConfig, before: seq<bool>, after: seq<bool>)
    returns (first: Option<SignalMap>, second: Option<SignalMap>, third: Option<SignalMap>, readLog: seq<BoardRead>)
    ensures first == second == MappedSignals(config.inputMapping, before)
    ensures third == MappedSignals(config.inputMapping, after)
    ensures readLog == [ReadInputs, ReadInputs]
  {
    var machine := new Machine(config);
    machine.BeginCycle();
    first := machine.ReadInputSignals(false, Ok(before));
    second := machine.ReadInputSignals(false, Ok(after));
    machine.BeginCycle();
    third := machine.ReadInputSignals(false, Ok(after));
    readLog := machine.boardReads;
  }

  /** After `shutdown` the commands that were waiting are answered "Machine
      is shutting down" in order, and a command dispatched later gets the
      same answer at once. */
  method ShutdownAnswersWaitingCommands(config: MachineConfig, a: Command, b: Command, late: Command)
    returns (replies: seq<Reply>, lateReply: string)
    ensures replies == [Reply(a.replyTo, ShuttingDown), Reply(b.replyTo, ShuttingDown)]
    ensures lateReply == ShuttingDown
  {
    var machine := new Machine(config);
    var _ := machine.SubmitCommand(a);
    var _ := machine.SubmitCommand(b);
    machine.Shutdown();
    replies := machine.replies;
    lateReply := machine.DispatchCommandAndWait(late, Some(""));
  }

  /** A second `initialize` is refused and changes nothing. */
  method InitializeTwice(config: MachineConfig, outcome: RobotComponent -> ComponentService.InitOutcome)
    returns (first: Option<string>, second: Option<string>, initCalls: nat)
    ensures first == None && second == Some(AlreadyRunning)
    ensures initCalls == 3
  {
    var machine := new Machine(config);
    first := machine.Initialize(true, outcome);
    second := machine.Initialize(true, outcome);
    initCalls := |machine.componentService.calls|;
    var cs := RobotComponents;
    var components := machine.componentService.components;
    assert cs[..2] == cs[..|cs| - 1] && cs[..1] == cs[..2][..1];
    assert ComponentService.InitCalls(cs[..1], components) == [ComponentService.Initialize(Contec)];
    assert |ComponentService.InitCalls(cs[..2], components)| == 2;
  }
}
