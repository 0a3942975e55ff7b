/*
 * The machine controller: once per control cycle it asks the control policy
 * for a decision and applies it through the machine's callbacks; on request
 * it drives a tool changer's output.
 *
 * The callbacks are the controller's only effect. The model records every
 * callback it makes, in order, in `calls`. Reading the inputs, the outputs
 * and the Contec state are the callers' values, passed in; whether a motor
 * is configured is the set of configured motors. A raised exception is the
 * error text the method returns.
 */
module Controller {
  import opened Wrappers
  import opened Common
  import opened ControlPolicy

  /** One callback made by the controller. */
  datatype Call =
    | SetOutputs(signals: SignalMap)
    | SetMode(motor: MotorId, mode: MotorControlMode)
    | SetDirection(motor: MotorId, direction: MotorControlDirection)
    | SetSpeed(motor: MotorId, speed: int)
    | SetAcceleration(motor: MotorId, acceleration: int)
    | SetDeceleration(motor: MotorId, deceleration: int)
    | SetPosition(motor: MotorId, position: int)
    | StopMotor(motor: MotorId)
    | StartMotor(motor: MotorId)

  const NoPolicy := "MachineController requires a non-null control policy."
  const NoMotorCallback := "MachineController requires motor availability callback."
  const ContecInError := "Contec is in error state. Not possible to alter tool changer state!"
  const ReadBackFailed :=
    "Unable to read status of output signals, tool changer status update failed!"

  /** The constructor's checks: a policy and a motor-availability callback
      are required, the policy checked first. */
  function ConstructionError(hasPolicy: bool, hasIsMotorConfigured: bool): (r: Option<string>)
    ensures r.None? <==> hasPolicy && hasIsMotorConfigured
    ensures !hasPolicy ==> r == Some(NoPolicy)
    ensures hasPolicy && !hasIsMotorConfigured ==> r == Some(NoMotorCallback)
  {
    if !hasPolicy then Some(NoPolicy)
    else if !hasIsMotorConfigured then Some(NoMotorCallback)
    else None
  }

  // ----- Specification of a control cycle -----

  // The callback each step of applying an intent makes, if any.

  function ModeCall(i: MotorIntent): seq<Call>
  {
    if i.mode.Some? then [SetMode(i.motorId, i.mode.value)] else []
  }

  function DirectionCall(i: MotorIntent): seq<Call>
  {
    if i.direction.Some? then [SetDirection(i.motorId, i.direction.value)] else []
  }

  function SpeedCall(i: MotorIntent): seq<Call>
  {
    if i.speed.Some? then [SetSpeed(i.motorId, i.speed.value)] else []
  }

  function AccelerationCall(i: MotorIntent): seq<Call>
  {
    if i.acceleration.Some? then [SetAcceleration(i.motorId, i.acceleration.value)] else []
  }

  function DecelerationCall(i: MotorIntent): seq<Call>
  {
    if i.deceleration.Some? then [SetDeceleration(i.motorId, i.deceleration.value)] else []
  }

  function PositionCall(i: MotorIntent): seq<Call>
  {
    if i.position.Some? then [SetPosition(i.motorId, i.position.value)] else []
  }

  /** Stop wins over start. */
  function MoveCall(i: MotorIntent): seq<Call>
  {
    if i.stopMovement then [StopMotor(i.motorId)]
    else if i.startMovement then [StartMotor(i.motorId)]
    else []
  }

  /** Mode, direction and speed, each when given. */
  function DriveCalls(i: MotorIntent): seq<Call>
  {
    ModeCall(i) + DirectionCall(i) + SpeedCall(i)
  }

  /** Acceleration, deceleration and position, each when given. */
  function ProfileCalls(i: MotorIntent): seq<Call>
  {
    AccelerationCall(i) + DecelerationCall(i) + PositionCall(i)
  }

  /** The callbacks one intent of a configured motor makes, in the order the
      controller makes them. */
  function IntentCalls(i: MotorIntent): seq<Call>
  {
    DriveCalls(i) + ProfileCalls(i) + MoveCall(i)
  }

  lemma AppendAssoc<T>(a: seq<T>, b: seq<T>, c: seq<T>)
    ensures a + (b + c) == a + b + c
  {
  }

  /** The callbacks a run of intents makes: those of configured motors only. */
  function IntentsCalls(intents: seq<MotorIntent>, configured: set<MotorId>): seq<Call>
  {
    if intents == [] then []
    else
      var last := intents[|intents| - 1];
      IntentsCalls(intents[..|intents| - 1], configured)
      + (if last.motorId in configured then IntentCalls(last) else [])
  }

  /** Whether the warning about a motor has been given: an absent entry reads
      as not given. */
  predicate Warned(warned: map<MotorId, bool>, m: MotorId)
  {
    m in warned && warned[m]
  }

  /** The warned flags after a run of intents: set for an unconfigured motor,
      cleared for a configured one. */
  function WarnedAfter(warned: map<MotorId, bool>, intents: seq<MotorIntent>, configured: set<MotorId>): map<MotorId, bool>
  {
    if intents == [] then warned
    else
      var m := intents[|intents| - 1].motorId;
      WarnedAfter(warned, intents[..|intents| - 1], configured)[m := m !in configured]
  }

  /** The motors warned about during a run of intents, in order. */
  function NewWarnings(warned: map<MotorId, bool>, intents: seq<MotorIntent>, configured: set<MotorId>): seq<MotorId>
  {
    if intents == [] then []
    else
      var prefix := intents[..|intents| - 1];
      var m := intents[|intents| - 1].motorId;
      NewWarnings(warned, prefix, configured)
      + (if m !in configured && !Warned(WarnedAfter(warned, prefix, configured), m) then [m] else [])
  }

  /** The callbacks applying a decision makes: none when it asks to blink;
      otherwise its outputs, if any, then its intents. */
  function DecisionCalls(d: ControlDecision, configured: set<MotorId>): seq<Call>
  {
    if d.setToolChangerErrorBlinking then []
    else (if d.outputs.Some? then [SetOutputs(d.outputs.value)] else []) + IntentsCalls(d.motorIntents, configured)
  }

  /** The output `handleToolChangerCommand` writes: the arm's tool-changer
      signal, on to open. The gantry has no tool changer, and gets an empty
      write. */
  function ToolChangerOutputs(arm: Arm, action: ToolChangerAction): SignalMap
  {
    if arm == Left then map["toolChangerLeft" := action == Open]
    else if arm == Right then map["toolChangerRight" := action == Open]
    else map[]
  }

  class MachineController {
    const policy: Policy
    /** The callbacks made so far. */
    var calls: seq<Call>
    /** `_missingMotorWarned`. */
    var missingMotorWarned: map<MotorId, bool>
    /** The motors warned about so far, in order. */
    var warnings: seq<MotorId>

    constructor (policy: Policy)
      ensures this.policy == policy
      ensures calls == [] && missingMotorWarned == map[] && warnings == []
    {
      this.policy := policy;
      calls := [];
      missingMotorWarned := map[];
      warnings := [];
    }

    /** `runControlLoopTasks`: one decision of the policy, applied. A policy
        that raises leaves everything as it was. */
    method RunControlLoopTasks(inputs: Option<SignalMap>, currentOutputs: Option<SignalMap>,
                               contecState: ComponentState, status: RobotStatus, configured: set<MotorId>)
      returns (error: Option<string>)
      modifies this
      ensures var d := Decide(policy, inputs, currentOutputs, contecState, status);
        && (d.Err? ==> error == Some(d.msg) && calls == old(calls)
                       && missingMotorWarned == old(missingMotorWarned) && warnings == old(warnings))
        && (d.Ok? && d.value.setToolChangerErrorBlinking ==>
              error.None? && calls == old(calls)
              && missingMotorWarned == old(missingMotorWarned) && warnings == old(warnings))
        && (d.Ok? && !d.value.setToolChangerErrorBlinking ==>
              && error.None?
              && calls == old(calls) + DecisionCalls(d.value, configured)
              && missingMotorWarned == WarnedAfter(old(missingMotorWarned), d.value.motorIntents, configured)
              && warnings == old(warnings) + NewWarnings(old(missingMotorWarned), d.value.motorIntents, configured))
    {
      var decision := Decide(policy, inputs, currentOutputs, contecState, status);
      if decision.Err? {
        return Some(decision.msg);
      }
      ApplyDecision(decision.value, configured);
      return None;
    }

    /** A decision, applied: nothing when it asks to blink; otherwise its
        outputs, if any, then its intents. */
    method ApplyDecision(d: ControlDecision, configured: set<MotorId>)
      modifies this
      ensures d.setToolChangerErrorBlinking ==>
        calls == old(calls) && missingMotorWarned == old(missingMotorWarned) && warnings == old(warnings)
      ensures !d.setToolChangerErrorBlinking ==>
        && calls == old(calls) + DecisionCalls(d, configured)
        && missingMotorWarned == WarnedAfter(old(missingMotorWarned), d.motorIntents, configured)
        && warnings == old(warnings) + NewWarnings(old(missingMotorWarned), d.motorIntents, configured)
    {
      if d.setToolChangerErrorBlinking {
        return;
      }
      if d.outputs.Some? {
        calls := calls + [SetOutputs(d.outputs.value)];
      }
      ApplyIntents(d.motorIntents, configured);
      AppendAssoc(old(calls), if d.outputs.Some? then [SetOutputs(d.outputs.value)] else [],
                  IntentsCalls(d.motorIntents, configured));
    }

    /** The intents, in order; those of unconfigured motors are skipped with
        a warning given once. */
    method ApplyIntents(intents: seq<MotorIntent>, configured: set<MotorId>)
      modifies this
      ensures calls == old(calls) + IntentsCalls(intents, configured)
      ensures missingMotorWarned == WarnedAfter(old(missingMotorWarned), intents, configured)
      ensures warnings == old(warnings) + NewWarnings(old(missingMotorWarned), intents, configured)
    {
      for k := 0 to |intents|
        invariant calls == old(calls) + IntentsCalls(intents[..k], configured)
        invariant missingMotorWarned == WarnedAfter(old(missingMotorWarned), intents[..k], configured)
        invariant warnings == old(warnings) + NewWarnings(old(missingMotorWarned), intents[..k], configured)
      {
        var done := intents[..k + 1];
        assert done[..|done| - 1] == intents[..k] && done[|done| - 1] == intents[k];
        var m := intents[k].motorId;
        ghost var callsBefore := calls;
        ghost var warningsBefore := warnings;
        ghost var warnedBefore := missingMotorWarned;
        HandleIntent(intents[k], configured);
        AppendAssoc(old(calls), IntentsCalls(intents[..k], configured),
                    if m in configured then IntentCalls(intents[k]) else []);
        AppendAssoc(old(warnings), NewWarnings(old(missingMotorWarned), intents[..k], configured),
                    if m !in configured && !Warned(warnedBefore, m) then [m] else []);
      }
      assert intents[..|intents|] == intents;
    }

    /** One intent: skipped with a warning, given once, when its motor is
        not configured; applied otherwise. */
    method HandleIntent(intent: MotorIntent, configured: set<MotorId>)
      modifies this
      ensures var m := intent.motorId;
        && calls == old(calls) + (if m in configured then IntentCalls(intent) else [])
        && missingMotorWarned == old(missingMotorWarned)[m := m !in configured]
        && warnings == old(warnings) + (if m !in configured && !Warned(old(missingMotorWarned), m) then [m] else [])
    {
      var m := intent.motorId;
      if m !in configured {
        if !Warned(missingMotorWarned, m) {
          warnings := warnings + [m];
          missingMotorWarned := missingMotorWarned[m := true];
        }
        return;
      }
      missingMotorWarned := missingMotorWarned[m := false];
      ApplyIntent(intent);
    }

    /** One intent of a configured motor: mode, direction, speed,
        acceleration, deceleration and position when given, then stop, or
        start if no stop was asked for. */
    method ApplyIntent(i: MotorIntent)
      modifies this
      ensures calls == old(calls) + IntentCalls(i)
      ensures missingMotorWarned == old(missingMotorWarned) && warnings == old(warnings)
    {
      ApplyDrive(i);
      ApplyProfile(i);
      ApplyMove(i);
      AppendAssoc(old(calls) + DriveCalls(i), ProfileCalls(i), MoveCall(i));
      AppendAssoc(old(calls), DriveCalls(i) + ProfileCalls(i), MoveCall(i));
      AppendAssoc(old(calls), DriveCalls(i), ProfileCalls(i));
    }

    /** Mode, direction and speed, each when given. */
    method ApplyDrive(i: MotorIntent)
      modifies this
      ensures calls == old(calls) + DriveCalls(i)
      ensures missingMotorWarned == old(missingMotorWarned) && warnings == old(warnings)
    {
      var m := i.motorId;
      if i.mode.Some? {
        calls := calls + [SetMode(m, i.mode.value)];
      }
      assert calls == old(calls) + ModeCall(i);
      if i.direction.Some? {
        calls := calls + [SetDirection(m, i.direction.value)];
      }
      assert calls == old(calls) + ModeCall(i) + DirectionCall(i);
      if i.speed.Some? {
        calls := calls + [SetSpeed(m, i.speed.value)];
      }
      AppendAssoc(old(calls), ModeCall(i) + DirectionCall(i), SpeedCall(i));
      AppendAssoc(old(calls), ModeCall(i), DirectionCall(i));
    }

    /** Acceleration, deceleration and position, each when given. */
    method ApplyProfile(i: MotorIntent)
      modifies this
      ensures calls == old(calls) + ProfileCalls(i)
      ensures missingMotorWarned == old(missingMotorWarned) && warnings == old(warnings)
    {
      var m := i.motorId;
      if i.acceleration.Some? {
        calls := calls + [SetAcceleration(m, i.acceleration.value)];
      }
      assert calls == old(calls) + AccelerationCall(i);
      if i.deceleration.Some? {
        calls := calls + [SetDeceleration(m, i.deceleration.value)];
      }
      assert calls == old(calls) + AccelerationCall(i) + DecelerationCall(i);
      if i.position.Some? {
        calls := calls + [SetPosition(m, i.position.value)];
      }
      AppendAssoc(old(calls), AccelerationCall(i) + DecelerationCall(i), PositionCall(i));
      AppendAssoc(old(calls), AccelerationCall(i), DecelerationCall(i));
    }

    /** Stop, or else start, when asked for. */
    method ApplyMove(i: MotorIntent)
      modifies this
      ensures calls == old(calls) + MoveCall(i)
      ensures missingMotorWarned == old(missingMotorWarned) && warnings == old(warnings)
    {
      if i.stopMovement {
        calls := calls + [StopMotor(i.motorId)];
      } else if i.startMovement {
        calls := calls + [StartMotor(i.motorId)];
      }
    }

    /** `handleToolChangerCommand`: refused while Contec is in Error;
        otherwise the arm's signal is written, and a failed read-back of the
        outputs afterwards raises. */
    method HandleToolChangerCommand(arm: Arm, action: ToolChangerAction, contecState: ComponentState,
                                    readBack: Option<SignalMap>)
      returns (error: Option<string>)
      modifies this
      ensures contecState == ComponentState.Error ==> error == Some(ContecInError) && calls == old(calls)
      ensures contecState != ComponentState.Error ==>
        && calls == old(calls) + [SetOutputs(ToolChangerOutputs(arm, action))]
        && (error.Some? <==> readBack.None?)
        && (error.Some? ==> error.value == ReadBackFailed)
      ensures missingMotorWarned == old(missingMotorWarned) && warnings == old(warnings)
    {
      if contecState == ComponentState.Error {
        return Some(ContecInError);
      }
      calls := calls + [SetOutputs(ToolChangerOutputs(arm, action))];
      if readBack.None? {
        return Some(ReadBackFailed);
      }
      return None;
    }
  }

  // ----- Properties -----

  /** The position of a callback in the order an intent is applied. */
  function Rank(c: Call): nat
  {
    match c
    case SetOutputs(_) => 0
    case SetMode(_, _) => 1
    case SetDirection(_, _) => 2
    case SetSpeed(_, _) => 3
    case SetAcceleration(_, _) => 4
    case SetDeceleration(_, _) => 5
    case SetPosition(_, _) => 6
    case StopMotor(_) => 7
    case StartMotor(_) => 8
  }

  function CallMotor(c: Call): Option<MotorId>
  {
    match c
    case SetOutputs(_) => None
    case SetMode(m, _) => Some(m)
    case SetDirection(m, _) => Some(m)
    case SetSpeed(m, _) => Some(m)
    case SetAcceleration(m, _) => Some(m)
    case SetDeceleration(m, _) => Some(m)
    case SetPosition(m, _) => Some(m)
    case StopMotor(m) => Some(m)
    case StartMotor(m) => Some(m)
  }

  predicate Ascending(cs: seq<Call>)
  {
    forall j, k :: 0 <= j < k < |cs| ==> Rank(cs[j]) < Rank(cs[k])
  }

  /** Every rank lies in `lo..hi-1`. */
  predicate RanksWithin(cs: seq<Call>, lo: nat, hi: nat)
  {
    forall k :: 0 <= k < |cs| ==> lo <= Rank(cs[k]) < hi
  }

  /** Every callback names motor `m`. */
  predicate AllFor(cs: seq<Call>, m: MotorId)
  {
    forall k :: 0 <= k < |cs| ==> CallMotor(cs[k]) == Some(m)
  }

  /** Two ordered runs, the second of higher ranks, make one ordered run. */
  lemma ConcatAscending(a: seq<Call>, b: seq<Call>, lo: nat, mid: nat, hi: nat)
    requires lo <= mid <= hi
    requires Ascending(a) && RanksWithin(a, lo, mid)
    requires Ascending(b) && RanksWithin(b, mid, hi)
    ensures Ascending(a + b) && RanksWithin(a + b, lo, hi)
  {
    forall j, k | 0 <= j < k < |a + b|
      ensures Rank((a + b)[j]) < Rank((a + b)[k])
    {
      if k < |a| {
        assert (a + b)[j] == a[j] && (a + b)[k] == a[k];
      } else if j >= |a| {
        assert (a + b)[j] == b[j - |a|] && (a + b)[k] == b[k - |a|];
      } else {
        assert (a + b)[j] == a[j] && (a + b)[k] == b[k - |a|];
      }
    }
    forall k | 0 <= k < |a + b|
      ensures lo <= Rank((a + b)[k]) < hi
    {
      if k < |a| {
        assert (a + b)[k] == a[k];
      } else {
        assert (a + b)[k] == b[k - |a|];
      }
    }
  }

  /** A callback whose rank lies outside a run's ranks is not in it. */
  lemma OutsideRanksAbsent(cs: seq<Call>, c: Call, lo: nat, hi: nat)
    requires RanksWithin(cs, lo, hi) && !(lo <= Rank(c) < hi)
    ensures c !in cs
  {
    assert forall k :: 0 <= k < |cs| ==> cs[k] != c;
  }

  lemma ConcatAllFor(a: seq<Call>, b: seq<Call>, m: MotorId)
    requires AllFor(a, m) && AllFor(b, m)
    ensures AllFor(a + b, m)
  {
  }

  lemma DriveCallsFacts(i: MotorIntent)
    ensures Ascending(DriveCalls(i)) && RanksWithin(DriveCalls(i), 1, 4)
    ensures AllFor(DriveCalls(i), i.motorId)
  {
    ConcatAscending(ModeCall(i), DirectionCall(i), 1, 2, 3);
    ConcatAscending(ModeCall(i) + DirectionCall(i), SpeedCall(i), 1, 3, 4);
    ConcatAllFor(ModeCall(i), DirectionCall(i), i.motorId);
    ConcatAllFor(ModeCall(i) + DirectionCall(i), SpeedCall(i), i.motorId);
  }

  lemma ProfileCallsFacts(i: MotorIntent)
    ensures Ascending(ProfileCalls(i)) && RanksWithin(ProfileCalls(i), 4, 7)
    ensures AllFor(ProfileCalls(i), i.motorId)
  {
    ConcatAscending(AccelerationCall(i), DecelerationCall(i), 4, 5, 6);
    ConcatAscending(AccelerationCall(i) + DecelerationCall(i), PositionCall(i), 4, 6, 7);
    ConcatAllFor(AccelerationCall(i), DecelerationCall(i), i.motorId);
    ConcatAllFor(AccelerationCall(i) + DecelerationCall(i), PositionCall(i), i.motorId);
  }

  /** An intent's callbacks all name its motor and come in strictly
      increasing order of mode, direction, speed, acceleration, deceleration,
      position, stop, start. */
  lemma IntentCallsOrdered(i: MotorIntent)
    ensures Ascending(IntentCalls(i))
    ensures AllFor(IntentCalls(i), i.motorId)
  {
    DriveCallsFacts(i);
    ProfileCallsFacts(i);
    ConcatAscending(DriveCalls(i), ProfileCalls(i), 1, 4, 7);
    ConcatAscending(DriveCalls(i) + ProfileCalls(i), MoveCall(i), 1, 7, 9);
    ConcatAllFor(DriveCalls(i), ProfileCalls(i), i.motorId);
    ConcatAllFor(DriveCalls(i) + ProfileCalls(i), MoveCall(i), i.motorId);
  }

  /** Each setter is called when the intent gives its value. */
  lemma IntentSettersWhenGiven(i: MotorIntent)
    ensures i.mode.Some? ==> SetMode(i.motorId, i.mode.value) in IntentCalls(i)
    ensures i.direction.Some? ==> SetDirection(i.motorId, i.direction.value) in IntentCalls(i)
    ensures i.speed.Some? ==> SetSpeed(i.motorId, i.speed.value) in IntentCalls(i)
    ensures i.acceleration.Some? ==> SetAcceleration(i.motorId, i.acceleration.value) in IntentCalls(i)
    ensures i.deceleration.Some? ==> SetDeceleration(i.motorId, i.deceleration.value) in IntentCalls(i)
    ensures i.position.Some? ==> SetPosition(i.motorId, i.position.value) in IntentCalls(i)
  {
  }

  /** A setter that is called was given its value by the intent. */
  lemma IntentSettersOnlyWhenGiven(i: MotorIntent)
    ensures forall c :: c in IntentCalls(i) ==>
      && (c.SetMode? ==> i.mode == Some(c.mode))
      && (c.SetDirection? ==> i.direction == Some(c.direction))
      && (c.SetSpeed? ==> i.speed == Some(c.speed))
      && (c.SetAcceleration? ==> i.acceleration == Some(c.acceleration))
      && (c.SetDeceleration? ==> i.deceleration == Some(c.deceleration))
      && (c.SetPosition? ==> i.position == Some(c.position))
  {
    assert forall c :: c in DriveCalls(i) <==> c in ModeCall(i) || c in DirectionCall(i) || c in SpeedCall(i);
    assert forall c :: c in ProfileCalls(i) <==>
      c in AccelerationCall(i) || c in DecelerationCall(i) || c in PositionCall(i);
  }

  /** Stop is called exactly when asked for; start exactly when asked for
      and no stop was. */
  lemma IntentMovement(i: MotorIntent)
    ensures StopMotor(i.motorId) in IntentCalls(i) <==> i.stopMovement
    ensures StartMotor(i.motorId) in IntentCalls(i) <==> i.startMovement && !i.stopMovement
  {
    DriveCallsFacts(i);
    ProfileCallsFacts(i);
    var setters := DriveCalls(i) + ProfileCalls(i);
    ConcatAscending(DriveCalls(i), ProfileCalls(i), 1, 4, 7);
    OutsideRanksAbsent(setters, StopMotor(i.motorId), 1, 7);
    OutsideRanksAbsent(setters, StartMotor(i.motorId), 1, 7);
    assert IntentCalls(i) == setters + MoveCall(i);
  }

  /** The test's intent (Speed mode, Reverse, speed 1200, start) is applied
      as mode, direction, speed, start. */
  lemma ExampleIntentOrder()
    ensures IntentCalls(MotorIntent(XLeft, Some(Speed), Some(Reverse), Some(1200), None, None, None, true, false))
      == [SetMode(XLeft, Speed), SetDirection(XLeft, Reverse), SetSpeed(XLeft, 1200), StartMotor(XLeft)]
  {
  }

  /** A motor that is not configured gets no callback at all. */
  lemma {:induction false} UnconfiguredMotorUntouched(intents: seq<MotorIntent>, configured: set<MotorId>, m: MotorId)
    requires m !in configured
    ensures forall k :: 0 <= k < |IntentsCalls(intents, configured)| ==>
      CallMotor(IntentsCalls(intents, configured)[k]) != Some(m)
  {
    if intents != [] {
      var last := intents[|intents| - 1];
      UnconfiguredMotorUntouched(intents[..|intents| - 1], configured, m);
      if last.motorId in configured {
        IntentCallsOrdered(last);
      }
    }
  }

  /** Intent callbacks never write outputs. */
  lemma {:induction false} IntentsWriteNoOutputs(intents: seq<MotorIntent>, configured: set<MotorId>)
    ensures forall k :: 0 <= k < |IntentsCalls(intents, configured)| ==>
      !IntentsCalls(intents, configured)[k].SetOutputs?
  {
    if intents != [] {
      var last := intents[|intents| - 1];
      IntentsWriteNoOutputs(intents[..|intents| - 1], configured);
      if last.motorId in configured {
        IntentCallsOrdered(last);
      }
    }
  }

  /** A blinking decision makes no callback; otherwise outputs are written
      exactly when the decision has them, once, first. */
  lemma OutputsWrittenIffPresent(d: ControlDecision, configured: set<MotorId>)
    ensures d.setToolChangerErrorBlinking ==> DecisionCalls(d, configured) == []
    ensures (exists k :: 0 <= k < |DecisionCalls(d, configured)| && DecisionCalls(d, configured)[k].SetOutputs?)
      <==> !d.setToolChangerErrorBlinking && d.outputs.Some?
    ensures !d.setToolChangerErrorBlinking && d.outputs.Some? ==>
      DecisionCalls(d, configured)[0] == SetOutputs(d.outputs.value)
  {
    IntentsWriteNoOutputs(d.motorIntents, configured);
    var cs := DecisionCalls(d, configured);
    if !d.setToolChangerErrorBlinking && d.outputs.Some? {
      assert cs[0].SetOutputs?;
    } else if !d.setToolChangerErrorBlinking {
      assert cs == IntentsCalls(d.motorIntents, configured);
    }
  }

  /** After a run of intents, the flag of every motor that appeared says
      whether it was unconfigured; other motors keep their flags. */
  lemma {:induction false} WarnedAfterSpec(warned: map<MotorId, bool>, intents: seq<MotorIntent>,
                                           configured: set<MotorId>, m: MotorId)
    ensures (exists k :: 0 <= k < |intents| && intents[k].motorId == m) ==>
      Warned(WarnedAfter(warned, intents, configured), m) == (m !in configured)
    ensures (forall k :: 0 <= k < |intents| ==> intents[k].motorId != m) ==>
      Warned(WarnedAfter(warned, intents, configured), m) == Warned(warned, m)
  {
    if intents != [] {
      var prefix := intents[..|intents| - 1];
      WarnedAfterSpec(warned, prefix, configured, m);
      if intents[|intents| - 1].motorId != m {
        if exists k :: 0 <= k < |intents| && intents[k].motorId == m {
          var k :| 0 <= k < |intents| && intents[k].motorId == m;
          assert prefix[k].motorId == m;
        }
        assert forall k :: 0 <= k < |prefix| ==> prefix[k] == intents[k];
      }
    }
  }

  /** A motor already warned about and still unconfigured is not warned
      about again. */
  lemma {:induction false} NoRepeatedWarning(warned: map<MotorId, bool>, intents: seq<MotorIntent>,
                                             configured: set<MotorId>, m: MotorId)
    requires Warned(warned, m) && m !in configured
    ensures m !in NewWarnings(warned, intents, configured)
    ensures Warned(WarnedAfter(warned, intents, configured), m)
  {
    if intents != [] {
      NoRepeatedWarning(warned, intents[..|intents| - 1], configured, m);
    }
  }

  /** Within one cycle a motor is warned about at most once, and a motor
      warned about stays flagged. */
  lemma {:induction false} WarningsDistinct(warned: map<MotorId, bool>, intents: seq<MotorIntent>,
                                            configured: set<MotorId>)
    ensures forall j, k :: 0 <= j < k < |NewWarnings(warned, intents, configured)| ==>
      NewWarnings(warned, intents, configured)[j] != NewWarnings(warned, intents, configured)[k]
    ensures forall k :: 0 <= k < |NewWarnings(warned, intents, configured)| ==>
      && NewWarnings(warned, intents, configured)[k] !in configured
      && Warned(WarnedAfter(warned, intents, configured), NewWarnings(warned, intents, configured)[k])
  {
    if intents != [] {
      var prefix := intents[..|intents| - 1];
      var m := intents[|intents| - 1].motorId;
      WarningsDistinct(warned, prefix, configured);
      var ws0 := NewWarnings(warned, prefix, configured);
      var w0 := WarnedAfter(warned, prefix, configured);
      assert WarnedAfter(warned, intents, configured) == w0[m := m !in configured];
      assert NewWarnings(warned, intents, configured)
        == ws0 + (if m !in configured && !Warned(w0, m) then [m] else []);
    }
  }

  /** Over cycles: an unconfigured motor is warned about in the first cycle
      that commands it, not in the next, and again once a cycle has seen it
      configured. */
  lemma WarnOnceUntilConfigured(warned: map<MotorId, bool>, i: MotorIntent, configured: set<MotorId>)
    requires i.motorId !in configured && !Warned(warned, i.motorId)
    ensures var m := i.motorId;
      var w1 := WarnedAfter(warned, [i], configured);
      var w2 := WarnedAfter(w1, [i], configured);
      var w3 := WarnedAfter(w2, [i], configured + {m});
      && NewWarnings(warned, [i], configured) == [m]
      && NewWarnings(w1, [i], configured) == []
      && NewWarnings(w3, [i], configured) == [m]
  {
    assert [i][..0] == [];
  }

  /** Opening or closing writes only the arm's own signal, true to open; the
      gantry gets an empty write. */
  lemma ToolChangerWritesOwnSignal(arm: Arm, action: ToolChangerAction)
    ensures arm == Left ==> ToolChangerOutputs(arm, action).Keys == {"toolChangerLeft"}
                            && ToolChangerOutputs(arm, action)["toolChangerLeft"] == (action == Open)
    ensures arm == Right ==> ToolChangerOutputs(arm, action).Keys == {"toolChangerRight"}
                             && ToolChangerOutputs(arm, action)["toolChangerRight"] == (action == Open)
    ensures arm == Gantry ==> ToolChangerOutputs(arm, action) == map[]
  {
  }

  /** With no motor configured, intents make no callback. */
  lemma {:induction false} NothingConfiguredNoCalls(intents: seq<MotorIntent>)
    ensures IntentsCalls(intents, {}) == []
  {
    if intents != [] {
      NothingConfiguredNoCalls(intents[..|intents| - 1]);
    }
  }

  /** Run with the RimoKun policy, a cycle past the guard with no motor
      configured writes the lights and nothing else. */
  method RimoKunCycleExample(inputs: SignalMap, status: RobotStatus) returns (made: seq<Call>)
    requires "button1" in inputs && "button2" in inputs
    ensures made == [SetOutputs(Lights(inputs))]
  {
    var c := new MachineController(RimoKunPolicy(DefaultMotion));
    var error := c.RunControlLoopTasks(Some(inputs), None, ComponentState.Normal, status, {});
    made := c.calls;
    NothingConfiguredNoCalls(RimoKunIntents(DefaultMotion, status));
  }
}
