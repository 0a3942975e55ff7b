/*
 * The status builder: once per update period it refreshes the published
 * robot status in place from the machine components, the control panel's
 * joysticks and the Contec I/O signals, and publishes it.
 *
 * The components' states, the joystick snapshot and the signal reads are
 * the callers' values, passed in. The status the builder updates and the
 * statuses it has published are the fields of a `StatusBoard`.
 */
module StatusBuilder {
  import opened Wrappers
  import opened Common

  type SignalMap = map<string, bool>

  /** `ControlPanel::Snapshot`: three axes and buttons, indexed left, right,
      gantry. */
  datatype JoystickSnapshot = JoystickSnapshot(x: seq<real>, y: seq<real>, b: seq<bool>)

  predicate ValidSnapshot(s: JoystickSnapshot)
  {
    |s.x| == 3 && |s.y| == 3 && |s.b| == 3
  }

  /** `stateToLed`: a component in Normal lights its LED, anything else shows
      Error. */
  function StateToLed(state: ComponentState): (r: LedState)
    ensures r == LedState.On <==> state == ComponentState.Normal
    ensures r != LedState.On ==> r == LedState.Error
  {
    if state == ComponentState.Normal then LedState.On else LedState.Error
  }

  function OnOff(b: bool): LedState
  {
    if b then LedState.On else LedState.Off
  }

  /** An arm's flags; reading an arm the status lacks gives no flags. */
  function FlagsOf(tcs: map<Arm, ToolChangerStatus>, arm: Arm): map<ToolChangerFlag, LedState>
  {
    if arm in tcs then tcs[arm].flags else map[]
  }

  /** `status.toolChangers[arm].flags[flag] = led`. */
  function WithFlag(tcs: map<Arm, ToolChangerStatus>, arm: Arm, flag: ToolChangerFlag, led: LedState)
    : map<Arm, ToolChangerStatus>
  {
    tcs[arm := ToolChangerStatus(FlagsOf(tcs, arm)[flag := led])]
  }

  /** All five tool-changer flags showing `led`. */
  function AllFlags(led: LedState): map<ToolChangerFlag, LedState>
  {
    map[ProxSen := led, OpenSen := led, ClosedSen := led, OpenValve := led, ClosedValve := led]
  }

  predicate ContecInError(components: map<RobotComponent, ComponentState>)
  {
    Contec in components && components[Contec] == ComponentState.Error
  }

  // ----- Specification of one update -----

  /** The component LEDs after the update: those of the given components
      replaced, the others kept. */
  function ComponentLeds(leds: map<RobotComponent, LedState>, components: map<RobotComponent, ComponentState>)
    : map<RobotComponent, LedState>
  {
    map c | c in leds.Keys + components.Keys :: if c in components then StateToLed(components[c]) else leds[c]
  }

  function Joystick(s: JoystickSnapshot, i: nat): JoystickStatus
    requires ValidSnapshot(s) && i < 3
  {
    JoystickStatus(s.x[i], s.y[i], s.b[i])
  }

  function Joysticks(js: map<Arm, JoystickStatus>, s: JoystickSnapshot): map<Arm, JoystickStatus>
    requires ValidSnapshot(s)
  {
    js[Left := Joystick(s, 0)][Right := Joystick(s, 1)][Gantry := Joystick(s, 2)]
  }

  /** `setAllToolChangerFlags`: every flag of both arms shows `led`. */
  function AllToolChangerFlags(tcs: map<Arm, ToolChangerStatus>, led: LedState): map<Arm, ToolChangerStatus>
  {
    tcs[Left := ToolChangerStatus(AllFlags(led))][Right := ToolChangerStatus(AllFlags(led))]
  }

  /** The proximity flags: the buttons' levels when both are read, Error
      otherwise. */
  function ProxFlags(tcs: map<Arm, ToolChangerStatus>, inputs: Option<SignalMap>): map<Arm, ToolChangerStatus>
  {
    if inputs.Some? && "button1" in inputs.value && "button2" in inputs.value then
      WithFlag(WithFlag(tcs, Left, ProxSen, OnOff(inputs.value["button1"])),
               Right, ProxSen, OnOff(inputs.value["button2"]))
    else
      WithFlag(WithFlag(tcs, Left, ProxSen, LedState.Error), Right, ProxSen, LedState.Error)
  }

  /** The valve flags: from the tool-changer outputs when both are read,
      Error otherwise. */
  function ValveFlags(tcs: map<Arm, ToolChangerStatus>, outputs: Option<SignalMap>): map<Arm, ToolChangerStatus>
  {
    if outputs.Some? && "toolChangerLeft" in outputs.value && "toolChangerRight" in outputs.value then
      var left := outputs.value["toolChangerLeft"];
      var right := outputs.value["toolChangerRight"];
      WithFlag(WithFlag(WithFlag(WithFlag(tcs, Left, ClosedValve, OnOff(!left)),
                                 Left, OpenValve, OnOff(left)),
                        Right, ClosedValve, OnOff(!right)),
               Right, OpenValve, OnOff(right))
    else
      WithFlag(WithFlag(WithFlag(WithFlag(tcs, Left, ClosedValve, LedState.Error),
                                 Left, OpenValve, LedState.Error),
                        Right, ClosedValve, LedState.Error),
               Right, OpenValve, LedState.Error)
  }

  /** The tool changers after the update: all flags in Error while the
      Contec board is in Error; otherwise proximity, then valves. */
  function ToolChangersAfter(tcs: map<Arm, ToolChangerStatus>, components: map<RobotComponent, ComponentState>,
                             inputs: Option<SignalMap>, outputs: Option<SignalMap>): map<Arm, ToolChangerStatus>
  {
    if ContecInError(components) then AllToolChangerFlags(tcs, LedState.Error)
    else ValveFlags(ProxFlags(tcs, inputs), outputs)
  }

  /** The status `updateAndPublish` leaves and publishes; the motors are not
      its business. */
  function Updated(status: RobotStatus, components: map<RobotComponent, ComponentState>,
                   snapshot: JoystickSnapshot, inputs: Option<SignalMap>, outputs: Option<SignalMap>): RobotStatus
    requires ValidSnapshot(snapshot)
  {
    RobotStatus(status.motors,
                ToolChangersAfter(status.toolChangers, components, inputs, outputs),
                ComponentLeds(status.robotComponents, components),
                Joysticks(status.joystics, snapshot))
  }

  // ----- The builder -----

  class StatusBoard {
    /** The status the machine owns and the builder updates in place. */
    var status: RobotStatus
    /** Every status handed to `publish`, in order. */
    var published: seq<RobotStatus>

    constructor ()
      ensures status == EmptyStatus && published == []
    {
      status := EmptyStatus;
      published := [];
    }

    /** `updateAndPublish`. */
    method UpdateAndPublish(components: map<RobotComponent, ComponentState>, snapshot: JoystickSnapshot,
                            inputs: Option<SignalMap>, outputs: Option<SignalMap>)
      requires ValidSnapshot(snapshot)
      modifies this
      ensures status == Updated(old(status), components, snapshot, inputs, outputs)
      ensures published == old(published) + [status]
    {
      UpdateComponentLeds(components);
      status := status.(joystics := status.joystics[Left := Joystick(snapshot, 0)]);
      status := status.(joystics := status.joystics[Right := Joystick(snapshot, 1)]);
      status := status.(joystics := status.joystics[Gantry := Joystick(snapshot, 2)]);
      if ContecInError(components) {
        SetAllToolChangerFlags(LedState.Error);
        published := published + [status];
        return;
      }
      UpdateProximity(inputs);
      UpdateValves(outputs);
      published := published + [status];
    }

    /** The proximity flags from the two buttons. */
    method UpdateProximity(inputs: Option<SignalMap>)
      modifies this
      ensures status == old(status).(toolChangers := ProxFlags(old(status).toolChangers, inputs))
      ensures published == old(published)
    {
      if inputs.Some? && "button1" in inputs.value && "button2" in inputs.value {
        SetFlag(Left, ProxSen, OnOff(inputs.value["button1"]));
        SetFlag(Right, ProxSen, OnOff(inputs.value["button2"]));
      } else {
        SetFlag(Left, ProxSen, LedState.Error);
        SetFlag(Right, ProxSen, LedState.Error);
      }
    }

    /** The valve flags from the two tool-changer outputs. */
    method UpdateValves(outputs: Option<SignalMap>)
      modifies this
      ensures status == old(status).(toolChangers := ValveFlags(old(status).toolChangers, outputs))
      ensures published == old(published)
    {
      if outputs.Some? && "toolChangerLeft" in outputs.value && "toolChangerRight" in outputs.value {
        var left := outputs.value["toolChangerLeft"];
        var right := outputs.value["toolChangerRight"];
        SetFlag(Left, ClosedValve, OnOff(!left));
        SetFlag(Left, OpenValve, OnOff(left));
        SetFlag(Right, ClosedValve, OnOff(!right));
        SetFlag(Right, OpenValve, OnOff(right));
      } else {
        SetFlag(Left, ClosedValve, LedState.Error);
        SetFlag(Left, OpenValve, LedState.Error);
        SetFlag(Right, ClosedValve, LedState.Error);
        SetFlag(Right, OpenValve, LedState.Error);
      }
    }

    /** The component loop: each component's LED from its state. The
        components are distinct keys, so the order they are visited in does
        not change the result. */
    method UpdateComponentLeds(components: map<RobotComponent, ComponentState>)
      modifies this
      ensures status == old(status).(robotComponents := ComponentLeds(old(status).robotComponents, components))
      ensures published == old(published)
    {
      var leds := status.robotComponents;
      var todo := components.Keys;
      while todo != {}
        invariant todo <= components.Keys
        invariant forall c :: c in leds <==> c in status.robotComponents || (c in components && c !in todo)
        invariant forall c :: c in leds ==>
          leds[c] == if c in components && c !in todo then StateToLed(components[c]) else status.robotComponents[c]
        decreases todo
      {
        var c :| c in todo;
        leds := leds[c := StateToLed(components[c])];
        todo := todo - {c};
      }
      assert leds == ComponentLeds(status.robotComponents, components);
      status := status.(robotComponents := leds);
    }

    /** One flag of one arm. */
    method SetFlag(arm: Arm, flag: ToolChangerFlag, led: LedState)
      modifies this
      ensures status == old(status).(toolChangers := WithFlag(old(status).toolChangers, arm, flag, led))
      ensures published == old(published)
    {
      status := status.(toolChangers := WithFlag(status.toolChangers, arm, flag, led));
    }

    /** `setAllToolChangerFlags`: for the left and then the right arm, every
        flag in turn. */
    method SetAllToolChangerFlags(led: LedState)
      modifies this
      ensures status == old(status).(toolChangers := AllToolChangerFlags(old(status).toolChangers, led))
      ensures published == old(published)
    {
      var arms := [Left, Right];
      for a := 0 to |arms|
        invariant published == old(published)
        invariant status.robotComponents == old(status).robotComponents
        invariant status.joystics == old(status).joystics && status.motors == old(status).motors
        invariant a == 0 ==> status.toolChangers == old(status).toolChangers
        invariant a == 1 ==> status.toolChangers == old(status).toolChangers[Left := ToolChangerStatus(AllFlags(led))]
        invariant a == 2 ==> status.toolChangers == AllToolChangerFlags(old(status).toolChangers, led)
      {
        var arm := arms[a];
        var flags := FlagsOf(status.toolChangers, arm);
        var order := [ProxSen, OpenSen, ClosedSen, OpenValve, ClosedValve];
        for j := 0 to |order|
          invariant forall f :: f in order[..j] ==> f in flags && flags[f] == led
        {
          flags := flags[order[j] := led];
        }
        assert order[..|order|] == order;
        forall f ensures f in flags && flags[f] == led {
          assert f == order[0] || f == order[1] || f == order[2] || f == order[3] || f == order[4];
        }
        AllFlagsCoverEveryFlag(led);
        assert flags == AllFlags(led);
        status := status.(toolChangers := status.toolChangers[arm := ToolChangerStatus(flags)]);
      }
    }
  }

  // ----- Properties -----

  /** Every component given has its LED On exactly when it is Normal and
      Error otherwise; components not given keep their LED. */
  lemma ComponentLedsFollowStates(leds: map<RobotComponent, LedState>, components: map<RobotComponent, ComponentState>)
    ensures ComponentLeds(leds, components).Keys == leds.Keys + components.Keys
    ensures forall c :: c in components ==>
      && (ComponentLeds(leds, components)[c] == LedState.On <==> components[c] == ComponentState.Normal)
      && (components[c] != ComponentState.Normal ==> ComponentLeds(leds, components)[c] == LedState.Error)
    ensures forall c :: c in leds && c !in components ==> ComponentLeds(leds, components)[c] == leds[c]
  {
  }

  /** Snapshot slots 0, 1 and 2 become the left, right and gantry joysticks
      unchanged. */
  lemma JoysticksFromSnapshot(js: map<Arm, JoystickStatus>, snapshot: JoystickSnapshot)
    requires ValidSnapshot(snapshot)
    ensures Joysticks(js, snapshot).Keys == js.Keys + {Left, Right, Gantry}
    ensures Joysticks(js, snapshot)[Left] == JoystickStatus(snapshot.x[0], snapshot.y[0], snapshot.b[0])
    ensures Joysticks(js, snapshot)[Right] == JoystickStatus(snapshot.x[1], snapshot.y[1], snapshot.b[1])
    ensures Joysticks(js, snapshot)[Gantry] == JoystickStatus(snapshot.x[2], snapshot.y[2], snapshot.b[2])
  {
  }

  /** Every flag there is. */
  lemma AllFlagsCoverEveryFlag(led: LedState)
    ensures forall f :: f in AllFlags(led) && AllFlags(led)[f] == led
  {
    forall f ensures f in AllFlags(led) && AllFlags(led)[f] == led {
      assert f == ProxSen || f == OpenSen || f == ClosedSen || f == OpenValve || f == ClosedValve;
    }
  }

  /** With the Contec board in Error, all five flags of both arms show Error,
      whatever the signals read; the gantry's entry is left alone. */
  lemma ContecErrorFlagsAllError(tcs: map<Arm, ToolChangerStatus>, components: map<RobotComponent, ComponentState>,
                                 inputs: Option<SignalMap>, outputs: Option<SignalMap>)
    requires ContecInError(components)
    ensures var after := ToolChangersAfter(tcs, components, inputs, outputs);
      && Left in after && Right in after
      && after[Left].flags == AllFlags(LedState.Error) && after[Right].flags == AllFlags(LedState.Error)
      && (Gantry in after <==> Gantry in tcs)
      && (Gantry in after ==> after[Gantry] == tcs[Gantry])
  {
  }

  /** The valve update touches only the two valve flags. */
  lemma ValveFlagsKeepOthers(tcs: map<Arm, ToolChangerStatus>, outputs: Option<SignalMap>, arm: Arm, flag: ToolChangerFlag)
    requires flag != OpenValve && flag != ClosedValve
    ensures var after := ValveFlags(tcs, outputs);
      && (arm in after <==> arm in tcs || arm == Left || arm == Right)
      && (flag in FlagsOf(after, arm) <==> flag in FlagsOf(tcs, arm))
      && (flag in FlagsOf(after, arm) ==> FlagsOf(after, arm)[flag] == FlagsOf(tcs, arm)[flag])
  {
  }

  /** Without a Contec error, the proximity flags follow button1 and button2
      when both are read, and both show Error otherwise. */
  lemma ProximityFromButtons(tcs: map<Arm, ToolChangerStatus>, components: map<RobotComponent, ComponentState>,
                             inputs: Option<SignalMap>, outputs: Option<SignalMap>)
    requires !ContecInError(components)
    ensures var after := ToolChangersAfter(tcs, components, inputs, outputs);
      && Left in after && Right in after && ProxSen in after[Left].flags && ProxSen in after[Right].flags
      && (inputs.Some? && "button1" in inputs.value && "button2" in inputs.value ==>
            && (after[Left].flags[ProxSen] == LedState.On <==> inputs.value["button1"])
            && (after[Right].flags[ProxSen] == LedState.On <==> inputs.value["button2"])
            && after[Left].flags[ProxSen] != LedState.Error && after[Right].flags[ProxSen] != LedState.Error)
      && (!(inputs.Some? && "button1" in inputs.value && "button2" in inputs.value) ==>
            after[Left].flags[ProxSen] == LedState.Error && after[Right].flags[ProxSen] == LedState.Error)
  {
    ValveFlagsKeepOthers(ProxFlags(tcs, inputs), outputs, Left, ProxSen);
    ValveFlagsKeepOthers(ProxFlags(tcs, inputs), outputs, Right, ProxSen);
  }

  /** Without a Contec error, when both tool-changer outputs are read each
      arm's OpenValve is On exactly when its output is set and ClosedValve
      shows the opposite; otherwise all four valve flags show Error. */
  lemma ValvesFromOutputs(tcs: map<Arm, ToolChangerStatus>, components: map<RobotComponent, ComponentState>,
                          inputs: Option<SignalMap>, outputs: Option<SignalMap>)
    requires !ContecInError(components)
    ensures var after := ToolChangersAfter(tcs, components, inputs, outputs);
      && Left in after && Right in after
      && OpenValve in after[Left].flags && ClosedValve in after[Left].flags
      && OpenValve in after[Right].flags && ClosedValve in after[Right].flags
      && (outputs.Some? && "toolChangerLeft" in outputs.value && "toolChangerRight" in outputs.value ==>
            && (after[Left].flags[OpenValve] == LedState.On <==> outputs.value["toolChangerLeft"])
            && (after[Left].flags[ClosedValve] == LedState.On <==> !outputs.value["toolChangerLeft"])
            && (after[Right].flags[OpenValve] == LedState.On <==> outputs.value["toolChangerRight"])
            && (after[Right].flags[ClosedValve] == LedState.On <==> !outputs.value["toolChangerRight"]))
      && (!(outputs.Some? && "toolChangerLeft" in outputs.value && "toolChangerRight" in outputs.value) ==>
            && after[Left].flags[OpenValve] == LedState.Error && after[Left].flags[ClosedValve] == LedState.Error
            && after[Right].flags[OpenValve] == LedState.Error && after[Right].flags[ClosedValve] == LedState.Error)
  {
  }

  /** Without a Contec error the open and closed sensor flags are not
      touched. */
  lemma SensorFlagsKept(tcs: map<Arm, ToolChangerStatus>, components: map<RobotComponent, ComponentState>,
                        inputs: Option<SignalMap>, outputs: Option<SignalMap>, arm: Arm, flag: ToolChangerFlag)
    requires !ContecInError(components)
    requires flag == OpenSen || flag == ClosedSen
    ensures var after := ToolChangersAfter(tcs, components, inputs, outputs);
      && (flag in FlagsOf(after, arm) <==> flag in FlagsOf(tcs, arm))
      && (flag in FlagsOf(after, arm) ==> FlagsOf(after, arm)[flag] == FlagsOf(tcs, arm)[flag])
  {
    ValveFlagsKeepOthers(ProxFlags(tcs, inputs), outputs, arm, flag);
  }

  /** Each update publishes once, and what it publishes is the status it
      leaves behind. */
  method PublishesOnce(components: map<RobotComponent, ComponentState>, snapshot: JoystickSnapshot,
                       inputs: Option<SignalMap>, outputs: Option<SignalMap>)
    returns (first: seq<RobotStatus>, second: seq<RobotStatus>)
    requires ValidSnapshot(snapshot)
    ensures |first| == 1 && |second| == 2 && second[0] == first[0]
    ensures first[0] == Updated(EmptyStatus, components, snapshot, inputs, outputs)
    ensures second[1] == Updated(first[0], components, snapshot, inputs, outputs)
  {
    var board := new StatusBoard();
    board.UpdateAndPublish(components, snapshot, inputs, outputs);
    first := board.published;
    board.UpdateAndPublish(components, snapshot, inputs, outputs);
    second := board.published;
  }
}
