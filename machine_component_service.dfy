/*
 * The machine component service: it reconnects one machine component on
 * request (reset, then initialize) and initializes all of them at start-up.
 *
 * The components themselves are outside the model. The service's map holds,
 * for each component id, whether the component it refers to is live (true) or
 * null (false). What a component's `initialize` does is the caller's value:
 * it returns, leaving the component in some state, or it throws. The calls
 * the service makes on the components are recorded, in order, in `calls`;
 * the error lines `initializeAll` logs are its result.
 */
module ComponentService {
  import opened Common

  /** The outcome of one component's `initialize`. */
  datatype InitOutcome = Initialized(state: ComponentState) | Threw(what: string)

  /** One call the service makes on a component. */
  datatype ComponentCall = Reset(component: RobotComponent) | Initialize(component: RobotComponent)

  type Components = map<RobotComponent, bool>

  /** The component is in the map and its entry is not null. */
  predicate Live(components: Components, c: RobotComponent)
  {
    c in components && components[c]
  }

  function NotImplemented(c: RobotComponent): string
  {
    "Resetting of '" + ComponentName(c) + "' is not implemented!"
  }

  function ResetFailed(c: RobotComponent, what: string): string
  {
    "Resetting '" + ComponentName(c) + "' failed: " + what
  }

  function ResetUnsuccessful(c: RobotComponent): string
  {
    "Resetting '" + ComponentName(c) + "' was unsuccessful!"
  }

  /** What `reconnect` answers for a live component, given what its
      `initialize` did: the exception's text, a complaint for any state but
      Normal, and "" for success. */
  function ReconnectMessage(c: RobotComponent, outcome: InitOutcome): (r: string)
    ensures r == "" <==> outcome == Initialized(Normal)
  {
    match outcome
    case Threw(what) => ResetFailed(c, what)
    case Initialized(state) => if state != Normal then ResetUnsuccessful(c) else ""
  }

  /** What `reconnect` answers for component `c`: "" exactly when the
      component is live and its `initialize` left it Normal. */
  function ReconnectAnswer(components: Components, c: RobotComponent, outcome: InitOutcome): (r: string)
    ensures r == "" <==> Live(components, c) && outcome == Initialized(Normal)
  {
    if Live(components, c) then ReconnectMessage(c, outcome) else NotImplemented(c)
  }

  /** The calls `reconnect` makes on component `c`: a reset, then an
      initialize, when it is live; none otherwise. */
  function ReconnectCalls(components: Components, c: RobotComponent): (r: seq<ComponentCall>)
    ensures r != [] <==> Live(components, c)
  {
    if Live(components, c) then [Reset(c), Initialize(c)] else []
  }

  /** The `initialize` calls of `initializeAll` over the components `cs`
      (visited in that order): one per live component. */
  function InitCalls(cs: seq<RobotComponent>, components: Components): seq<ComponentCall>
  {
    if cs == [] then []
    else
      InitCalls(cs[..|cs| - 1], components)
      + (if Live(components, cs[|cs| - 1]) then [Initialize(cs[|cs| - 1])] else [])
  }

  function InitFailedLine(c: RobotComponent, what: string): string
  {
    ComponentName(c) + " initialization failed: " + what
  }

  /** The error lines `initializeAll` logs over `cs`: one per live component
      whose `initialize` throws. */
  function InitFailures(cs: seq<RobotComponent>, components: Components, outcome: RobotComponent -> InitOutcome)
    : seq<string>
  {
    if cs == [] then []
    else
      var c := cs[|cs| - 1];
      InitFailures(cs[..|cs| - 1], components, outcome)
      + (if Live(components, c) && outcome(c).Threw? then [InitFailedLine(c, outcome(c).what)] else [])
  }

  class MachineComponentService {
    /** The component map the service was given; the service never changes it. */
    const components: Components
    /** Every call made on a component, in order. */
    var calls: seq<ComponentCall>

    constructor (components: Components)
      ensures this.components == components && calls == []
    {
      this.components := components;
      calls := [];
    }

    /** `reconnect`: an unknown or null component is not touched; a live one
        is reset, then initialized, once each. */
    method Reconnect(c: RobotComponent, outcome: InitOutcome) returns (message: string)
      modifies this
      ensures !Live(components, c) ==> calls == old(calls) && message == NotImplemented(c)
      ensures Live(components, c) ==>
        calls == old(calls) + [Reset(c), Initialize(c)] && message == ReconnectMessage(c, outcome)
      ensures calls == old(calls) + ReconnectCalls(components, c)
      ensures message == ReconnectAnswer(components, c, outcome)
    {
      if c !in components || !components[c] {
        return NotImplemented(c);
      }
      calls := calls + [Reset(c)];
      calls := calls + [Initialize(c)];
      if outcome.Threw? {
        return ResetFailed(c, outcome.what);
      }
      if outcome.state != Normal {
        return ResetUnsuccessful(c);
      }
      return "";
    }

    /** `initializeAll`: every live component in key order; a component that
        throws is logged and the loop goes on. */
    method InitializeAll(outcome: RobotComponent -> InitOutcome) returns (failures: seq<string>)
      modifies this
      ensures calls == old(calls) + InitCalls(RobotComponents, components)
      ensures failures == InitFailures(RobotComponents, components, outcome)
    {
      failures := [];
      for k := 0 to |RobotComponents|
        invariant calls == old(calls) + InitCalls(RobotComponents[..k], components)
        invariant failures == InitFailures(RobotComponents[..k], components, outcome)
      {
        var done := RobotComponents[..k + 1];
        assert done[..|done| - 1] == RobotComponents[..k] && done[|done| - 1] == RobotComponents[k];
        var c := RobotComponents[k];
        if c !in components || !components[c] {
          continue;
        }
        calls := calls + [Initialize(c)];
        if outcome(c).Threw? {
          failures := failures + [InitFailedLine(c, outcome(c).what)];
        }
      }
      assert RobotComponents[..|RobotComponents|] == RobotComponents;
    }
  }

  // ----- Properties -----

  /** The three complaints of `reconnect` are told apart by their text, and
      none of them is the empty success answer. */
  lemma ReconnectMessagesDistinct(c: RobotComponent, d: RobotComponent, what: string)
    ensures NotImplemented(c) != ResetFailed(d, what)
    ensures NotImplemented(c) != ResetUnsuccessful(d)
    ensures NotImplemented(c) != ""
  {
    assert NotImplemented(c)[10] == 'o';
    assert ResetFailed(d, what)[10] == '\'';
    assert ResetUnsuccessful(d)[10] == '\'';
  }

  /** A component that comes back in Warning is reported as unsuccessful,
      not as reconnected. */
  lemma WarningIsUnsuccessful(c: RobotComponent)
    ensures ReconnectMessage(c, Initialized(ComponentState.Warning)) == ResetUnsuccessful(c)
    ensures ReconnectMessage(c, Initialized(ComponentState.Warning)) != ""
  {
  }

  function Rank(c: RobotComponent): nat
  {
    match c
    case Contec => 0
    case ControlPanel => 1
    case MotorControl => 2
  }

  predicate StrictlyAscending(cs: seq<RobotComponent>)
  {
    forall i, j :: 0 <= i < j < |cs| ==> Rank(cs[i]) < Rank(cs[j])
  }

  lemma AscendingFront(cs: seq<RobotComponent>)
    requires cs != [] && StrictlyAscending(cs)
    ensures StrictlyAscending(cs[..|cs| - 1]) && cs[|cs| - 1] !in cs[..|cs| - 1]
  {
    var front := cs[..|cs| - 1];
    forall k | 0 <= k < |front| ensures front[k] != cs[|cs| - 1] {
      assert Rank(cs[k]) < Rank(cs[|cs| - 1]);
    }
  }

  /** `initializeAll` initializes exactly the live components, once each,
      whatever their `initialize` does. */
  lemma {:induction false} InitializedOnceEach(cs: seq<RobotComponent>, components: Components, c: RobotComponent)
    requires StrictlyAscending(cs)
    ensures multiset(InitCalls(cs, components))[Initialize(c)] == if c in cs && Live(components, c) then 1 else 0
  {
    if cs != [] {
      AscendingFront(cs);
      InitializedOnceEach(cs[..|cs| - 1], components, c);
      InitCallsCount(cs, components, c);
    }
  }

  /** The count of `initialize` calls on `c` over `cs`, from the count over
      all but the last component. */
  lemma InitCallsCount(cs: seq<RobotComponent>, components: Components, c: RobotComponent)
    requires cs != []
    ensures var front := cs[..|cs| - 1];
      && multiset(InitCalls(cs, components))[Initialize(c)]
         == multiset(InitCalls(front, components))[Initialize(c)]
            + (if c == cs[|cs| - 1] && Live(components, c) then 1 else 0)
      && (c in cs <==> c in front || c == cs[|cs| - 1])
  {
    var front := cs[..|cs| - 1];
    var last := cs[|cs| - 1];
    var tail := if Live(components, last) then [Initialize(last)] else [];
    assert InitCalls(cs, components) == InitCalls(front, components) + tail;
    assert cs == front + [last];
  }

  /** The `initialize` calls follow the order of the components visited. */
  lemma {:induction false} InitCallsAscending(cs: seq<RobotComponent>, components: Components)
    requires StrictlyAscending(cs)
    ensures forall i, j :: 0 <= i < j < |InitCalls(cs, components)| ==>
      Rank(InitCalls(cs, components)[i].component) < Rank(InitCalls(cs, components)[j].component)
    ensures forall k :: 0 <= k < |InitCalls(cs, components)| ==>
      && InitCalls(cs, components)[k].Initialize?
      && InitCalls(cs, components)[k].component in cs
      && Live(components, InitCalls(cs, components)[k].component)
  {
    if cs != [] {
      var front := cs[..|cs| - 1];
      var last := cs[|cs| - 1];
      assert StrictlyAscending(front);
      InitCallsAscending(front, components);
      forall k | 0 <= k < |InitCalls(front, components)|
        ensures Rank(InitCalls(front, components)[k].component) < Rank(last)
      {
        var i :| 0 <= i < |front| && front[i] == InitCalls(front, components)[k].component;
        assert cs[i] == front[i];
      }
    }
  }

  /** Key order of the service's map. */
  lemma KeyOrderAscending()
    ensures StrictlyAscending(RobotComponents)
  {
  }

  /** A failure is logged exactly for each live component that throws, and
      the components after it are still initialized. */
  lemma {:induction false} FailuresLogged(cs: seq<RobotComponent>, components: Components,
                                          outcome: RobotComponent -> InitOutcome)
    ensures |InitFailures(cs, components, outcome)| <= |InitCalls(cs, components)|
    ensures InitFailures(cs, components, outcome) == [] <==>
      forall c :: c in cs && Live(components, c) ==> outcome(c).Initialized?
  {
    if cs != [] {
      var front := cs[..|cs| - 1];
      var last := cs[|cs| - 1];
      FailuresLogged(front, components, outcome);
      assert forall c :: c in cs <==> c in front || c == last;
    }
  }

  /** With every component live, a start-up in which Contec throws still
      initializes the control panel and the motor control after it. */
  method InitializeAllExample() returns (calls: seq<ComponentCall>, failures: seq<string>)
    ensures calls == [Initialize(Contec), Initialize(ControlPanel), Initialize(MotorControl)]
    ensures failures == [InitFailedLine(Contec, "no device")]
  {
    var components := map[Contec := true, ControlPanel := true, MotorControl := true];
    var service := new MachineComponentService(components);
    var outcome := (c: RobotComponent) => if c == Contec then Threw("no device") else Initialized(Normal);
    failures := service.InitializeAll(outcome);
    calls := service.calls;
    var cs := RobotComponents;
    assert cs[..2] == cs[..|cs| - 1] && cs[..1] == cs[..2][..1];
    assert InitCalls(cs[..1], components) == [Initialize(Contec)];
    assert InitCalls(cs[..2], components) == [Initialize(Contec), Initialize(ControlPanel)];
    assert InitFailures(cs[..1], components, outcome) == [InitFailedLine(Contec, "no device")];
    assert InitFailures(cs[..2], components, outcome) == [InitFailedLine(Contec, "no device")];
  }
}
