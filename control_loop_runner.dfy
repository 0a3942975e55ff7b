/*
 * The fixed-rate machine loop: each cycle waits for its tick, runs the control
 * step and the command step, runs the status update step when it is due, and
 * moves the loop, update and duty-log deadlines past the present.
 *
 * Time points and durations are steady-clock counts in nanoseconds. The
 * clock is an object whose `now` the runner reads and whose `SleepUntil` it
 * calls; the three steps are callbacks whose only effect the runner can see is
 * the time they take, given here as the amount each one advances the clock.
 */
module ControlLoop {

  const Millisecond := 1_000_000
  const Second := 1_000_000_000

  /** `ControlLoopRunner::State`, without the floating-point duty-cycle sum. */
  datatype State = State(
    nextLoopAt: int,
    nextUpdateAt: int,
    nextDutyLogAt: int,
    dutyCycleSamples: nat,
    initialized: bool)

  /** A default-constructed state: all time points at the epoch, not initialized. */
  const DefaultState := State(0, 0, 0, 0, false)

  /** The callbacks a cycle invokes, in the order it invokes them. */
  datatype Step = Control | Command | Update

  /** A clock that sleeps by moving its time forward to the target. */
  class Clock {
    var now: int

    constructor (start: int)
      ensures now == start
    {
      now := start;
    }

    method SleepUntil(target: int)
      modifies this
      ensures now == if old(now) < target then target else old(now)
    {
      if now < target {
        now := target;
      }
    }

    method AdvanceBy(delta: nat)
      modifies this
      ensures now == old(now) + delta
    {
      now := now + delta;
    }
  }

  // ---------------------------------------------------------------------
  // Specification
  // ---------------------------------------------------------------------

  /** The first `t + k * interval` with `k >= 1` that lies after `now`. */
  function NextAfter(t: int, interval: int, now: int): int
    requires interval > 0
    decreases now - t
  {
    if t + interval > now then t + interval else NextAfter(t + interval, interval, now)
  }

  /** How many intervals `NextAfter` adds: the number of passes of the do-while loop. */
  function Passes(t: int, interval: int, now: int): nat
    requires interval > 0
    decreases now - t
  {
    if t + interval > now then 1 else 1 + Passes(t + interval, interval, now)
  }

  /** The state a runner starts from at time `now`. */
  function InitialState(now: int): State
  {
    State(now, now, now + Second, 0, true)
  }

  /** The state a cycle works on: an uninitialized state is replaced first. */
  function Prepared(state: State, clockNow: int): State
  {
    if state.initialized then state else InitialState(clockNow)
  }

  /** When the steps of a cycle start: after the sleep up to the tick, if any. */
  function LoopStart(state: State, clockNow: int): int
  {
    var s := Prepared(state, clockNow);
    if clockNow < s.nextLoopAt then s.nextLoopAt else clockNow
  }

  /** The clock reading after the control and command steps. */
  function WorkEnd(state: State, clockNow: int, controlWork: nat, commandWork: nat): int
  {
    LoopStart(state, clockNow) + controlWork + commandWork
  }

  /** What one cycle leaves behind: the new state, the steps it invoked and the clock. */
  datatype Outcome = Outcome(state: State, steps: seq<Step>, clockAfter: int)

  /** One cycle of the runner, as a function of the clock and the work each step takes. */
  function Cycle(loopInterval: int, updateInterval: int, state: State, clockNow: int,
                 controlWork: nat, commandWork: nat, updateWork: nat): Outcome
    requires loopInterval > 0 && updateInterval > 0
  {
    var s := Prepared(state, clockNow);
    var now := WorkEnd(state, clockNow, controlWork, commandWork);
    var update := now >= s.nextUpdateAt;
    var logDue := now >= s.nextDutyLogAt;
    Outcome(
      State(
        NextAfter(s.nextLoopAt, loopInterval, now),
        if update then NextAfter(s.nextUpdateAt, updateInterval, now) else s.nextUpdateAt,
        if logDue then NextAfter(s.nextDutyLogAt, Second, now) else s.nextDutyLogAt,
        if logDue then 0 else s.dutyCycleSamples + 1,
        true),
      if update then [Control, Command, Update] else [Control, Command],
      if update then now + updateWork else now)
  }

  // ---------------------------------------------------------------------
  // The runner
  // ---------------------------------------------------------------------

  class ControlLoopRunner {
    const clock: Clock
    const loopInterval: int
    const updateInterval: int

    constructor (clock: Clock, loopInterval: int, updateInterval: int)
      ensures this.clock == clock
      ensures this.loopInterval == loopInterval && this.updateInterval == updateInterval
    {
      this.clock := clock;
      this.loopInterval := loopInterval;
      this.updateInterval := updateInterval;
    }

    /** A fresh schedule: loop and update due now, the duty log one second on. */
    method MakeInitialState() returns (state: State)
      ensures state.nextLoopAt == clock.now && state.nextUpdateAt == clock.now
      ensures state.nextDutyLogAt == clock.now + Second
      ensures state.initialized && state.dutyCycleSamples == 0
    {
      var now := clock.now;
      state := DefaultState;
      state := state.(nextLoopAt := now, nextUpdateAt := now, nextDutyLogAt := now + Second);
      state := state.(initialized := true);
    }

    /** Runs one cycle and returns the updated state and the callbacks invoked. */
    method RunOneCycle(controlWork: nat, commandWork: nat, updateWork: nat, state: State)
      returns (next: State, steps: seq<Step>)
      requires loopInterval > 0 && updateInterval > 0
      modifies clock
      ensures Cycle(loopInterval, updateInterval, state, old(clock.now), controlWork, commandWork, updateWork)
        == Outcome(next, steps, clock.now)
    {
      next := state;
      if !next.initialized {
        next := MakeInitialState();
      }

      var nowBefore := clock.now;
      if nowBefore < next.nextLoopAt {
        clock.SleepUntil(next.nextLoopAt);
      }

      clock.AdvanceBy(controlWork);
      steps := [Control];
      clock.AdvanceBy(commandWork);
      steps := steps + [Command];

      var now := clock.now;
      if now >= next.nextUpdateAt {
        clock.AdvanceBy(updateWork);
        steps := steps + [Update];
        var t := AdvancePast(next.nextUpdateAt, updateInterval, now);
        next := next.(nextUpdateAt := t);
      }

      next := next.(dutyCycleSamples := next.dutyCycleSamples + 1);
      if now >= next.nextDutyLogAt && next.dutyCycleSamples > 0 {
        var t := AdvancePast(next.nextDutyLogAt, Second, now);
        next := next.(dutyCycleSamples := 0, nextDutyLogAt := t);
      }

      var loopAt := next.nextLoopAt + loopInterval;
      if loopAt <= now {
        loopAt := AdvancePast(loopAt, loopInterval, now);
      }
      next := next.(nextLoopAt := loopAt);
    }
  }

  /** `do { t += interval; } while (t <= now);` */
  method AdvancePast(t: int, interval: int, now: int) returns (r: int)
    requires interval > 0
    ensures r == NextAfter(t, interval, now)
  {
    r := t + interval;
    while r <= now
      invariant r > t && NextAfter(t, interval, now) == NextAfter(r - interval, interval, now)
      decreases now - r
    {
      r := r + interval;
    }
  }

  // ---------------------------------------------------------------------
  // Properties
  // ---------------------------------------------------------------------

  /** The advanced deadline lies after both `now` and the old deadline, a positive
      whole number of intervals on, and is the first such point after `now`. */
  lemma {:induction false} NextAfterSpec(t: int, interval: int, now: int)
    requires interval > 0
    ensures NextAfter(t, interval, now) > now && NextAfter(t, interval, now) > t
    ensures NextAfter(t, interval, now) == t + Passes(t, interval, now) * interval
    ensures NextAfter(t, interval, now) - interval <= now || Passes(t, interval, now) == 1
    decreases now - t
  {
    if t + interval <= now {
      NextAfterSpec(t + interval, interval, now);
      var p := Passes(t + interval, interval, now);
      assert t + (1 + p) * interval == (t + interval) + p * interval;
    }
  }

  /** Every cycle calls the control step, then the command step, then the update step
      exactly when the update is due; the update deadline then moves past the present
      by whole update intervals, and otherwise stays. */
  lemma CycleSteps(loopInterval: int, updateInterval: int, state: State, clockNow: int,
                   controlWork: nat, commandWork: nat, updateWork: nat)
    requires loopInterval > 0 && updateInterval > 0
    ensures var c := Cycle(loopInterval, updateInterval, state, clockNow, controlWork, commandWork, updateWork);
      var s := Prepared(state, clockNow);
      var now := WorkEnd(state, clockNow, controlWork, commandWork);
      && c.steps[..2] == [Control, Command]
      && multiset(c.steps)[Control] == 1 && multiset(c.steps)[Command] == 1 && multiset(c.steps)[Update] <= 1
      && (Update in c.steps <==> now >= s.nextUpdateAt)
      && (now >= s.nextUpdateAt ==>
            c.state.nextUpdateAt > now &&
            c.state.nextUpdateAt == s.nextUpdateAt + Passes(s.nextUpdateAt, updateInterval, now) * updateInterval)
      && (now < s.nextUpdateAt ==> c.state.nextUpdateAt == s.nextUpdateAt)
  {
    var s := Prepared(state, clockNow);
    var now := WorkEnd(state, clockNow, controlWork, commandWork);
    NextAfterSpec(s.nextUpdateAt, updateInterval, now);
  }

  /** After every cycle the next tick lies after the end of the work, a whole number of
      loop intervals after the previous tick, and no later than the first such point. */
  lemma CycleReschedulesTick(loopInterval: int, updateInterval: int, state: State, clockNow: int,
                             controlWork: nat, commandWork: nat, updateWork: nat)
    requires loopInterval > 0 && updateInterval > 0
    ensures var c := Cycle(loopInterval, updateInterval, state, clockNow, controlWork, commandWork, updateWork);
      var s := Prepared(state, clockNow);
      var now := WorkEnd(state, clockNow, controlWork, commandWork);
      && c.state.initialized
      && c.state.nextLoopAt > now
      && c.state.nextLoopAt == s.nextLoopAt + Passes(s.nextLoopAt, loopInterval, now) * loopInterval
      && (c.state.nextLoopAt - loopInterval <= now || c.state.nextLoopAt == s.nextLoopAt + loopInterval)
  {
    var s := Prepared(state, clockNow);
    var now := WorkEnd(state, clockNow, controlWork, commandWork);
    NextAfterSpec(s.nextLoopAt, loopInterval, now);
  }

  /** The steps of a cycle start at the tick when the clock is early, and at once otherwise. */
  lemma SleepsOnlyWhenEarly(state: State, clockNow: int)
    ensures var s := Prepared(state, clockNow);
      LoopStart(state, clockNow) >= clockNow && LoopStart(state, clockNow) >= s.nextLoopAt
      && (clockNow >= s.nextLoopAt ==> LoopStart(state, clockNow) == clockNow)
  {
  }

  /** An uninitialized state is first replaced by the initial state for the present time. */
  lemma UninitializedStartsFresh(loopInterval: int, updateInterval: int, state: State, clockNow: int,
                                 controlWork: nat, commandWork: nat, updateWork: nat)
    requires loopInterval > 0 && updateInterval > 0
    requires !state.initialized
    ensures Cycle(loopInterval, updateInterval, state, clockNow, controlWork, commandWork, updateWork)
      == Cycle(loopInterval, updateInterval, InitialState(clockNow), clockNow, controlWork, commandWork, updateWork)
  {
  }

  // ---------------------------------------------------------------------
  // Runs of several cycles
  // ---------------------------------------------------------------------

  /** `n` cycles whose steps take the given times, with the steps of all of them. */
  function Run(loopInterval: int, updateInterval: int, state: State, clockNow: int,
               controlWork: nat, commandWork: nat, n: nat): Outcome
    requires loopInterval > 0 && updateInterval > 0
    decreases n
  {
    if n == 0 then Outcome(state, [], clockNow)
    else
      var c := Cycle(loopInterval, updateInterval, state, clockNow, controlWork, commandWork, 0);
      var rest := Run(loopInterval, updateInterval, c.state, c.clockAfter, controlWork, commandWork, n - 1);
      Outcome(rest.state, c.steps + rest.steps, rest.clockAfter)
  }

  const Tick := 10 * Millisecond
  const UpdatePeriod := 50 * Millisecond

  /** A cycle whose steps take no time, entered at or before its tick, with the update
      after next still ahead: it runs the steps at the tick, moves the tick on by one
      interval, and runs the update step, moving it on by one period, when it is due. */
  lemma QuietCycle(s: State, clockNow: int)
    requires s.initialized && clockNow <= s.nextLoopAt && s.nextLoopAt < s.nextUpdateAt + UpdatePeriod
    ensures var c := Cycle(Tick, UpdatePeriod, s, clockNow, 0, 0, 0);
      && c.state.initialized && c.clockAfter == s.nextLoopAt
      && c.state.nextLoopAt == s.nextLoopAt + Tick
      && c.state.nextUpdateAt == (if s.nextLoopAt >= s.nextUpdateAt then s.nextUpdateAt + UpdatePeriod else s.nextUpdateAt)
      && c.steps == (if s.nextLoopAt >= s.nextUpdateAt then [Control, Command, Update] else [Control, Command])
  {
  }

  /** The steps of `n` quiet cycles whose first tick lies `gap` before the next update: a
      cycle at or after the update time runs the update step and moves the update time on
      by one period; every cycle moves the tick on by one interval. */
  function QuietSteps(gap: int, n: nat): (steps: seq<Step>)
    decreases n
  {
    if n == 0 then []
    else if gap <= 0 then [Control, Command, Update] + QuietSteps(gap - Tick + UpdatePeriod, n - 1)
    else [Control, Command] + QuietSteps(gap - Tick, n - 1)
  }

  /** How many of `n` quiet cycles run the update step, counted the same way. */
  function Updates(gap: int, n: nat): (k: nat)
    ensures k <= n
    decreases n
  {
    if n == 0 then 0
    else if gap <= 0 then 1 + Updates(gap - Tick + UpdatePeriod, n - 1)
    else Updates(gap - Tick, n - 1)
  }

  /** `n` cycles whose steps take no time, entered on time, run the quiet steps, whatever
      the duty-log deadline. */
  lemma {:induction false} RunIsQuiet(s: State, clockNow: int, n: nat)
    requires s.initialized && clockNow <= s.nextLoopAt && s.nextLoopAt < s.nextUpdateAt + UpdatePeriod
    ensures Run(Tick, UpdatePeriod, s, clockNow, 0, 0, n).steps == QuietSteps(s.nextUpdateAt - s.nextLoopAt, n)
    decreases n
  {
    if n > 0 {
      QuietCycle(s, clockNow);
      var c := Cycle(Tick, UpdatePeriod, s, clockNow, 0, 0, 0);
      RunIsQuiet(c.state, c.clockAfter, n - 1);
    }
  }

  /** How often `x` occurs in `steps`. */
  function Occurrences(steps: seq<Step>, x: Step): (k: nat)
    ensures k <= |steps|
  {
    if steps == [] then 0 else (if steps[0] == x then 1 else 0) + Occurrences(steps[1..], x)
  }

  lemma {:induction false} OccurrencesAppend(a: seq<Step>, b: seq<Step>, x: Step)
    ensures Occurrences(a + b, x) == Occurrences(a, x) + Occurrences(b, x)
  {
    if a != [] {
      assert (a + b)[1..] == a[1..] + b;
      OccurrencesAppend(a[1..], b, x);
    } else {
      assert a + b == b;
    }
  }

  /** The steps of one cycle, with and without the update. */
  lemma CycleStepOccurrences()
    ensures Occurrences([Control, Command], Control) == 1 && Occurrences([Control, Command], Command) == 1
    ensures Occurrences([Control, Command], Update) == 0
    ensures Occurrences([Control, Command, Update], Control) == 1
    ensures Occurrences([Control, Command, Update], Command) == 1
    ensures Occurrences([Control, Command, Update], Update) == 1
  {
    assert [Control, Command, Update][1..] == [Command, Update];
    assert [Control, Command][1..] == [Command] && [Command, Update][1..] == [Update];
    assert [Command][1..] == [] && [Update][1..] == [];
  }

  /** In `n` quiet cycles the control and command steps run `n` times each and the update
      step as often as `Updates` counts. */
  lemma {:induction false} QuietStepsCount(gap: int, n: nat)
    ensures Occurrences(QuietSteps(gap, n), Control) == n
    ensures Occurrences(QuietSteps(gap, n), Command) == n
    ensures Occurrences(QuietSteps(gap, n), Update) == Updates(gap, n)
    decreases n
  {
    if n > 0 {
      var due := gap <= 0;
      var head: seq<Step> := if due then [Control, Command, Update] else [Control, Command];
      var next := if due then gap - Tick + UpdatePeriod else gap - Tick;
      assert QuietSteps(gap, n) == head + QuietSteps(next, n - 1);
      QuietStepsCount(next, n - 1);
      OccurrencesAppend(head, QuietSteps(next, n - 1), Control);
      OccurrencesAppend(head, QuietSteps(next, n - 1), Command);
      OccurrencesAppend(head, QuietSteps(next, n - 1), Update);
      CycleStepOccurrences();
    } else {
      assert QuietSteps(gap, n) == [];
    }
  }

  /** The fixed-rate scenario: 10 ms ticks, 50 ms updates and steps that take no time,
      started at any time `t0`. Twelve cycles call the control and command steps twelve
      times and the update step three times (at 0, 50 and 100 ms after the start). */
  lemma ThrottledUpdates(t0: int)
    ensures var r := Run(Tick, UpdatePeriod, InitialState(t0), t0, 0, 0, 12);
      Occurrences(r.steps, Control) == 12 && Occurrences(r.steps, Command) == 12 && Occurrences(r.steps, Update) == 3
  {
    RunIsQuiet(InitialState(t0), t0, 12);
    assert InitialState(t0).nextUpdateAt - InitialState(t0).nextLoopAt == 0;
    QuietStepsCount(0, 12);
    assert Updates(0, 12) == 3;
  }

  /** The overrun scenario: a control step of 25 ms at a 10 ms tick moves the next tick
      to 30 ms, and after a second such cycle to 60 ms. */
  lemma OverrunResynchronizes()
    ensures var c1 := Cycle(Tick, UpdatePeriod, InitialState(0), 0, 25 * Millisecond, 0, 0);
      && c1.state.nextLoopAt == 30 * Millisecond
      && Cycle(Tick, UpdatePeriod, c1.state, c1.clockAfter, 25 * Millisecond, 0, 0).state.nextLoopAt
           == 60 * Millisecond
  {
    assert NextAfter(0, Tick, 25 * Millisecond) == 30 * Millisecond by {
      assert NextAfter(20 * Millisecond, Tick, 25 * Millisecond) == 30 * Millisecond;
      assert NextAfter(10 * Millisecond, Tick, 25 * Millisecond) == 30 * Millisecond;
    }
    assert NextAfter(30 * Millisecond, Tick, 55 * Millisecond) == 60 * Millisecond by {
      assert NextAfter(50 * Millisecond, Tick, 55 * Millisecond) == 60 * Millisecond;
      assert NextAfter(40 * Millisecond, Tick, 55 * Millisecond) == 60 * Millisecond;
    }
  }
}
