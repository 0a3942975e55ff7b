/*
 * The command queue between the command server and the machine loop: a FIFO
 * of commands with a shutdown flag. Once shut down it refuses new commands
 * but keeps, and still hands out, the ones already queued.
 *
 * The mutex and the condition variable only serialise these operations; the
 * model gives each operation the effect it has while holding the lock.
 */
module CommandInterface {
  import opened Wrappers
  import opened Common

  /** The operations a command can request of the machine. */
  datatype Payload =
    | ToolChangerCommand(arm: Arm, action: ToolChangerAction)
    | ReconnectCommand(robotComponent: RobotComponent)
    | MotorDiagnosticsCommand(motor: MotorId)
    | ResetMotorAlarmCommand(motor: MotorId)
    | SetMotorEnabledCommand(motor: MotorId, enabled: bool)
    | SetAllMotorsEnabledCommand(enabled: bool)
    | ContecDiagnosticsCommand

  /** A queued command. `replyTo` stands for the promise through which the
      one who submitted it waits for the reply text. */
  datatype Command = Command(payload: Payload, replyTo: nat)

  class CommandQueue {
    var queue: seq<Command>
    var isShutdown: bool

    constructor ()
      ensures queue == [] && !isShutdown
    {
      queue := [];
      isShutdown := false;
    }

    /** `push`: appends at the back unless the queue is shut down. */
    method Push(c: Command) returns (accepted: bool)
      modifies this
      ensures accepted <==> !old(isShutdown)
      ensures queue == (if accepted then old(queue) + [c] else old(queue))
      ensures isShutdown == old(isShutdown)
    {
      if isShutdown {
        return false;
      }
      queue := queue + [c];
      return true;
    }

    /** `try_pop`: removes and returns the front command, or none when empty. */
    method TryPop() returns (r: Option<Command>)
      modifies this
      ensures r.None? <==> old(queue) == []
      ensures r.Some? ==> r.value == old(queue)[0] && queue == old(queue)[1..]
      ensures r.None? ==> queue == old(queue)
      ensures isShutdown == old(isShutdown)
    {
      if queue == [] {
        return None;
      }
      r := Some(queue[0]);
      queue := queue[1..];
    }

    /** `pop_wait_for`: the commands that producers push while the consumer
        waits (`arrivals`, in push order) join the queue, refused as any push
        is once the queue is shut down; when the wait ends the front command
        is taken, or none if the queue is still empty. */
    method PopWaitFor(arrivals: seq<Command>) returns (r: Option<Command>)
      modifies this
      ensures var waited := if old(isShutdown) then old(queue) else old(queue) + arrivals;
        && (r.None? <==> waited == [])
        && (r.Some? ==> r.value == waited[0] && queue == waited[1..])
        && (r.None? ==> queue == [])
      ensures isShutdown == old(isShutdown)
    {
      for k := 0 to |arrivals|
        invariant isShutdown == old(isShutdown)
        invariant queue == if isShutdown then old(queue) else old(queue) + arrivals[..k]
      {
        var _ := Push(arrivals[k]);
        assert arrivals[..k + 1] == arrivals[..k] + [arrivals[k]];
      }
      assert arrivals[..|arrivals|] == arrivals;
      r := TryPop();
    }

    /** `shutdown`: raises the flag and keeps every queued command. */
    method Shutdown()
      modifies this
      ensures isShutdown
      ensures queue == old(queue)
    {
      isShutdown := true;
    }

    /** Pops until the queue is empty, returning what it popped in order; this
        is how the machine answers the commands left behind at shutdown. */
    method Drain() returns (drained: seq<Command>)
      modifies this
      ensures drained == old(queue)
      ensures queue == []
      ensures isShutdown == old(isShutdown)
    {
      drained := [];
      while true
        invariant drained + queue == old(queue)
        invariant isShutdown == old(isShutdown)
        decreases |queue|
      {
        var next := TryPop();
        if next.None? {
          assert drained + [] == drained;
          return;
        }
        drained := drained + [next.value];
      }
    }
  }

  /** Commands pushed before a shutdown are still handed out in order after
      it, while a push after it is refused. */
  method ShutdownKeepsQueuedCommands(a: Command, b: Command, late: Command)
    returns (lateAccepted: bool, first: Option<Command>, second: Option<Command>, third: Option<Command>)
    ensures !lateAccepted
    ensures first == Some(a) && second == Some(b) && third == None
  {
    var q := new CommandQueue();
    var okA := q.Push(a);
    var okB := q.Push(b);
    q.Shutdown();
    lateAccepted := q.Push(late);
    first := q.TryPop();
    second := q.TryPop();
    third := q.TryPop();
  }

  /** A fresh queue holding `cmds`, pushed in order. */
  method Filled(cmds: seq<Command>) returns (q: CommandQueue)
    ensures fresh(q)
    ensures q.queue == cmds && !q.isShutdown
  {
    q := new CommandQueue();
    for k := 0 to |cmds|
      invariant q.queue == cmds[..k] && !q.isShutdown
    {
      var _ := q.Push(cmds[k]);
      assert cmds[..k + 1] == cmds[..k] + [cmds[k]];
    }
    assert cmds[..|cmds|] == cmds;
  }

  /** Shutting a queue down twice leaves it as shutting it down once does,
      whatever it holds: shut down, refusing a later command, and handing
      out every queued command in order. */
  method ShutdownIsIdempotent(cmds: seq<Command>, late: Command)
    returns (once: seq<Command>, twice: seq<Command>, lateOnce: bool, lateTwice: bool)
    ensures once == twice == cmds
    ensures !lateOnce && !lateTwice
  {
    var q1 := Filled(cmds);
    q1.Shutdown();
    lateOnce := q1.Push(late);
    once := q1.Drain();
    var q2 := Filled(cmds);
    q2.Shutdown();
    q2.Shutdown();
    lateTwice := q2.Push(late);
    twice := q2.Drain();
  }
}
