/*
 * The GUI's state store: it keeps the latest robot status and whether the
 * server is connected, and emits a signal whenever either changes. The
 * signals emitted are recorded, in order, in `emitted`.
 */
module StateStore {
  import opened Wrappers
  import opened Common

  /** A signal of the store. */
  datatype Signal = StatusUpdated(status: RobotStatus) | ConnectionChanged(connected: bool)

  /** The signals `onStatusReceived` emits when the store was or was not
      connected before. */
  function StatusSignals(wasConnected: bool, status: RobotStatus): (r: seq<Signal>)
    ensures |r| >= 1 && r[|r| - 1] == StatusUpdated(status)
    ensures ConnectionChanged(true) in r <==> !wasConnected
    ensures ConnectionChanged(false) !in r
  {
    (if wasConnected then [] else [ConnectionChanged(true)]) + [StatusUpdated(status)]
  }

  class GuiStateStore {
    var latestStatus: Option<RobotStatus>
    var connected: bool
    var emitted: seq<Signal>

    /** A new store is disconnected and has no status. */
    constructor ()
      ensures latestStatus.None? && !connected && emitted == []
    {
      latestStatus := None;
      connected := false;
      emitted := [];
    }

    /** `onStatusReceived`: connected, with the new status; a connection
        change is signalled only when the store was disconnected, then the
        status always is. */
    method OnStatusReceived(status: RobotStatus)
      modifies this
      ensures connected && latestStatus == Some(status)
      ensures emitted == old(emitted) + StatusSignals(old(connected), status)
    {
      var wasConnected := connected;
      connected := true;
      latestStatus := Some(status);
      if !wasConnected {
        emitted := emitted + [ConnectionChanged(true)];
      }
      emitted := emitted + [StatusUpdated(status)];
    }

    /** `onServerDisconnected`: nothing happens while disconnected;
        otherwise the store disconnects, signals it once, and keeps the
        latest status. */
    method OnServerDisconnected()
      modifies this
      ensures !connected && latestStatus == old(latestStatus)
      ensures emitted == old(emitted) + (if old(connected) then [ConnectionChanged(false)] else [])
    {
      if !connected {
        return;
      }
      connected := false;
      emitted := emitted + [ConnectionChanged(false)];
    }
  }

  /** The number of connection-change signals in `signals` that say
      `connected`. */
  function Changes(signals: seq<Signal>, connected: bool): (n: nat)
    ensures n <= |signals|
  {
    if signals == [] then 0
    else Changes(signals[..|signals| - 1], connected)
         + (if signals[|signals| - 1] == ConnectionChanged(connected) then 1 else 0)
  }

  lemma {:induction false} ChangesAppend(a: seq<Signal>, b: seq<Signal>, connected: bool)
    ensures Changes(a + b, connected) == Changes(a, connected) + Changes(b, connected)
    decreases |b|
  {
    if b == [] {
      assert a + b == a;
    } else {
      var front := b[..|b| - 1];
      assert (a + b)[..|a + b| - 1] == a + front;
      ChangesAppend(a, front, connected);
    }
  }

  /** `onStatusReceived` adds a "connected" signal exactly when the store
      was disconnected, and never a "disconnected" one. */
  lemma StatusSignalsCount(before: seq<Signal>, wasConnected: bool, status: RobotStatus)
    ensures Changes(before + StatusSignals(wasConnected, status), true)
      == Changes(before, true) + (if wasConnected then 0 else 1)
    ensures Changes(before + StatusSignals(wasConnected, status), false) == Changes(before, false)
  {
    var added := StatusSignals(wasConnected, status);
    ChangesAppend(before, added, true);
    ChangesAppend(before, added, false);
    if wasConnected {
      assert added[..0] == [];
    } else {
      assert added[..1] == [ConnectionChanged(true)] && added[..1][..0] == [];
    }
  }

  /** `onServerDisconnected` adds a "disconnected" signal exactly when the
      store was connected, and never a "connected" one. */
  lemma DisconnectCount(before: seq<Signal>, wasConnected: bool)
    ensures var after := before + (if wasConnected then [ConnectionChanged(false)] else []);
      && Changes(after, true) == Changes(before, true)
      && Changes(after, false) == Changes(before, false) + (if wasConnected then 1 else 0)
  {
    var added: seq<Signal> := if wasConnected then [ConnectionChanged(false)] else [];
    ChangesAppend(before, added, true);
    ChangesAppend(before, added, false);
    if wasConnected {
      assert added[..0] == [];
    }
  }

  /** Two status updates in a row signal one connection and two statuses;
      a disconnect after them signals the disconnection once, and a second
      disconnect adds nothing. */
  method ConnectUpdateDisconnect(s1: RobotStatus, s2: RobotStatus) returns (signals: seq<Signal>, latest: Option<RobotStatus>)
    ensures signals == [ConnectionChanged(true), StatusUpdated(s1), StatusUpdated(s2), ConnectionChanged(false)]
    ensures latest == Some(s2)
  {
    var store := new GuiStateStore();
    store.OnStatusReceived(s1);
    store.OnStatusReceived(s2);
    store.OnServerDisconnected();
    store.OnServerDisconnected();
    signals := store.emitted;
    latest := store.latestStatus;
  }

  /** Over any run of the store, the connection-change signals alternate:
      the count of "connected" signals is the count of "disconnected" ones,
      plus one exactly while the store is connected. */
  method SignalsAlternate(events: seq<Option<RobotStatus>>) returns (connected: bool, signals: seq<Signal>)
    ensures Changes(signals, true) == Changes(signals, false) + (if connected then 1 else 0)
  {
    var store := new GuiStateStore();
    for k := 0 to |events|
      invariant Changes(store.emitted, true) == Changes(store.emitted, false) + (if store.connected then 1 else 0)
    {
      var before := store.emitted;
      var wasConnected := store.connected;
      match events[k]
      case Some(status) =>
        store.OnStatusReceived(status);
        StatusSignalsCount(before, wasConnected, status);
      case None =>
        store.OnServerDisconnected();
        DisconnectCount(before, wasConnected);
    }
    connected := store.connected;
    signals := store.emitted;
  }
}
