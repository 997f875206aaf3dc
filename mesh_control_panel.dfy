/** The user app's mesh panel (Miyah-user/src/components/MeshControlPanel.tsx):
    an on/off switch that starts the shared mesh service and subscribes to
    it, a peer list refreshed on every packet and on a timer, and an
    activity log of the ten newest entries. */
module MeshControlPanel {
  import opened Common
  import opened Mesh
  import opened MeshNetwork

  /** The most entries the activity log keeps. */
  const LOG_CAPACITY: nat := 10

  function Min(a: int, b: int): int {
    if a <= b then a else b
  }

  /** `addLog`'s updater: `[entry, ...prev].slice(0, 10)`. The new entry
      comes first, the older ones keep their order, and once there are ten
      the oldest is dropped. */
  function AddLog(logs: seq<string>, entry: string): (r: seq<string>)
    ensures |r| == Min(|logs| + 1, LOG_CAPACITY)
    ensures r[0] == entry
    ensures r[1..] == logs[..|r| - 1]
    ensures |logs| >= LOG_CAPACITY ==> r == [entry] + logs[..LOG_CAPACITY - 1]
  {
    var all := [entry] + logs;
    var r := all[..Min(|all|, LOG_CAPACITY)];
    assert r[1..] == logs[..|r| - 1];
    r
  }

  /** The log entry for a message; `timeText` stands for
      `new Date().toLocaleTimeString()`. */
  function LogEntry(timeText: string, msg: string): string {
    timeText + ": " + msg
  }

  /** Several `addLog` calls in a row, oldest call first. */
  function AddLogs(logs: seq<string>, entries: seq<string>): seq<string>
    decreases |entries|
  {
    if entries == [] then logs
    else AddLogs(AddLog(logs, entries[0]), entries[1..])
  }

  function Reverse(s: seq<string>): (r: seq<string>)
    ensures |r| == |s|
    ensures forall i :: 0 <= i < |s| ==> r[i] == s[|s| - 1 - i]
    decreases |s|
  {
    if s == [] then [] else Reverse(s[1..]) + [s[0]]
  }

  /** Starting from a log `addLog` could have produced (at most ten
      entries), after any run of `addLog` calls the log is the ten newest
      entries, newest first: the new entries in reverse order of logging,
      followed by the older log. */
  lemma {:induction false} AddLogsKeepsNewestTen(logs: seq<string>, entries: seq<string>)
    requires |logs| <= LOG_CAPACITY
    ensures AddLogs(logs, entries) == (Reverse(entries) + logs)[..Min(|entries| + |logs|, LOG_CAPACITY)]
    decreases |entries|
  {
    if entries != [] {
      var once := AddLog(logs, entries[0]);
      AddLogsKeepsNewestTen(once, entries[1..]);
      var n := Min(|entries| + |logs|, LOG_CAPACITY);
      var m := Min(|entries| - 1 + |once|, LOG_CAPACITY);
      assert m == n;
      var lhs := (Reverse(entries[1..]) + once)[..m];
      var rhs := (Reverse(entries) + logs)[..n];
      assert Reverse(entries) == Reverse(entries[1..]) + [entries[0]];
      assert |lhs| == n == |rhs|;
      forall i | 0 <= i < n ensures lhs[i] == rhs[i] {
        if i < |entries| - 1 {
          assert lhs[i] == Reverse(entries[1..])[i] == rhs[i];
        } else if i == |entries| - 1 {
          assert lhs[i] == once[0] == entries[0] == rhs[i];
        } else {
          assert lhs[i] == once[i - |entries| + 1] == logs[i - |entries|] == rhs[i];
        }
      }
      assert AddLogs(logs, entries) == AddLogs(once, entries[1..]) == lhs;
      assert lhs == rhs;
    }
  }

  class MeshControlPanel {
    /** The shared `meshService` instance. */
    const service: MeshNetworkService
    /** The callback the panel subscribes with. */
    const handler: HandlerId
    var isEnabled: bool
    var peers: seq<Peer>
    var logs: seq<string>
    /** The `unsubscribe` function the running effect holds. */
    var subscription: Option<Unsubscribe>
    /** Whether the two-second peer refresh interval is set. */
    var intervalRunning: bool

    /** While enabled the service is started, the panel's callback is
        registered exactly once and the refresh interval runs; while
        disabled none of the three is held by the panel. */
    ghost predicate Valid()
      reads this, service
    {
      && service.Valid()
      && |logs| <= LOG_CAPACITY
      && (isEnabled ==>
            && subscription == Some(Unsubscribe(handler))
            && intervalRunning
            && service.open
            && Count(service.callbacks, handler) == 1)
      && (!isEnabled ==> subscription.None? && !intervalRunning && handler !in service.callbacks)
    }

    constructor (service: MeshNetworkService, handler: HandlerId)
      requires service.Valid() && handler !in service.callbacks
      ensures Valid()
      ensures this.service == service && this.handler == handler
      ensures !isEnabled && peers == [] && logs == []
    {
      this.service := service;
      this.handler := handler;
      isEnabled := false;
      peers := [];
      logs := [];
      subscription := None;
      intervalRunning := false;
    }

    /** The switch. Turning on runs the effect: the service starts (an
        announcement when it was closed), the callback is registered, the
        interval is set and "Mesh Network Started" is logged. Turning off
        runs its cleanup: the callback is detached, the interval cleared,
        the service stopped and "Mesh Network Stopped" logged. `now` and
        `messageId` feed the announcement. */
    method Toggle(timeText: string, now: int, messageId: string)
      requires Valid()
      modifies this, service
      ensures Valid()
      ensures isEnabled == !old(isEnabled)
      ensures isEnabled ==>
        && logs == AddLog(old(logs), LogEntry(timeText, "Mesh Network Started"))
        && service.callbacks == old(service.callbacks) + [handler]
        && (!old(service.open) ==>
              service.posted == old(service.posted) + [Packet(NeighborhoodUpdate, NullPayload, now, service.deviceId, messageId)])
        && (old(service.open) ==> service.posted == old(service.posted))
      ensures !isEnabled ==>
        && logs == AddLog(old(logs), LogEntry(timeText, "Mesh Network Stopped"))
        && !service.open
        && service.callbacks == WithoutHandler(old(service.callbacks), handler)
        && service.posted == old(service.posted)
      ensures service.peers == old(service.peers) && peers == old(peers)
      ensures service.messageHistory ==
        old(service.messageHistory) + (if isEnabled && !old(service.open) then {messageId} else {})
    {
      if !isEnabled {
        service.Start(now, messageId);
        CountAppend(service.callbacks, handler, handler);
        var detach := service.OnMessage(handler);
        intervalRunning := true;
        logs := AddLog(logs, LogEntry(timeText, "Mesh Network Started"));
        isEnabled := true;
        subscription := Some(detach);
      } else {
        service.Detach(subscription.value);
        intervalRunning := false;
        service.Stop();
        logs := AddLog(logs, LogEntry(timeText, "Mesh Network Stopped"));
        isEnabled := false;
        subscription := None;
      }
    }

    /** A packet reaching the service's channel. When the service passes it
        to the panel's callback, the callback logs
        "RX: [<type>] from <sender>" and the peer list is refreshed from
        `getPeers`; otherwise the panel is unchanged. */
    method ReceivePacket(packet: Packet, now: int, timeText: string) returns (invoked: seq<HandlerId>)
      requires Valid()
      modifies this, service
      ensures Valid()
      ensures !old(service.open) ==> invoked == [] && unchanged(service)
      ensures old(service.open) ==> service.Handled(packet, now, invoked)
      ensures handler in invoked <==>
        old(isEnabled) && packet.senderId != service.deviceId && packet.messageId !in old(service.messageHistory)
      ensures handler in invoked ==>
        && logs == AddLog(old(logs), LogEntry(timeText, "RX: [" + TypeName(packet.ptype) + "] from " + packet.senderId))
        && peers == service.peers
      ensures handler !in invoked ==> logs == old(logs) && peers == old(peers)
      ensures isEnabled == old(isEnabled) && subscription == old(subscription)
      ensures intervalRunning == old(intervalRunning)
    {
      invoked := service.Deliver(packet, now);
      if handler in invoked {
        logs := AddLog(logs, LogEntry(timeText, "RX: [" + TypeName(packet.ptype) + "] from " + packet.senderId));
        peers := service.GetPeers();
      }
    }

    /** One tick of the refresh interval: the shown peers become `getPeers`. */
    method RefreshTick()
      requires Valid()
      modifies this
      ensures Valid()
      ensures old(intervalRunning) ==> peers == service.peers
      ensures !old(intervalRunning) ==> peers == old(peers)
      ensures logs == old(logs) && isEnabled == old(isEnabled)
      ensures subscription == old(subscription) && intervalRunning == old(intervalRunning)
    {
      if intervalRunning {
        peers := service.GetPeers();
      }
    }

    /** `handleBroadcastTest`: nothing while disabled; otherwise one
        `NEIGHBORHOOD_UPDATE` with a test payload goes out and
        "TX: Sent Test Update" is logged. */
    method BroadcastTest(now: int, messageId: string, timeText: string)
      requires Valid()
      modifies this, service
      ensures Valid()
      ensures !old(isEnabled) ==> unchanged(this) && unchanged(service)
      ensures old(isEnabled) ==>
        && service.posted == old(service.posted) + [Packet(NeighborhoodUpdate, Fields(None, None, None, None), now, service.deviceId, messageId)]
        && service.messageHistory == old(service.messageHistory) + {messageId}
        && logs == AddLog(old(logs), LogEntry(timeText, "TX: Sent Test Update"))
      ensures isEnabled == old(isEnabled) && peers == old(peers)
      ensures service.peers == old(service.peers) && service.callbacks == old(service.callbacks)
    {
      if !isEnabled {
        return;
      }
      service.Broadcast(NeighborhoodUpdate, Fields(None, None, None, None), now, messageId);
      logs := AddLog(logs, LogEntry(timeText, "TX: Sent Test Update"));
    }
  }
}
