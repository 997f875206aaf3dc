/** The NGO dashboard's mesh listener (services/NGOMeshService.ts): while
    running it listens to storage events, keeps those for its key whose new
    value parses as a packet, drops already-seen message ids and notifies its
    callbacks. There is no self-echo check and no peer table. */
module NgoMesh {
  import opened Common
  import opened Mesh

  /** The storage key the listener reacts to. */
  const STORAGE_KEY: string := "miyah_mesh_network"

  /** A `storage` event: the key that changed (`null` when the whole storage
      was cleared) and its new value (`null` when removed). */
  datatype StorageEvent = StorageEvent(key: Option<string>, newValue: Option<string>)

  class NgoMeshService {
    /** `JSON.parse` followed by the packet cast: `None` when parsing throws. */
    const parse: string -> Option<Packet>
    var isRunning: bool
    /** Whether `storageHandler` is installed on `window`. */
    var listening: bool
    var messageHistory: set<string>
    var callbacks: seq<HandlerId>

    /** The handler is installed exactly while the service is running. */
    ghost predicate Valid()
      reads this
    {
      listening == isRunning
    }

    constructor (parse: string -> Option<Packet>)
      ensures Valid()
      ensures this.parse == parse
      ensures !isRunning && messageHistory == {} && callbacks == []
    {
      this.parse := parse;
      isRunning := false;
      listening := false;
      messageHistory := {};
      callbacks := [];
    }

    /** The packet the storage handler passes on for an event, if any: the
        key must be the mesh key, the new value present and non-empty (a
        truthy string), and the value must parse. */
    function Incoming(ev: StorageEvent): (r: Option<Packet>)
      ensures r.Some? <==>
        && ev.key == Some(STORAGE_KEY)
        && ev.newValue.Some? && ev.newValue.value != ""
        && parse(ev.newValue.value).Some?
      ensures r.Some? ==> r == parse(ev.newValue.value)
    {
      if ev.key == Some(STORAGE_KEY) && ev.newValue.Some? && ev.newValue.value != "" then
        parse(ev.newValue.value)
      else
        None
    }

    /** `start`: idempotent; installs the storage handler. */
    method Start()
      requires Valid()
      modifies this
      ensures Valid()
      ensures isRunning
      ensures messageHistory == old(messageHistory) && callbacks == old(callbacks)
    {
      if isRunning {
        return;
      }
      isRunning := true;
      listening := true;
    }

    /** `stop`: removes the handler if installed and clears `isRunning`; safe
        when not started. The seen-set and the callbacks are kept. */
    method Stop()
      modifies this
      ensures Valid()
      ensures !isRunning && !listening
      ensures messageHistory == old(messageHistory) && callbacks == old(callbacks)
    {
      if listening {
        listening := false;
      }
      isRunning := false;
    }

    /** `onMessage`: registers the callback last and hands back its detach function. */
    method OnMessage(h: HandlerId) returns (detach: Unsubscribe)
      modifies this
      ensures detach == Unsubscribe(h)
      ensures callbacks == old(callbacks) + [h]
      ensures isRunning == old(isRunning) && listening == old(listening)
      ensures messageHistory == old(messageHistory)
    {
      callbacks := callbacks + [h];
      detach := Unsubscribe(h);
    }

    /** Calling the detach function: that callback is removed and every other
        registration stays. */
    method Detach(detach: Unsubscribe)
      modifies this
      ensures callbacks == WithoutHandler(old(callbacks), detach.handler)
      ensures isRunning == old(isRunning) && listening == old(listening)
      ensures messageHistory == old(messageHistory)
    {
      callbacks := WithoutHandler(callbacks, detach.handler);
    }

    /** `handleIncomingMessage`: an already-seen message id changes nothing and
        notifies no one; otherwise the id is recorded first and then every
        callback is invoked once, in registration order, whoever sent it. */
    method HandleIncomingMessage(packet: Packet) returns (invoked: seq<HandlerId>)
      modifies this
      ensures packet.messageId in old(messageHistory) ==> unchanged(this) && invoked == []
      ensures packet.messageId !in old(messageHistory) ==>
        && messageHistory == old(messageHistory) + {packet.messageId}
        && invoked == callbacks == old(callbacks)
        && isRunning == old(isRunning) && listening == old(listening)
    {
      if packet.messageId in messageHistory {
        return [];
      }
      messageHistory := messageHistory + {packet.messageId};
      invoked := callbacks;
    }

    /** A `storage` event reaching the window. Without the handler nothing
        happens; an event for another key, with a missing or empty value, or
        whose value does not parse is dropped (a parse failure is only
        logged) and leaves the service as it was, ready for the next event. */
    method OnStorageEvent(ev: StorageEvent) returns (invoked: seq<HandlerId>)
      requires Valid()
      modifies this
      ensures Valid()
      ensures !old(listening) || Incoming(ev).None? ==> unchanged(this) && invoked == []
      ensures old(listening) && Incoming(ev).Some? ==>
        var p := Incoming(ev).value;
        if p.messageId in old(messageHistory) then unchanged(this) && invoked == []
        else
          && messageHistory == old(messageHistory) + {p.messageId}
          && invoked == callbacks == old(callbacks)
          && isRunning == old(isRunning) && listening == old(listening)
    {
      if !listening {
        return [];
      }
      if ev.key == Some(STORAGE_KEY) && ev.newValue.Some? && ev.newValue.value != "" {
        match parse(ev.newValue.value)
        case None =>
          invoked := [];
        case Some(packet) =>
          invoked := HandleIncomingMessage(packet);
      } else {
        invoked := [];
      }
    }
  }
}
