/** The wire unit shared by both mesh services (the `MeshPacket` and
    `MeshPeer` types of the user app, and the identical `MeshPacket`
    interface the NGO service declares for itself). */
module Mesh {
  import opened Common

  datatype PacketType = NeighborhoodUpdate | ReportNew

  /** The packet's `payload: any`, as far as the core reads it: `null` (the
      presence announcement), or an object whose string fields `type`,
      `message`, `location` and `timestamp` may each be missing. Other
      fields of the object (such as the test packet's `test`) are not read. */
  datatype Payload =
    | NullPayload
    | Fields(category: Option<string>, message: Option<string>, location: Option<string>, timestamp: Option<string>)

  datatype Packet = Packet(
    ptype: PacketType,
    payload: Payload,
    timestamp: int,
    senderId: string,
    messageId: string)

  /** A peer table entry: the sender and when it was last heard from. */
  datatype Peer = Peer(id: string, lastSeen: int)

  /** The identity of a registered callback: the same function registered
      twice is the same identity, as `!==` compares callbacks by reference. */
  type HandlerId = nat

  /** The detach function `onMessage` returns: it is bound to one callback. */
  datatype Unsubscribe = Unsubscribe(handler: HandlerId)

  /** The packet type as it appears on the wire. */
  function TypeName(t: PacketType): string {
    match t
    case NeighborhoodUpdate => "NEIGHBORHOOD_UPDATE"
    case ReportNew => "REPORT_NEW"
  }

  /** The test the detach function's `filter` applies: any callback but `h`. */
  function IsNot(h: HandlerId): HandlerId -> bool {
    c => c != h
  }

  /** `callbacks.filter(cb => cb !== callback)`: drops every registration of
      one callback and keeps every registration of the others; the order of
      what is kept is `Filter`'s (see `WithoutHandlerKeepsOrder`). */
  function WithoutHandler(callbacks: seq<HandlerId>, h: HandlerId): (r: seq<HandlerId>)
    ensures h !in r
    ensures forall x :: x != h ==> Count(r, x) == Count(callbacks, x)
    ensures h !in callbacks ==> r == callbacks
  {
    var r := Filter(callbacks, IsNot(h));
    forall x ensures Count(r, x) == if x != h then Count(callbacks, x) else 0 {
      FilterCount(callbacks, IsNot(h), x);
    }
    r
  }

  /** Detaching works part by part: the callbacks kept from an earlier part
      of the list still run before those kept from a later part, so the
      remaining callbacks keep their registration order. */
  lemma WithoutHandlerKeepsOrder(a: seq<HandlerId>, b: seq<HandlerId>, h: HandlerId)
    ensures WithoutHandler(a + b, h) == WithoutHandler(a, h) + WithoutHandler(b, h)
  {
    FilterAppend(a, b, IsNot(h));
  }
}
