/** The user app's mesh relay (Miyah-user/src/services/MeshNetworkService.ts):
    a service over a broadcast channel that stamps outgoing packets with its
    device id, drops its own echoes and already-seen message ids, keeps a
    table of the peers it has heard from, and notifies its callbacks. */
module MeshNetwork {
  import opened Common
  import opened Mesh

  /** No two peer table entries share a sender id. */
  ghost predicate DistinctIds(peers: seq<Peer>) {
    forall i, j :: 0 <= i < j < |peers| ==> peers[i].id != peers[j].id
  }

  function PeerIds(peers: seq<Peer>): set<string> {
    set p | p in peers :: p.id
  }

  lemma PeerIdsCons(q: Peer, rest: seq<Peer>)
    ensures PeerIds([q] + rest) == {q.id} + PeerIds(rest)
  {
    assert forall x :: x in [q] + rest <==> x == q || x in rest;
  }

  /** In a table with distinct ids, no later entry shares the first entry's id. */
  lemma HeadIdNotInTail(peers: seq<Peer>)
    requires peers != [] && DistinctIds(peers)
    ensures peers[0].id !in PeerIds(peers[1..])
  {
    forall q | q in peers[1..] ensures q.id != peers[0].id {
      var j :| 0 <= j < |peers[1..]| && peers[1..][j] == q;
      assert peers[j + 1] == q;
    }
  }

  /** `peers.set(p.id, p)` on a JavaScript `Map`, whose values list in key
      insertion order: an existing sender's entry is replaced where it stands,
      a new sender is appended. */
  function SetPeer(peers: seq<Peer>, p: Peer): (r: seq<Peer>)
    requires DistinctIds(peers)
    ensures DistinctIds(r)
    ensures PeerIds(r) == PeerIds(peers) + {p.id}
    ensures p in r
    ensures forall q :: q in r && q.id == p.id ==> q == p
    ensures forall q :: q in peers && q.id != p.id ==> q in r
    ensures forall q :: q in r ==> q == p || q in peers
    ensures |r| == if p.id in PeerIds(peers) then |peers| else |peers| + 1
    decreases |peers|
  {
    if peers == [] then [p]
    else
      assert peers == [peers[0]] + peers[1..];
      PeerIdsCons(peers[0], peers[1..]);
      HeadIdNotInTail(peers);
      if peers[0].id == p.id then
        PeerIdsCons(p, peers[1..]);
        [p] + peers[1..]
      else
        var rest := SetPeer(peers[1..], p);
        PeerIdsCons(peers[0], rest);
        [peers[0]] + rest
  }

  class MeshNetworkService {
    /** The short id drawn once at construction (the first group of a random UUID). */
    const deviceId: string
    /** Whether `channel` is open (non-null). */
    var open: bool
    /** The `peers` map, as its entries in insertion order. */
    var peers: seq<Peer>
    /** The `messageHistory` seen-set of message ids. */
    var messageHistory: set<string>
    /** The registered callbacks, in registration order. */
    var callbacks: seq<HandlerId>
    /** Every packet handed to `channel.postMessage`, oldest first. */
    var posted: seq<Packet>

    /** The service never lists itself as a peer, lists each sender once,
        and every packet it has posted carries its own id and a message id
        it has already marked as seen. */
    ghost predicate Valid()
      reads this
    {
      && DistinctIds(peers)
      && deviceId !in PeerIds(peers)
      && (forall i :: 0 <= i < |posted| ==> posted[i].senderId == deviceId && posted[i].messageId in messageHistory)
    }

    constructor (deviceId: string)
      ensures Valid()
      ensures this.deviceId == deviceId
      ensures !open && peers == [] && messageHistory == {} && callbacks == [] && posted == []
    {
      this.deviceId := deviceId;
      open := false;
      peers := [];
      messageHistory := {};
      callbacks := [];
      posted := [];
    }

    /** `broadcast`: dropped while the channel is closed; otherwise the
        packet is stamped with this device's id, its message id is marked as
        seen, and it is posted. */
    method Broadcast(ptype: PacketType, payload: Payload, timestamp: int, messageId: string)
      requires Valid()
      modifies this
      ensures Valid()
      ensures !old(open) ==> unchanged(this)
      ensures old(open) ==>
        && open
        && messageHistory == old(messageHistory) + {messageId}
        && posted == old(posted) + [Packet(ptype, payload, timestamp, deviceId, messageId)]
        && peers == old(peers) && callbacks == old(callbacks)
    {
      if !open {
        return;
      }
      var full := Packet(ptype, payload, timestamp, deviceId, messageId);
      messageHistory := messageHistory + {full.messageId};
      posted := posted + [full];
    }

    /** `start`: a no-op when the channel is already open; otherwise opens it
        and announces presence with one `NEIGHBORHOOD_UPDATE` packet that has
        a null payload. `now` and `messageId` stand for `Date.now()` and
        `crypto.randomUUID()`. */
    method Start(now: int, messageId: string)
      requires Valid()
      modifies this
      ensures Valid()
      ensures old(open) ==> unchanged(this)
      ensures !old(open) ==>
        && open
        && messageHistory == old(messageHistory) + {messageId}
        && posted == old(posted) + [Packet(NeighborhoodUpdate, NullPayload, now, deviceId, messageId)]
        && peers == old(peers) && callbacks == old(callbacks)
    {
      if open {
        return;
      }
      open := true;
      Broadcast(NeighborhoodUpdate, NullPayload, now, messageId);
    }

    /** `stop`: closes the channel (safe when it is already closed); the
        seen-set, the peers and the callbacks are kept. */
    method Stop()
      modifies this
      ensures !open
      ensures peers == old(peers) && messageHistory == old(messageHistory)
      ensures callbacks == old(callbacks) && posted == old(posted)
    {
      if open {
        open := false;
      }
    }

    /** `onMessage`: registers the callback last and hands back its detach function. */
    method OnMessage(h: HandlerId) returns (detach: Unsubscribe)
      modifies this
      ensures detach == Unsubscribe(h)
      ensures callbacks == old(callbacks) + [h]
      ensures open == old(open) && peers == old(peers)
      ensures messageHistory == old(messageHistory) && posted == old(posted)
    {
      callbacks := callbacks + [h];
      detach := Unsubscribe(h);
    }

    /** Calling the detach function: that callback is removed and every other
        registration stays. */
    method Detach(detach: Unsubscribe)
      modifies this
      ensures callbacks == WithoutHandler(old(callbacks), detach.handler)
      ensures open == old(open) && peers == old(peers)
      ensures messageHistory == old(messageHistory) && posted == old(posted)
    {
      callbacks := WithoutHandler(callbacks, detach.handler);
    }

    /** What handling one inbound packet does: an own echo or an already-seen
        message id changes nothing and notifies no one; a fresh packet is
        marked as seen, its sender's peer entry is set to `now`, and every
        registered callback is invoked once, in registration order. */
    twostate predicate Handled(packet: Packet, now: int, invoked: seq<HandlerId>)
      reads this
    {
      if packet.senderId == deviceId || packet.messageId in old(messageHistory) then
        && invoked == []
        && open == old(open) && peers == old(peers) && messageHistory == old(messageHistory)
        && callbacks == old(callbacks) && posted == old(posted)
      else
        && old(DistinctIds(peers))
        && invoked == old(callbacks)
        && messageHistory == old(messageHistory) + {packet.messageId}
        && peers == SetPeer(old(peers), Peer(packet.senderId, now))
        && open == old(open) && callbacks == old(callbacks) && posted == old(posted)
    }

    /** `handleIncomingMessage`; `now` stands for `Date.now()`. Returns the
        callbacks invoked, in order. */
    method HandleIncomingMessage(packet: Packet, now: int) returns (invoked: seq<HandlerId>)
      requires Valid()
      modifies this
      ensures Valid()
      ensures Handled(packet, now, invoked)
    {
      if packet.senderId == deviceId {
        return [];
      }
      if packet.messageId in messageHistory {
        return [];
      }
      messageHistory := messageHistory + {packet.messageId};
      peers := SetPeer(peers, Peer(packet.senderId, now));
      invoked := callbacks;
    }

    /** The channel's `onmessage`: a closed channel delivers nothing; an open
        one hands the packet to `handleIncomingMessage`. */
    method Deliver(packet: Packet, now: int) returns (invoked: seq<HandlerId>)
      requires Valid()
      modifies this
      ensures Valid()
      ensures !old(open) ==> unchanged(this) && invoked == []
      ensures old(open) ==> Handled(packet, now, invoked)
    {
      if !open {
        return [];
      }
      invoked := HandleIncomingMessage(packet, now);
    }

    /** `getPeers`: the peer entries, one per foreign sender, never this device. */
    method GetPeers() returns (r: seq<Peer>)
      requires Valid()
      ensures r == peers
      ensures DistinctIds(r) && deviceId !in PeerIds(r)
    {
      r := peers;
    }
  }

  /** Delivering a packet again once it has been handled changes nothing
      and notifies no one: repeated delivery of one message id has the
      effect of a single delivery. */
  method RedeliveryIsIgnored(s: MeshNetworkService, packet: Packet, now1: int, now2: int)
    returns (first: seq<HandlerId>, second: seq<HandlerId>)
    requires s.Valid()
    modifies s
    ensures s.Valid()
    ensures second == []
    ensures s.open == old(s.open) && s.callbacks == old(s.callbacks) && s.posted == old(s.posted)
    ensures packet.senderId != s.deviceId && packet.messageId !in old(s.messageHistory) && old(s.open) ==>
      && first == old(s.callbacks)
      && s.peers == SetPeer(old(s.peers), Peer(packet.senderId, now1))
      && s.messageHistory == old(s.messageHistory) + {packet.messageId}
    ensures !(packet.senderId != s.deviceId && packet.messageId !in old(s.messageHistory) && old(s.open)) ==>
      && first == []
      && s.peers == old(s.peers)
      && s.messageHistory == old(s.messageHistory)
  {
    first := s.Deliver(packet, now1);
    second := s.Deliver(packet, now2);
  }
}
