/** Helper facts about outgoing datagrams. */
module RelayDelivery {
  import opened Protocol
  import opened Codec
  import opened RouterTables
  import opened Conservation
  import opened Relay

  /** The program's answer lists the datagrams of the specified one, or gives the same error. */
  ghost predicate Answers(actual: Result<seq<OutboundDatagram>, RelayError>, expected: Result<set<OutboundDatagram>, RelayError>) {
    if expected.Ok? then actual.Ok? && Lists(actual.value, expected.value) else actual == Err(expected.error)
  }

  ghost predicate DistinctTargets(action: RelayAction<set<DiscoveryTarget>>) {
    action.DiscoveryFanout? ==> DistinctIps(action.targets)
  }

  ghost predicate DistinctIps(targets: set<DiscoveryTarget>) {
    forall a, b :: a in targets && b in targets && a.ip == b.ip ==> a == b
  }

  lemma LiveTargetsDistinct(cfg: RouterConfig, t: Tables, room: RoomId, now: Time)
    requires Inv(cfg, t)
    ensures DistinctIps(LiveTargets(t.hosts, room, now))
  {
    hide Inv;
    forall h, k | h in t.hosts && k in t.hosts && t.hosts[h].ip == t.hosts[k].ip
      ensures h == k
    {
      if h != k {
        DistinctHostsDiffer(cfg, t, h, k);
      }
    }
  }

  lemma DispatchDistinctTargets(cfg: RouterConfig, t: Tables, ingress: RelayIngress)
    requires Inv(cfg, t)
    ensures var result := Dispatch(cfg, t, ingress).result;
            result.Ok? ==> DistinctTargets(result.value)
  {
    hide Inv;
    if ingress.DiscoveryIngress? && ingress.source in t.peers {
      LiveTargetsDistinct(cfg, t, t.peers[ingress.source].room, ingress.now);
    }
  }

  lemma FanoutListed(targets: seq<DiscoveryTarget>, expected: set<DiscoveryTarget>, datagrams: seq<OutboundDatagram>,
                     request: DiscoveryRequestId, sourceIp: VirtualIp, port: U16, payload: seq<Byte>, relayPort: U16,
                     meta: RelayEnvelopeMeta)
    requires Lists(targets, expected) && DistinctIps(expected) && |datagrams| == |targets|
    requires forall j :: 0 <= j < |targets| ==> datagrams[j] == ToHost(targets[j], request, sourceIp, port, payload, relayPort, meta)
    ensures Lists(datagrams, set target | target in expected :: ToHost(target, request, sourceIp, port, payload, relayPort, meta))
  {
  }

  /** A packet on the wire is a datagram's encoding, and decodes to it. */
  predicate IsSent(packet: (SocketAddr, seq<Byte>), datagram: OutboundDatagram) {
    && packet.0 == datagram.destination
    && Encode(datagram.message, Some(datagram.meta), RELAY_PROTOCOL_VERSION) == Ok(packet.1)
  }

  predicate Sends(sent: seq<(SocketAddr, seq<Byte>)>, list: seq<OutboundDatagram>) {
    |sent| == |list| && forall i :: 0 <= i < |list| ==> IsSent(sent[i], list[i])
  }

  predicate Fits(d: OutboundDatagram) {
    |PayloadOf(d.message)| <= MAX_CIV6_DATAGRAM_SIZE && Encode(d.message, Some(d.meta), RELAY_PROTOCOL_VERSION).Ok?
  }

  lemma FitsWhenSmall(d: OutboundDatagram)
    requires |PayloadOf(d.message)| <= MAX_CIV6_DATAGRAM_SIZE
    ensures Fits(d)
  {
  }

  /** Everything that goes out carries a payload the router has accepted. */
  lemma ForwardedFits(sc: ServerConfig, t: Tables, tracker: Tracker, peer: PeerId, envelope: RelayEnvelope, now: Time)
    ensures var result := Forward(sc, t, tracker, peer, envelope, now).result;
            result.Ok? ==> forall d :: d in result.value ==> |PayloadOf(d.message)| <= MAX_CIV6_DATAGRAM_SIZE
  {
  }

  lemma ServedFits(sc: ServerConfig, t: Tables, tracker: Tracker, peer: PeerId, source: SocketAddr, envelope: RelayEnvelope, now: Time)
    requires peer in t.peers
    ensures var result := ServePeer(sc, t, tracker, peer, source, envelope, now).result;
            result.Ok? ==> forall d :: d in result.value ==> |PayloadOf(d.message)| <= MAX_CIV6_DATAGRAM_SIZE
  {
    hide Forward;
    var seen := MarkPeerSeen(t, peer, now).tables;
    ForwardedFits(sc, seen, tracker, peer, envelope, now);
  }

  /** The server never fails to encode what it has decided to send. */
  lemma HandledFits(sc: ServerConfig, s: ServerState, source: SocketAddr, packet: seq<Byte>, arrival: Time, now: Time)
    ensures var result := Handle(sc, s, source, packet, arrival, now).result;
            result.Ok? ==> forall d :: d in result.value ==> Fits(d)
  {
    hide ServePeer, Decode;
    var result := Handle(sc, s, source, packet, arrival, now).result;
    if result.Ok? {
      var peer := PeerWithIp(s.tables.peers, source.ip).value;
      ServedFits(sc, s.tables, s.tracker, peer, source, Decode(packet).value, now);
      forall d | d in result.value
        ensures Fits(d)
      {
        FitsWhenSmall(d);
      }
    }
  }
}
