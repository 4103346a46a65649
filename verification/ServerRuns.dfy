/** What the relay server guarantees in every state that any series of datagrams, control-plane operations
    and sweeps can lead to. */
module ServerRuns {
  import opened Protocol
  import opened Codec
  import opened RouterTables
  import opened RouterInvariant
  import opened RouterRuns
  import opened Conservation
  import opened RateLimiter
  import opened Relay

  // ---------------------------------------------------------------- the invariant

  lemma ForwardOk(sc: ServerConfig, t: Tables, tracker: Tracker, peer: PeerId, envelope: RelayEnvelope, now: Time)
    requires Inv(sc.router, t)
    ensures Inv(sc.router, Forward(sc, t, tracker, peer, envelope, now).tables)
  {
    hide Inv, Dispatch, ActionDatagrams;
    var ingress := IngressOf(t.hosts, peer, envelope.message, now);
    if ingress.Ok? {
      DispatchOk(sc.router, t, ingress.value);
    }
  }

  lemma HandleOk(sc: ServerConfig, s: ServerState, source: SocketAddr, packet: seq<Byte>, arrival: Time, now: Time)
    requires Inv(sc.router, s.tables)
    ensures Inv(sc.router, Handle(sc, s, source, packet, arrival, now).state.tables)
  {
    hide Inv, Decode, Forward;
    var envelope := Decode(packet);
    if envelope.Ok? && source.V4? && PeerWithIp(s.tables.peers, source.ip).Some? {
      var peer := PeerWithIp(s.tables.peers, source.ip).value;
      var seen := MarkPeerSeen(s.tables, peer, now).tables;
      MarkPeerSeenOk(sc.router, s.tables, peer, now);
      ForwardOk(sc, seen, s.tracker, peer, envelope.value, now);
    }
  }

  lemma {:induction false} ServerRunOk(sc: ServerConfig, s: ServerState, events: seq<ServerEvent>)
    requires Inv(sc.router, s.tables) && FreshEvents(sc, s, events)
    ensures Inv(sc.router, ServerRun(sc, s, events).tables)
  {
    hide Inv, Handle, Apply;
    if events != [] {
      var n := |events| - 1;
      FreshEventsPrefix(sc, s, events, n);
      ServerRunOk(sc, s, events[..n]);
      var before := ServerRun(sc, s, events[..n]);
      match events[n] {
        case Datagram(source, packet, arrival, now) => HandleOk(sc, before, source, packet, arrival, now);
        case Control(op) => ApplyOk(sc.router, before.tables, op);
      }
    }
  }

  lemma FreshEventsPrefix(sc: ServerConfig, s: ServerState, events: seq<ServerEvent>, n: nat)
    requires n <= |events| && FreshEvents(sc, s, events)
    ensures FreshEvents(sc, s, events[..n])
  {
    forall i | 0 <= i < n && events[..n][i].Control?
      ensures DrawsFresh(ServerRun(sc, s, events[..n][..i]).tables, events[..n][i].op)
    {
      assert events[..n][..i] == events[..i];
    }
  }

  // ---------------------------------------------------------------- isolation and fidelity

  /** What a message from the holder of `ip` turns into on its way to somebody else. */
  predicate Relays(sent: RelayMessage, received: RelayMessage, ip: VirtualIp) {
    match received
    case DiscoveryRequest(request, port, payload) => sent == DiscoveryToHost(request, ip, port, payload)
    case DiscoveryResponse(request, _, port, payload) => sent == DiscoveryToClient(request, ip, port, payload)
    case GameplayPacket(session, port, payload) => sent == GameplayToPeer(session, ip, port, payload)
    case _ => false
  }

  ghost predicate AddressIn(peers: Peers, room: RoomId, ip: VirtualIp) {
    exists q :: IsMember(peers, room, q, ip)
  }

  /** A datagram that `peer` caused: to a member of its room, with its address, message and metadata. */
  ghost predicate Delivers(sc: ServerConfig, peers: Peers, peer: PeerId, envelope: RelayEnvelope, d: OutboundDatagram)
    requires peer in peers
  {
    && d.destination.V4? && d.destination.port == sc.relayPort
    && AddressIn(peers, peers[peer].room, d.destination.ip)
    && Relays(d.message, envelope.message, peers[peer].ip)
    && d.meta == envelope.meta
  }

  lemma DispatchedDiscovery(cfg: RouterConfig, t: Tables, source: PeerId, request: DiscoveryRequestId, port: U16, payload: seq<Byte>, now: Time)
    ensures var step := Dispatch(cfg, t, DiscoveryIngress(source, request, port, payload, now));
            && step.tables.peers == t.peers
            && (step.result.Ok? ==>
                  source in t.peers
                  && step.result.value == DiscoveryFanout(request, source, port, LiveTargets(t.hosts, t.peers[source].room, now), payload))
  {
  }

  lemma DispatchedResponse(cfg: RouterConfig, t: Tables, host: HostSessionId, request: DiscoveryRequestId, port: U16, payload: seq<Byte>, now: Time)
    ensures var step := Dispatch(cfg, t, ResponseIngress(host, request, port, payload, now));
            && step.tables == t
            && (step.result.Ok? ==>
                  && host in t.hosts && request in t.discoveries && t.hosts[host].room == t.discoveries[request].room
                  && step.result.value == DiscoveryUnicast(request, t.discoveries[request].client, t.hosts[host].ip, port, payload))
  {
  }

  lemma DispatchedGameplay(cfg: RouterConfig, t: Tables, session: GameplaySessionId, source: PeerId, port: U16, payload: seq<Byte>, now: Time)
    ensures var step := Dispatch(cfg, t, GameplayIngress(session, source, port, payload, now));
            && step.tables.peers == t.peers
            && (step.result.Ok? ==>
                  && session in t.gameplay
                  && var g := t.gameplay[session];
                  && (source == g.client || source == g.hostPeer)
                  && step.result.value
                     == GameplayUnicast(if source == g.client then GameplayRoute(session, g.room, source, g.hostPeer, g.hostIp)
                                        else GameplayRoute(session, g.room, source, g.client, g.clientIp), port, payload))
  {
  }

  lemma DiscoveryDelivers(sc: ServerConfig, t: Tables, tracker: Tracker, peer: PeerId, envelope: RelayEnvelope, now: Time)
    requires Inv(sc.router, t) && peer in t.peers && envelope.message.DiscoveryRequest?
    ensures var served := Forward(sc, t, tracker, peer, envelope, now);
            served.tables.peers == t.peers && (served.result.Err? ==> !served.result.error.UnknownSource?)
            && (served.result.Ok? ==> forall d :: d in served.result.value ==> Delivers(sc, t.peers, peer, envelope, d))
  {
    hide Inv, Dispatch, Disposition, TrackerAfter;
    DispatchedDiscovery(sc.router, t, peer, envelope.message.requestId, envelope.message.port, envelope.message.payload, now);
    forall h | h in t.hosts
      ensures AddressIn(t.peers, t.hosts[h].room, t.hosts[h].ip)
    {
      HostIsMember(sc.router, t, h);
    }
  }

  lemma ResponseDelivers(sc: ServerConfig, t: Tables, tracker: Tracker, peer: PeerId, envelope: RelayEnvelope, now: Time)
    requires Inv(sc.router, t) && peer in t.peers && envelope.message.DiscoveryResponse?
    ensures var served := Forward(sc, t, tracker, peer, envelope, now);
            served.tables.peers == t.peers && (served.result.Err? ==> !served.result.error.UnknownSource?)
            && (served.result.Ok? ==> forall d :: d in served.result.value ==> Delivers(sc, t.peers, peer, envelope, d))
  {
    hide Inv, Dispatch, Disposition, TrackerAfter;
    var host, request := envelope.message.hostSessionId, envelope.message.requestId;
    DispatchedResponse(sc.router, t, host, request, envelope.message.port, envelope.message.payload, now);
    if host in t.hosts && request in t.discoveries {
      HostIsMember(sc.router, t, host);
      ClientIsMember(sc.router, t, request);
      var client := t.discoveries[request].client;
      assert IsMember(t.peers, t.discoveries[request].room, client, t.peers[client].ip);
    }
  }

  lemma ClientIsMember(cfg: RouterConfig, t: Tables, request: DiscoveryRequestId)
    requires Inv(cfg, t) && request in t.discoveries
    ensures InRoom(t.peers, t.discoveries[request].room, t.discoveries[request].client)
  {
    hide Inv;
    InvRoutes(cfg, t);
  }

  lemma EndsAreMembers(cfg: RouterConfig, t: Tables, session: GameplaySessionId)
    requires Inv(cfg, t) && session in t.gameplay
    ensures var g := t.gameplay[session];
            IsMember(t.peers, g.room, g.client, g.clientIp) && IsMember(t.peers, g.room, g.hostPeer, g.hostIp)
  {
    hide Inv;
    InvRoutes(cfg, t);
    assert CameFrom(t.hosts, t.gameplay[session], t.origin[session]);
    HostIsMember(cfg, t, t.origin[session]);
  }

  lemma GameplayDelivers(sc: ServerConfig, t: Tables, tracker: Tracker, peer: PeerId, envelope: RelayEnvelope, now: Time)
    requires Inv(sc.router, t) && peer in t.peers && envelope.message.GameplayPacket?
    ensures var served := Forward(sc, t, tracker, peer, envelope, now);
            served.tables.peers == t.peers && (served.result.Err? ==> !served.result.error.UnknownSource?)
            && (served.result.Ok? ==> forall d :: d in served.result.value ==> Delivers(sc, t.peers, peer, envelope, d))
  {
    hide Inv, Dispatch, Disposition, TrackerAfter;
    var session := envelope.message.sessionId;
    DispatchedGameplay(sc.router, t, session, peer, envelope.message.port, envelope.message.payload, now);
    if session in t.gameplay {
      EndsAreMembers(sc.router, t, session);
    }
  }

  /** A gameplay packet goes to the other end of its session and to nobody else in the room. */
  lemma GameplayStaysInSession(sc: ServerConfig, t: Tables, tracker: Tracker, peer: PeerId, envelope: RelayEnvelope, now: Time)
    requires Inv(sc.router, t) && peer in t.peers && envelope.message.GameplayPacket?
    requires Forward(sc, t, tracker, peer, envelope, now).result.Ok?
    ensures var session := envelope.message.sessionId;
            && session in t.gameplay
            && exists other, ip ::
                 && {peer, other} == {t.gameplay[session].client, t.gameplay[session].hostPeer}
                 && IsMember(t.peers, t.gameplay[session].room, other, ip)
                 && Forward(sc, t, tracker, peer, envelope, now).result
                    == Ok({OutboundDatagram(V4(ip, sc.relayPort),
                                            GameplayToPeer(session, t.peers[peer].ip, envelope.message.port, envelope.message.payload),
                                            envelope.meta)})
  {
    hide Inv, Dispatch, Disposition, TrackerAfter;
    var session := envelope.message.sessionId;
    DispatchedGameplay(sc.router, t, session, peer, envelope.message.port, envelope.message.payload, now);
    EndsAreMembers(sc.router, t, session);
    var g := t.gameplay[session];
    var other, ip := if peer == g.client then g.hostPeer else g.client, if peer == g.client then g.hostIp else g.clientIp;
    assert IsMember(t.peers, g.room, other, ip);
    assert {peer, other} == {g.client, g.hostPeer};
  }

  /** Whatever a peer has the server send goes to members of its own room, unaltered, under its own
      address. The dispatcher's fallbacks for a vanished peer never come up. */
  lemma ForwardDelivers(sc: ServerConfig, t: Tables, tracker: Tracker, peer: PeerId, envelope: RelayEnvelope, now: Time)
    requires Inv(sc.router, t) && peer in t.peers
    ensures var served := Forward(sc, t, tracker, peer, envelope, now);
            served.tables.peers == t.peers && (served.result.Err? ==> !served.result.error.UnknownSource?)
            && (served.result.Ok? ==> forall d :: d in served.result.value ==> Delivers(sc, t.peers, peer, envelope, d))
  {
    hide Inv;
    if envelope.message.DiscoveryRequest? {
      DiscoveryDelivers(sc, t, tracker, peer, envelope, now);
    } else if envelope.message.DiscoveryResponse? {
      ResponseDelivers(sc, t, tracker, peer, envelope, now);
    } else if envelope.message.GameplayPacket? {
      GameplayDelivers(sc, t, tracker, peer, envelope, now);
    }
  }

  /** A reply to a probe, sent back to where the probe came from. */
  predicate AcksProbe(source: SocketAddr, envelope: RelayEnvelope, d: OutboundDatagram) {
    envelope.message.RelayProbe? && d == OutboundDatagram(source, RelayProbeAck(envelope.message.requestId), envelope.meta)
  }

  lemma HandleDelivers(sc: ServerConfig, s: ServerState, source: SocketAddr, packet: seq<Byte>, arrival: Time, now: Time)
    requires Inv(sc.router, s.tables)
    ensures var handled := Handle(sc, s, source, packet, arrival, now);
            handled.result.Ok? ==>
              && Decode(packet).Ok? && source.V4? && PeerWithIp(s.tables.peers, source.ip).Some?
              && var peer := PeerWithIp(s.tables.peers, source.ip).value;
              && peer in handled.state.tables.peers
              && handled.state.tables.peers[peer] == s.tables.peers[peer].(lastSeen := now)
              && forall d :: d in handled.result.value ==>
                   AcksProbe(source, Decode(packet).value, d)
                   || Delivers(sc, handled.state.tables.peers, peer, Decode(packet).value, d)
    ensures var handled := Handle(sc, s, source, packet, arrival, now);
            handled.result.Err? && handled.result.error.UnknownSource? ==>
              source.V4? && handled.result.error.ip == source.ip && !IpTaken(s.tables.peers, source.ip)
  {
    hide Inv, Decode, Forward, Passes;
    var envelope := Decode(packet);
    if envelope.Ok? && source.V4? && PeerWithIp(s.tables.peers, source.ip).Some? {
      var peer := PeerWithIp(s.tables.peers, source.ip).value;
      var seen := MarkPeerSeen(s.tables, peer, now).tables;
      MarkPeerSeenOk(sc.router, s.tables, peer, now);
      ForwardDelivers(sc, seen, s.tracker, peer, envelope.value, now);
    }
  }

  /** Refused before the sender is known to be a connected member of that epoch. */
  predicate RefusedEarly(error: RelayError) {
    error.MalformedPacket? || error.InvalidSource? || error.RateLimited? || error.UnknownSource? || error.StaleConnectionEpoch?
  }

  /** A datagram refused early counts as nobody's activity and leaves no trace in the router or the
      sequence table; a malformed one, or one not from an IPv4 address, not even in the rate limiter. */
  lemma RefusedEarlyLeavesNoTrace(sc: ServerConfig, s: ServerState, source: SocketAddr, packet: seq<Byte>, arrival: Time, now: Time)
    requires Inv(sc.router, s.tables)
    requires var result := Handle(sc, s, source, packet, arrival, now).result;
             result.Err? && RefusedEarly(result.error)
    ensures var handled := Handle(sc, s, source, packet, arrival, now);
            && handled.state.tables == s.tables && handled.state.tracker == s.tracker
            && (handled.result.error.MalformedPacket? || handled.result.error.InvalidSource? ==> handled.state == s)
  {
    hide Inv, Decode, Forward, Passes, EntriesAfter;
    var envelope := Decode(packet);
    if envelope.Ok? && source.V4? && PeerWithIp(s.tables.peers, source.ip).Some? {
      var peer := PeerWithIp(s.tables.peers, source.ip).value;
      var seen := MarkPeerSeen(s.tables, peer, now).tables;
      MarkPeerSeenOk(sc.router, s.tables, peer, now);
      ForwardRefusesLate(sc, seen, s.tracker, peer, envelope.value, now);
    }
  }

  lemma ForwardRefusesLate(sc: ServerConfig, t: Tables, tracker: Tracker, peer: PeerId, envelope: RelayEnvelope, now: Time)
    requires Inv(sc.router, t) && peer in t.peers
    ensures var result := Forward(sc, t, tracker, peer, envelope, now).result;
            result.Err? ==> !RefusedEarly(result.error)
  {
    hide Inv;
    ForwardDelivers(sc, t, tracker, peer, envelope, now);
    hide Dispatch, Disposition, TrackerAfter, Delivers;
  }

  /** Room isolation, end to end: after any history, every datagram that a datagram makes the server send
      is the answer to a probe or goes to a peer that is at that moment in the sender's room. */
  lemma RoomIsolation(sc: ServerConfig, events: seq<ServerEvent>, source: SocketAddr, packet: seq<Byte>, arrival: Time,
                      now: Time, d: OutboundDatagram)
    requires FreshEvents(sc, STARTED, events)
    requires var result := Handle(sc, ServerRun(sc, STARTED, events), source, packet, arrival, now).result;
             result.Ok? && d in result.value
    ensures var t := Handle(sc, ServerRun(sc, STARTED, events), source, packet, arrival, now).state.tables;
            || AcksProbe(source, Decode(packet).value, d)
            || (d.destination.V4? && source.V4?
                && exists room, sender, receiver ::
                     && IsMember(t.peers, room, sender, source.ip)
                     && IsMember(t.peers, room, receiver, d.destination.ip))
  {
    hide Handle, Decode, Apply;
    var s := ServerRun(sc, STARTED, events);
    EmptyOk(sc.router);
    ServerRunOk(sc, STARTED, events);
    HandleDelivers(sc, s, source, packet, arrival, now);
    if !AcksProbe(source, Decode(packet).value, d) {
      var t := Handle(sc, s, source, packet, arrival, now).state.tables;
      var sender := PeerWithIp(s.tables.peers, source.ip).value;
      var room := t.peers[sender].room;
      assert IsMember(t.peers, room, sender, source.ip);
      var receiver :| IsMember(t.peers, room, receiver, d.destination.ip);
    }
  }
}
