/** Which datagrams the server accepts, and what it sends for them: from the bytes and their source address to
    the datagrams that go out, and the error of the first test that fails otherwise. */
module Acceptance {
  import opened Protocol
  import opened Codec
  import opened RouterTables
  import opened RouterInvariant
  import opened RateLimiter
  import opened Relay
  import opened ServerRuns
  import opened ConnectionEpochs
  import opened RouterAnswers

  // ---------------------------------------------------------------- before the message is looked at

  predicate HoldsAddress(t: Tables, peer: PeerId, source: SocketAddr) {
    source.V4? && peer in t.peers && t.peers[peer].ip == source.ip
  }

  /** The tests that come before the sender is known, in order. */
  lemma HandleAdmits(sc: ServerConfig, s: ServerState, source: SocketAddr, packet: seq<Byte>, arrival: Time, now: Time)
    ensures var handled := Handle(sc, s, source, packet, arrival, now);
            && (Decode(packet).Err? ==> handled == Handled(s, Err(MalformedPacket(Decode(packet).error))))
            && (Decode(packet).Ok? && source.V6? ==> handled == Handled(s, Err(InvalidSource(source))))
            && (Decode(packet).Ok? && source.V4? && !Passes(sc, s.entries, source.ip, arrival) ==>
                  handled.result == Err(RateLimited) && handled.state.tables == s.tables && handled.state.tracker == s.tracker)
            && (Decode(packet).Ok? && source.V4? && Passes(sc, s.entries, source.ip, arrival)
                && (forall p :: p in s.tables.peers ==> s.tables.peers[p].ip != source.ip) ==>
                  handled.result == Err(UnknownSource(source.ip)) && handled.state.tables == s.tables && handled.state.tracker == s.tracker)
  {
    hide Decode, Passes, EntriesAfter, ServePeer;
    if source.V4? {
      NobodyHolds(s.tables.peers, source.ip);
    }
  }

  lemma NobodyHolds(peers: Peers, ip: VirtualIp)
    ensures PeerWithIp(peers, ip).None? <==> forall p :: p in peers ==> peers[p].ip != ip
  {
    if p :| p in peers && peers[p].ip == ip {
      assert HasIp(peers, p, ip);
    }
  }

  /** A well-formed datagram from the member's address that the rate limiter lets through. */
  predicate Arrives(sc: ServerConfig, s: ServerState, source: SocketAddr, packet: seq<Byte>, arrival: Time, peer: PeerId) {
    Decode(packet).Ok? && HoldsAddress(s.tables, peer, source) && Passes(sc, s.entries, source.ip, arrival)
  }

  predicate CurrentEpoch(t: Tables, peer: PeerId, epoch: U64) {
    peer in t.peers && (epoch == 0 || epoch == t.peers[peer].epoch)
  }

  predicate Connected(t: Tables, peer: PeerId) {
    peer in t.peers && t.peers[peer].disconnectedAt.None?
  }

  /** And of an epoch the server takes from a member that is not suspended. */
  predicate Admitted(sc: ServerConfig, s: ServerState, source: SocketAddr, packet: seq<Byte>, arrival: Time, peer: PeerId) {
    && Arrives(sc, s, source, packet, arrival, peer) && Connected(s.tables, peer)
    && CurrentEpoch(s.tables, peer, Decode(packet).value.meta.connectionEpoch)
  }

  function SeenAt(t: Tables, peer: PeerId, now: Time): Tables
    requires peer in t.peers
  {
    t.(peers := t.peers[peer := t.peers[peer].(lastSeen := now)])
  }

  /** A member's datagram is refused for its epoch, or for the member being suspended, and then changes nothing
      but the rate limiter; otherwise the member is seen. */
  lemma MemberAdmitted(sc: ServerConfig, s: ServerState, source: SocketAddr, packet: seq<Byte>, arrival: Time, now: Time, peer: PeerId)
    requires Inv(sc.router, s.tables) && Arrives(sc, s, source, packet, arrival, peer)
    ensures var handled, envelope := Handle(sc, s, source, packet, arrival, now), Decode(packet).value;
            if !CurrentEpoch(s.tables, peer, envelope.meta.connectionEpoch) then
              && handled.result == Err(StaleConnectionEpoch(envelope.meta.connectionEpoch, s.tables.peers[peer].epoch))
              && handled.state.tables == s.tables && handled.state.tracker == s.tracker
            else if !Connected(s.tables, peer) then
              && handled.result == Err(Router(PeerDisconnected(peer)))
              && handled.state.tables == s.tables && handled.state.tracker == s.tracker
            else if envelope.message.RelayProbe? then
              && handled.result == Ok({OutboundDatagram(source, RelayProbeAck(envelope.message.requestId), envelope.meta)})
              && handled.state.tables == SeenAt(s.tables, peer, now) && handled.state.tracker == s.tracker
            else
              var served := Forward(sc, SeenAt(s.tables, peer, now), s.tracker, peer, envelope, now);
              handled.result == served.result && handled.state.tables == served.tables && handled.state.tracker == served.tracker
  {
    hide Inv, Decode, Passes, EntriesAfter, Forward;
    HolderOf(sc.router, s.tables, peer);
  }

  /** A probe from a connected member, of a current epoch and within the rate, is answered: one acknowledgement,
      with the probe's id and metadata, to where the probe came from. And the member has been seen. */
  lemma ProbeAnswered(sc: ServerConfig, s: ServerState, source: SocketAddr, packet: seq<Byte>, arrival: Time, now: Time, peer: PeerId)
    requires Inv(sc.router, s.tables) && Admitted(sc, s, source, packet, arrival, peer) && Decode(packet).value.message.RelayProbe?
    ensures var handled, envelope := Handle(sc, s, source, packet, arrival, now), Decode(packet).value;
            && handled.result == Ok({OutboundDatagram(source, RelayProbeAck(envelope.message.requestId), envelope.meta)})
            && peer in handled.state.tables.peers && handled.state.tables.peers[peer].lastSeen == now
            && handled.state.tables == SeenAt(s.tables, peer, now)
  {
    hide Inv, Handle, Decode, Passes;
    MemberAdmitted(sc, s, source, packet, arrival, now, peer);
  }

  // ---------------------------------------------------------------- the message

  predicate Unrepeated(tracker: Tracker, peer: PeerId, sequence: U64) {
    sequence == 0 || peer !in tracker || tracker[peer] != sequence
  }

  /** A copy of the member's last number, and messages only the server sends, go no further. */
  lemma ForwardRefuses(sc: ServerConfig, t: Tables, tracker: Tracker, peer: PeerId, envelope: RelayEnvelope, now: Time)
    ensures var served, m := Forward(sc, t, tracker, peer, envelope, now), envelope.message;
            if !Unrepeated(tracker, peer, envelope.meta.sequence) then
              served.result == Err(DuplicateSequence(envelope.meta.sequence)) && served.tables == t
            else if m.DiscoveryToHost? || m.DiscoveryToClient? || m.GameplayToPeer? || m.RelayProbe? || m.RelayProbeAck? then
              served.result == Err(OutboundEnvelope) && served.tables == t
            else if m.DiscoveryResponse? && m.hostSessionId !in t.hosts then
              served.result == Err(Router(HostNotFound(m.hostSessionId))) && served.tables == t
            else if m.DiscoveryResponse? && t.hosts[m.hostSessionId].peer != peer then
              served.result == Err(SourcePeerMismatch(m.hostSessionId, peer)) && served.tables == t
            else true
  {
    hide Dispatch, TrackerAfter;
  }

  /** The same for the whole datagram of an admitted member, which has been seen by then. */
  lemma MessageRefused(sc: ServerConfig, s: ServerState, source: SocketAddr, packet: seq<Byte>, arrival: Time, now: Time, peer: PeerId)
    requires Inv(sc.router, s.tables) && Admitted(sc, s, source, packet, arrival, peer)
    ensures var handled, envelope := Handle(sc, s, source, packet, arrival, now), Decode(packet).value;
            var m, hosts := envelope.message, s.tables.hosts;
            && (!m.RelayProbe? && !Unrepeated(s.tracker, peer, envelope.meta.sequence) ==>
                  handled.result == Err(DuplicateSequence(envelope.meta.sequence)) && handled.state.tables == SeenAt(s.tables, peer, now))
            && (Unrepeated(s.tracker, peer, envelope.meta.sequence) ==>
                  && (m.DiscoveryToHost? || m.DiscoveryToClient? || m.GameplayToPeer? || m.RelayProbeAck? ==>
                        handled.result == Err(OutboundEnvelope) && handled.state.tables == SeenAt(s.tables, peer, now))
                  && (m.DiscoveryResponse? && m.hostSessionId !in hosts ==>
                        handled.result == Err(Router(HostNotFound(m.hostSessionId))) && handled.state.tables == SeenAt(s.tables, peer, now))
                  && (m.DiscoveryResponse? && m.hostSessionId in hosts && hosts[m.hostSessionId].peer != peer ==>
                        handled.result == Err(SourcePeerMismatch(m.hostSessionId, peer)) && handled.state.tables == SeenAt(s.tables, peer, now)))
  {
    hide Inv, Handle, Decode, Passes, Forward;
    MemberAdmitted(sc, s, source, packet, arrival, now, peer);
    ForwardRefuses(sc, SeenAt(s.tables, peer, now), s.tracker, peer, Decode(packet).value, now);
  }

  predicate DiscoveryPort(port: U16) {
    62900 <= port <= 62999
  }

  /** What a live host session of the room gets of a request. */
  predicate AskedOf(sc: ServerConfig, t: Tables, peer: PeerId, envelope: RelayEnvelope, now: Time, h: HostSessionId, d: OutboundDatagram)
    requires peer in t.peers && envelope.message.DiscoveryRequest?
  {
    var m := envelope.message;
    && h in t.hosts && t.hosts[h].room == t.peers[peer].room && now < t.hosts[h].expiresAt
    && d == OutboundDatagram(V4(t.hosts[h].ip, sc.relayPort), DiscoveryToHost(m.requestId, t.peers[peer].ip, m.port, m.payload), envelope.meta)
  }

  predicate DiscoveryTaken(sc: ServerConfig, t: Tables, tracker: Tracker, peer: PeerId, envelope: RelayEnvelope)
    requires peer in t.peers && envelope.message.DiscoveryRequest?
  {
    var m := envelope.message;
    && Unrepeated(tracker, peer, envelope.meta.sequence) && SmallEnough(sc.router, m.payload) && DiscoveryPort(m.port)
    && IdIsFree(t, t.peers[peer].room, peer, m.requestId, m.port)
  }

  lemma DiscoveryForwarded(sc: ServerConfig, t: Tables, tracker: Tracker, peer: PeerId, envelope: RelayEnvelope, now: Time)
    requires Inv(sc.router, t) && peer in t.peers && envelope.message.DiscoveryRequest?
    ensures var served, m := Forward(sc, t, tracker, peer, envelope, now), envelope.message;
            && (served.result.Ok? <==> DiscoveryTaken(sc, t, tracker, peer, envelope))
            && (served.result.Ok? ==>
                  && (forall d :: d in served.result.value <==> exists h :: AskedOf(sc, t, peer, envelope, now, h, d))
                  && served.tables == t.(discoveries := t.discoveries[m.requestId :=
                       Discovery(t.peers[peer].room, peer, m.port, now + sc.router.discoveryTtl)]))
  {
    hide Inv, TrackerAfter, Dispatch, LiveTargets;
    var m := envelope.message;
    ForwardRefuses(sc, t, tracker, peer, envelope, now);
    DispatchesDiscovery(sc.router, t, peer, m.requestId, m.port, m.payload, now);
    DiscoveryDispatched(sc, t, peer, envelope, now);
  }

  /** The fan-out, datagram by datagram. */
  lemma DiscoveryDispatched(sc: ServerConfig, t: Tables, peer: PeerId, envelope: RelayEnvelope, now: Time)
    requires peer in t.peers && envelope.message.DiscoveryRequest?
    ensures var m := envelope.message;
            var step := Dispatch(sc.router, t, DiscoveryIngress(peer, m.requestId, m.port, m.payload, now));
            step.result.Ok? ==>
              && step.tables == t.(discoveries := t.discoveries[m.requestId :=
                   Discovery(t.peers[peer].room, peer, m.port, now + sc.router.discoveryTtl)])
              && var sent := ActionDatagrams(step.tables.peers, step.result.value, sc.relayPort, envelope.meta);
              && sent.Ok? && forall d :: d in sent.value <==> exists h :: AskedOf(sc, t, peer, envelope, now, h, d)
  {
    hide BeginDiscovery, IdIsFree, SmallEnough;
    var m := envelope.message;
    var step := Dispatch(sc.router, t, DiscoveryIngress(peer, m.requestId, m.port, m.payload, now));
    DiscoverAnswers(sc.router, t, t.peers[peer].room, peer, m.requestId, m.port, now);
    if step.result.Ok? {
      var sent := ActionDatagrams(step.tables.peers, step.result.value, sc.relayPort, envelope.meta).value;
      forall d
        ensures d in sent <==> exists h :: AskedOf(sc, t, peer, envelope, now, h, d)
      {
        if d in sent {
          var target :| target in step.result.value.targets
                        && d == ToHost(target, m.requestId, t.peers[peer].ip, m.port, m.payload, sc.relayPort, envelope.meta);
          assert AskedOf(sc, t, peer, envelope, now, target.host, d);
        }
        if h :| AskedOf(sc, t, peer, envelope, now, h, d) {
          var target := DiscoveryTarget(h, t.hosts[h].peer, t.hosts[h].ip);
          assert target in step.result.value.targets;
          assert d == ToHost(target, m.requestId, t.peers[peer].ip, m.port, m.payload, sc.relayPort, envelope.meta);
        }
      }
    }
  }

  predicate ResponseTaken(sc: ServerConfig, t: Tables, tracker: Tracker, peer: PeerId, envelope: RelayEnvelope, now: Time)
    requires envelope.message.DiscoveryResponse?
  {
    var m := envelope.message;
    && Unrepeated(tracker, peer, envelope.meta.sequence) && SmallEnough(sc.router, m.payload) && DiscoveryPort(m.port)
    && m.hostSessionId in t.hosts && t.hosts[m.hostSessionId].peer == peer && now < t.hosts[m.hostSessionId].expiresAt
    && m.requestId in t.discoveries && now < t.discoveries[m.requestId].expiresAt
    && t.hosts[m.hostSessionId].room == t.discoveries[m.requestId].room
  }

  lemma ResponseForwarded(sc: ServerConfig, t: Tables, tracker: Tracker, peer: PeerId, envelope: RelayEnvelope, now: Time)
    requires Inv(sc.router, t) && peer in t.peers && envelope.message.DiscoveryResponse?
    ensures var served, m := Forward(sc, t, tracker, peer, envelope, now), envelope.message;
            && (served.result.Ok? <==> ResponseTaken(sc, t, tracker, peer, envelope, now))
            && (served.result.Ok? ==>
                  && t.discoveries[m.requestId].client in t.peers
                  && served.result == Ok({OutboundDatagram(V4(t.peers[t.discoveries[m.requestId].client].ip, sc.relayPort),
                                                           DiscoveryToClient(m.requestId, t.peers[peer].ip, m.port, m.payload), envelope.meta)}))
            && served.tables == t
  {
    hide Inv, TrackerAfter, Dispatch;
    var m := envelope.message;
    ForwardRefuses(sc, t, tracker, peer, envelope, now);
    DispatchesResponse(sc.router, t, m.hostSessionId, m.requestId, m.port, m.payload, now);
    DispatchedResponse(sc.router, t, m.hostSessionId, m.requestId, m.port, m.payload, now);
    if m.hostSessionId in t.hosts && m.requestId in t.discoveries {
      HostHasAddress(sc.router, t, m.hostSessionId);
      ClientIsMember(sc.router, t, m.requestId);
    }
  }

  lemma HostHasAddress(cfg: RouterConfig, t: Tables, h: HostSessionId)
    requires Inv(cfg, t) && h in t.hosts
    ensures IsMember(t.peers, t.hosts[h].room, t.hosts[h].peer, t.hosts[h].ip)
  {
    hide Inv;
    InvRoutes(cfg, t);
  }

  predicate IsEnd(g: Gameplay, peer: PeerId) {
    peer == g.client || peer == g.hostPeer
  }

  function OtherEnd(g: Gameplay, peer: PeerId): PeerId {
    if peer == g.client then g.hostPeer else g.client
  }

  predicate GameplayTaken(sc: ServerConfig, t: Tables, tracker: Tracker, peer: PeerId, envelope: RelayEnvelope, now: Time)
    requires envelope.message.GameplayPacket?
  {
    var m := envelope.message;
    && Unrepeated(tracker, peer, envelope.meta.sequence) && SmallEnough(sc.router, m.payload) && m.port == 62056
    && LiveGame(t, m.sessionId, now) && IsEnd(t.gameplay[m.sessionId], peer)
  }

  /** What the other end of a game gets of a packet. */
  function PacketTo(sc: ServerConfig, t: Tables, peer: PeerId, to: PeerId, envelope: RelayEnvelope): OutboundDatagram
    requires peer in t.peers && to in t.peers && envelope.message.GameplayPacket?
  {
    var m := envelope.message;
    OutboundDatagram(V4(t.peers[to].ip, sc.relayPort), GameplayToPeer(m.sessionId, t.peers[peer].ip, m.port, m.payload), envelope.meta)
  }

  /** A packet of a live game, from either end, goes to the other end as it is, and to nobody else. */
  lemma GameplayForwarded(sc: ServerConfig, t: Tables, tracker: Tracker, peer: PeerId, envelope: RelayEnvelope, now: Time)
    requires Inv(sc.router, t) && peer in t.peers && envelope.message.GameplayPacket?
    ensures var served, m := Forward(sc, t, tracker, peer, envelope, now), envelope.message;
            && (served.result.Ok? <==> GameplayTaken(sc, t, tracker, peer, envelope, now))
            && (served.result.Ok? ==>
                  && OtherEnd(t.gameplay[m.sessionId], peer) in t.peers
                  && served.result == Ok({PacketTo(sc, t, peer, OtherEnd(t.gameplay[m.sessionId], peer), envelope)})
                  && served.tables == t.(gameplay := t.gameplay[m.sessionId :=
                       t.gameplay[m.sessionId].(lastActivity := now, expiresAt := now + sc.router.gameplayIdleTtl)]))
  {
    hide Inv, TrackerAfter, Dispatch;
    var m := envelope.message;
    ForwardRefuses(sc, t, tracker, peer, envelope, now);
    DispatchesGameplay(sc.router, t, m.sessionId, peer, m.port, m.payload, now);
    DispatchedGameplay(sc.router, t, m.sessionId, peer, m.port, m.payload, now);
    if m.sessionId in t.gameplay {
      EndsAreMembers(sc.router, t, m.sessionId);
    }
    GameplayRenews(sc.router, t, m.sessionId, peer, m.port, m.payload, now);
  }

  lemma GameplayRenews(cfg: RouterConfig, t: Tables, g: GameplaySessionId, peer: PeerId, port: U16, payload: seq<Byte>, now: Time)
    ensures var step := Dispatch(cfg, t, GameplayIngress(g, peer, port, payload, now));
            step.result.Ok? ==> g in t.gameplay && step.tables == t.(gameplay := t.gameplay[g :=
              t.gameplay[g].(lastActivity := now, expiresAt := now + cfg.gameplayIdleTtl)])
  {
    hide RouteGameplay;
    RouteAnswers(cfg, t, g, peer, now);
  }

  // ---------------------------------------------------------------- from the datagram on

  /** Being seen changes nothing that the tests on messages look at. */
  lemma SeenKeeps(cfg: RouterConfig, t: Tables, peer: PeerId, now: Time)
    requires Inv(cfg, t) && Connected(t, peer)
    ensures var t' := SeenAt(t, peer, now);
            && Inv(cfg, t') && SameRoutes(t, t') && t'.rooms == t.rooms && t'.peers.Keys == t.peers.Keys
            && forall p :: p in t.peers ==> t'.peers[p].ip == t.peers[p].ip && t'.peers[p].room == t.peers[p].room
  {
    hide Inv;
    MarkPeerSeenOk(cfg, t, peer, now);
  }

  /** A discovery request is accepted, whole datagram considered, if and only if its sender is admitted and the
      request is new, small, for a discovery port and under a free id; and then every live host of the room, and
      nobody else, gets it. */
  lemma DiscoveryAccepted(sc: ServerConfig, s: ServerState, source: SocketAddr, packet: seq<Byte>, arrival: Time, now: Time, peer: PeerId)
    requires Inv(sc.router, s.tables) && Arrives(sc, s, source, packet, arrival, peer)
    requires Decode(packet).value.message.DiscoveryRequest?
    ensures var handled, envelope := Handle(sc, s, source, packet, arrival, now), Decode(packet).value;
            && (handled.result.Ok?
                <==> Admitted(sc, s, source, packet, arrival, peer) && DiscoveryTaken(sc, s.tables, s.tracker, peer, envelope))
            && (handled.result.Ok? ==>
                  && (forall d :: d in handled.result.value <==> exists h :: AskedOf(sc, s.tables, peer, envelope, now, h, d))
                  && handled.state.tables.discoveries == s.tables.discoveries[envelope.message.requestId :=
                       Discovery(s.tables.peers[peer].room, peer, envelope.message.port, now + sc.router.discoveryTtl)])
  {
    hide Inv, Handle, Decode, Passes, Forward;
    var envelope := Decode(packet).value;
    MemberAdmitted(sc, s, source, packet, arrival, now, peer);
    if Admitted(sc, s, source, packet, arrival, peer) {
      SeenKeeps(sc.router, s.tables, peer, now);
      var seen := SeenAt(s.tables, peer, now);
      DiscoveryForwarded(sc, seen, s.tracker, peer, envelope, now);
      assert forall h, d :: AskedOf(sc, seen, peer, envelope, now, h, d) <==> AskedOf(sc, s.tables, peer, envelope, now, h, d);
    }
  }

  lemma ResponseAccepted(sc: ServerConfig, s: ServerState, source: SocketAddr, packet: seq<Byte>, arrival: Time, now: Time, peer: PeerId)
    requires Inv(sc.router, s.tables) && Arrives(sc, s, source, packet, arrival, peer)
    requires Decode(packet).value.message.DiscoveryResponse?
    ensures var handled, envelope := Handle(sc, s, source, packet, arrival, now), Decode(packet).value;
            var m := envelope.message;
            && (handled.result.Ok?
                <==> Admitted(sc, s, source, packet, arrival, peer) && ResponseTaken(sc, s.tables, s.tracker, peer, envelope, now))
            && (handled.result.Ok? ==>
                  && s.tables.discoveries[m.requestId].client in s.tables.peers
                  && handled.result == Ok({OutboundDatagram(V4(s.tables.peers[s.tables.discoveries[m.requestId].client].ip, sc.relayPort),
                                                            DiscoveryToClient(m.requestId, source.ip, m.port, m.payload), envelope.meta)}))
  {
    hide Inv, Handle, Decode, Passes, Forward;
    MemberAdmitted(sc, s, source, packet, arrival, now, peer);
    if Admitted(sc, s, source, packet, arrival, peer) {
      SeenKeeps(sc.router, s.tables, peer, now);
      ResponseForwarded(sc, SeenAt(s.tables, peer, now), s.tracker, peer, Decode(packet).value, now);
    }
  }

  /** A gameplay packet is accepted, whole datagram considered, if and only if its sender is admitted and one of
      the two ends of a live game, and the packet is new, small and on the game's port; and then the other end,
      and nobody else, gets it. */
  lemma GameplayAccepted(sc: ServerConfig, s: ServerState, source: SocketAddr, packet: seq<Byte>, arrival: Time, now: Time, peer: PeerId)
    requires Inv(sc.router, s.tables) && Arrives(sc, s, source, packet, arrival, peer)
    requires Decode(packet).value.message.GameplayPacket?
    ensures var handled, envelope := Handle(sc, s, source, packet, arrival, now), Decode(packet).value;
            var g := envelope.message.sessionId;
            && (handled.result.Ok?
                <==> Admitted(sc, s, source, packet, arrival, peer) && GameplayTaken(sc, s.tables, s.tracker, peer, envelope, now))
            && (handled.result.Ok? ==>
                  && OtherEnd(s.tables.gameplay[g], peer) in s.tables.peers
                  && handled.result == Ok({PacketTo(sc, s.tables, peer, OtherEnd(s.tables.gameplay[g], peer), envelope)})
                  && handled.state.tables.gameplay == s.tables.gameplay[g :=
                       s.tables.gameplay[g].(lastActivity := now, expiresAt := now + sc.router.gameplayIdleTtl)])
  {
    hide Inv, Handle, Decode, Passes, Forward;
    MemberAdmitted(sc, s, source, packet, arrival, now, peer);
    if Admitted(sc, s, source, packet, arrival, peer) {
      SeenKeeps(sc.router, s.tables, peer, now);
      GameplayForwarded(sc, SeenAt(s.tables, peer, now), s.tracker, peer, Decode(packet).value, now);
    }
  }
}
