/** Whole datagrams there and back, with anything at all happening on the server in between. */
module RoundTrips {
  import opened Protocol
  import opened Codec
  import opened RouterTables
  import opened RouterInvariant
  import opened RouterRuns
  import opened Relay
  import opened ServerRuns
  import opened ConnectionEpochs
  import opened DiscoveryTrips
  import opened RouterAnswers
  import opened Acceptance

  // ---------------------------------------------------------------- what one event keeps of a game

  /** The game is between the same two members, at the same addresses. */
  predicate SameEnds(t: Tables, t': Tables, g: GameplaySessionId) {
    && g in t.gameplay && g in t'.gameplay
    && t'.gameplay[g] == t.gameplay[g].(lastActivity := t'.gameplay[g].lastActivity, expiresAt := t'.gameplay[g].expiresAt)
  }

  lemma DispatchKeepsGame(cfg: RouterConfig, t: Tables, ingress: RelayIngress, g: GameplaySessionId)
    requires g in t.gameplay
    ensures SameEnds(t, Dispatch(cfg, t, ingress).tables, g)
  {
    hide Dispatch, BeginDiscovery, RouteGameplay;
    DispatchTables(cfg, t, ingress);
    match ingress {
      case DiscoveryIngress(source, id, port, _, now) =>
        if source in t.peers {
          DiscoverAnswers(cfg, t, t.peers[source].room, source, id, port, now);
        }
      case ResponseIngress(_, _, _, _, _) =>
      case GameplayIngress(session, source, _, _, now) =>
        RouteAnswers(cfg, t, session, source, now);
    }
  }

  lemma ForwardKeepsGame(sc: ServerConfig, t: Tables, tracker: Tracker, peer: PeerId, envelope: RelayEnvelope, now: Time,
                         g: GameplaySessionId)
    requires g in t.gameplay
    ensures SameEnds(t, Forward(sc, t, tracker, peer, envelope, now).tables, g)
  {
    hide Dispatch, TrackerAfter, Disposition, ActionDatagrams;
    var ingress := IngressOf(t.hosts, peer, envelope.message, now);
    if ingress.Ok? {
      DispatchKeepsGame(sc.router, t, ingress.value, g);
    }
  }

  lemma HandleKeepsGame(sc: ServerConfig, s: ServerState, source: SocketAddr, packet: seq<Byte>, arrival: Time, now: Time,
                        g: GameplaySessionId)
    requires g in s.tables.gameplay
    ensures SameEnds(s.tables, Handle(sc, s, source, packet, arrival, now).state.tables, g)
  {
    hide Decode, Forward, Passes;
    if Decode(packet).Ok? && source.V4? && PeerWithIp(s.tables.peers, source.ip).Some? {
      var peer, envelope := PeerWithIp(s.tables.peers, source.ip).value, Decode(packet).value;
      ForwardKeepsGame(sc, MarkPeerSeen(s.tables, peer, now).tables, s.tracker, peer, envelope, now, g);
    }
  }

  /** A selection that draws the id of a game that is there. */
  predicate Redraws(e: ServerEvent, g: GameplaySessionId) {
    e.Control? && e.op.SelectOp? && e.op.newSession == g
  }

  lemma EventKeepsGame(sc: ServerConfig, s: ServerState, e: ServerEvent, g: GameplaySessionId)
    requires Inv(sc.router, s.tables) && g in s.tables.gameplay && g in Next(sc, s, e).tables.gameplay && !Redraws(e, g)
    ensures SameEnds(s.tables, Next(sc, s, e).tables, g)
  {
    hide Inv, Handle, Apply;
    match e {
      case Datagram(source, packet, arrival, now) => HandleKeepsGame(sc, s, source, packet, arrival, now, g);
      case Control(op) => OriginIsTheSelectedHost(sc.router, s.tables, op, g);
    }
  }

  /** After each of the events the game is still there, and none of them draws its id again. */
  ghost predicate KeptPlaying(sc: ServerConfig, s: ServerState, events: seq<ServerEvent>, g: GameplaySessionId) {
    && g in ServerRun(sc, s, events).tables.gameplay
    && (events != [] ==> !Redraws(events[|events| - 1], g) && KeptPlaying(sc, s, events[..|events| - 1], g))
  }

  lemma {:induction false} EventsKeepGame(sc: ServerConfig, s: ServerState, events: seq<ServerEvent>, g: GameplaySessionId)
    requires Inv(sc.router, s.tables) && FreshEvents(sc, s, events) && KeptPlaying(sc, s, events, g)
    ensures SameEnds(s.tables, ServerRun(sc, s, events).tables, g)
  {
    hide Inv, Next;
    if events != [] {
      var n := |events| - 1;
      FreshEventsPrefix(sc, s, events, n);
      EventsKeepGame(sc, s, events[..n], g);
      ServerRunOk(sc, s, events[..n]);
      EventKeepsGame(sc, ServerRun(sc, s, events[..n]), events[n], g);
    }
  }

  // ---------------------------------------------------------------- games

  /** A gameplay packet of `g` in a datagram that its sender may send, new, small and on the game's port. */
  predicate Plays(sc: ServerConfig, s: ServerState, source: SocketAddr, packet: seq<Byte>, arrival: Time, peer: PeerId, g: GameplaySessionId) {
    && Admitted(sc, s, source, packet, arrival, peer)
    && var envelope := Decode(packet).value;
    && envelope.message.GameplayPacket? && envelope.message.sessionId == g && envelope.message.port == 62056
    && SmallEnough(sc.router, envelope.message.payload) && Unrepeated(s.tracker, peer, envelope.meta.sequence)
  }

  /** What comes out at `to` of a packet that came in from `from`. */
  function Passed(sc: ServerConfig, from: VirtualIp, to: VirtualIp, packet: seq<Byte>): OutboundDatagram
    requires Decode(packet).Ok? && Decode(packet).value.message.GameplayPacket?
  {
    var envelope := Decode(packet).value;
    OutboundDatagram(V4(to, sc.relayPort), GameplayToPeer(envelope.message.sessionId, from, envelope.message.port, envelope.message.payload),
                     envelope.meta)
  }

  lemma PacketArrives(sc: ServerConfig, s: ServerState, source: SocketAddr, packet: seq<Byte>, arrival: Time, now: Time, peer: PeerId,
                      g: GameplaySessionId)
    requires Inv(sc.router, s.tables) && Plays(sc, s, source, packet, arrival, peer, g)
    requires LiveGame(s.tables, g, now) && IsEnd(s.tables.gameplay[g], peer)
    ensures var game, result := s.tables.gameplay[g], Handle(sc, s, source, packet, arrival, now).result;
            && result == Ok({Passed(sc, source.ip, if peer == game.client then game.hostIp else game.clientIp, packet)})
            && source.ip == if peer == game.client then game.clientIp else game.hostIp
  {
    hide Inv, Handle, Decode, Passes;
    EndsAreMembers(sc.router, s.tables, g);
    GameplayAccepted(sc, s, source, packet, arrival, now, peer);
  }

  /** A game works both ways: what the client sends arrives at the host peer; and whatever datagrams, operations
      and sweeps come in between, as long as they leave the game there and live, what the host peer sends arrives
      at the client, at the address it sent from. Each arrives there alone and unaltered. */
  lemma GameplayRoundTrip(sc: ServerConfig, s: ServerState, g: GameplaySessionId,
                          source: SocketAddr, packet: seq<Byte>, arrival: Time, now: Time, events: seq<ServerEvent>,
                          source': SocketAddr, packet': seq<Byte>, arrival': Time, now': Time)
    requires Inv(sc.router, s.tables) && LiveGame(s.tables, g, now)
    requires Plays(sc, s, source, packet, arrival, s.tables.gameplay[g].client, g)
    requires var s1 := Handle(sc, s, source, packet, arrival, now).state;
             && FreshEvents(sc, s1, events) && KeptPlaying(sc, s1, events, g)
             && LiveGame(ServerRun(sc, s1, events).tables, g, now')
             && Plays(sc, ServerRun(sc, s1, events), source', packet', arrival', s.tables.gameplay[g].hostPeer, g)
    requires s.tables.gameplay[g].client != s.tables.gameplay[g].hostPeer
    ensures var s1, game := Handle(sc, s, source, packet, arrival, now).state, s.tables.gameplay[g];
            && source.ip == game.clientIp && source'.ip == game.hostIp
            && Handle(sc, s, source, packet, arrival, now).result == Ok({Passed(sc, source.ip, source'.ip, packet)})
            && Handle(sc, ServerRun(sc, s1, events), source', packet', arrival', now').result
               == Ok({Passed(sc, source'.ip, source.ip, packet')})
  {
    hide Inv, Handle, Decode, Passes, ServerRun, FreshEvents;
    var s1 := Handle(sc, s, source, packet, arrival, now).state;
    var s2 := ServerRun(sc, s1, events);
    HandleOk(sc, s, source, packet, arrival, now);
    HandleKeepsGame(sc, s, source, packet, arrival, now, g);
    EventsKeepGame(sc, s1, events, g);
    ServerRunOk(sc, s1, events);
    hide Plays;
    PacketArrives(sc, s, source, packet, arrival, now, s.tables.gameplay[g].client, g);
    PacketArrives(sc, s2, source', packet', arrival', now', s.tables.gameplay[g].hostPeer, g);
  }

  // ---------------------------------------------------------------- discovery

  /** A reply to `request` by host session `h`, in a datagram that its sender may send. */
  predicate Replies(sc: ServerConfig, s: ServerState, source: SocketAddr, packet: seq<Byte>, arrival: Time, peer: PeerId,
                    request: DiscoveryRequestId, h: HostSessionId)
  {
    && Admitted(sc, s, source, packet, arrival, peer)
    && var envelope := Decode(packet).value;
    && envelope.message.DiscoveryResponse? && envelope.message.requestId == request && envelope.message.hostSessionId == h
    && DiscoveryPort(envelope.message.port) && SmallEnough(sc.router, envelope.message.payload)
    && Unrepeated(s.tracker, peer, envelope.meta.sequence)
  }

  predicate InLease(t: Tables, request: DiscoveryRequestId, h: HostSessionId, now: Time) {
    request in t.discoveries && now < t.discoveries[request].expiresAt && h in t.hosts && now < t.hosts[h].expiresAt
  }

  /** The client's datagram is accepted and asks every live host session of its room; and what one of them answers
      in a datagram while both leases run arrives at the client, whatever came in between. */
  lemma DiscoveryDatagramsRoundTrip(sc: ServerConfig, s: ServerState, client: PeerId, h: HostSessionId,
                                    source: SocketAddr, packet: seq<Byte>, arrival: Time, now: Time, events: seq<ServerEvent>,
                                    source': SocketAddr, packet': seq<Byte>, arrival': Time, now': Time)
    requires Inv(sc.router, s.tables) && Admitted(sc, s, source, packet, arrival, client)
    requires Decode(packet).value.message.DiscoveryRequest?
    requires DiscoveryTaken(sc, s.tables, s.tracker, client, Decode(packet).value)
    requires h in s.tables.hosts && s.tables.hosts[h].room == s.tables.peers[client].room && now < s.tables.hosts[h].expiresAt
    requires var s1, request := Handle(sc, s, source, packet, arrival, now).state, Decode(packet).value.message.requestId;
             && FreshEvents(sc, s1, events) && KeptOpen(sc, s1, events, request, h)
             && InLease(ServerRun(sc, s1, events).tables, request, h, now')
             && Replies(sc, ServerRun(sc, s1, events), source', packet', arrival', s.tables.hosts[h].peer, request, h)
    ensures var s1, asks, reply := Handle(sc, s, source, packet, arrival, now).state, Decode(packet).value, Decode(packet').value;
            && Handle(sc, s, source, packet, arrival, now).result.Ok?
            && OutboundDatagram(V4(s.tables.hosts[h].ip, sc.relayPort),
                                DiscoveryToHost(asks.message.requestId, source.ip, asks.message.port, asks.message.payload), asks.meta)
               in Handle(sc, s, source, packet, arrival, now).result.value
            && Handle(sc, ServerRun(sc, s1, events), source', packet', arrival', now').result
               == Ok({OutboundDatagram(V4(source.ip, sc.relayPort),
                                       DiscoveryToClient(asks.message.requestId, s.tables.hosts[h].ip, reply.message.port, reply.message.payload),
                                       reply.meta)})
  {
    hide Inv, Handle, Decode, Passes, ServerRun, FreshEvents;
    var s1, request := Handle(sc, s, source, packet, arrival, now).state, Decode(packet).value.message.requestId;
    var s2 := ServerRun(sc, s1, events);
    HandleOk(sc, s, source, packet, arrival, now);
    EventsKeepOpen(sc, s1, events, request, h);
    ServerRunOk(sc, s1, events);
    RequestOut(sc, s, client, h, source, packet, arrival, now);
    HostHasAddress(sc.router, s2.tables, h);
    ResponseAccepted(sc, s2, source', packet', arrival', now', s.tables.hosts[h].peer);
  }

  lemma RequestOut(sc: ServerConfig, s: ServerState, client: PeerId, h: HostSessionId, source: SocketAddr, packet: seq<Byte>,
                   arrival: Time, now: Time)
    requires Inv(sc.router, s.tables) && Admitted(sc, s, source, packet, arrival, client)
    requires Decode(packet).value.message.DiscoveryRequest?
    requires DiscoveryTaken(sc, s.tables, s.tracker, client, Decode(packet).value)
    requires h in s.tables.hosts && s.tables.hosts[h].room == s.tables.peers[client].room && now < s.tables.hosts[h].expiresAt
    ensures var handled, asks := Handle(sc, s, source, packet, arrival, now), Decode(packet).value;
            var t := handled.state.tables;
            && handled.result.Ok?
            && OutboundDatagram(V4(s.tables.hosts[h].ip, sc.relayPort),
                                DiscoveryToHost(asks.message.requestId, source.ip, asks.message.port, asks.message.payload), asks.meta)
               in handled.result.value
            && h in t.hosts && t.hosts[h] == s.tables.hosts[h]
            && client in t.peers && t.peers[client].ip == source.ip
            && asks.message.requestId in t.discoveries && t.discoveries[asks.message.requestId].client == client
            && t.discoveries[asks.message.requestId].room == s.tables.peers[client].room
  {
    hide Inv, Handle, Decode, Passes;
    var asks := Decode(packet).value;
    DiscoveryAccepted(sc, s, source, packet, arrival, now, client);
    HandleKeepsMembers(sc, s, source, packet, arrival, now);
    var d := OutboundDatagram(V4(s.tables.hosts[h].ip, sc.relayPort),
                              DiscoveryToHost(asks.message.requestId, source.ip, asks.message.port, asks.message.payload), asks.meta);
    assert AskedOf(sc, s.tables, client, asks, now, h, d);
    HostsStayWhenAsked(sc, s, source, packet, arrival, now, client);
  }

  lemma HostsStayWhenAsked(sc: ServerConfig, s: ServerState, source: SocketAddr, packet: seq<Byte>, arrival: Time, now: Time, client: PeerId)
    requires Inv(sc.router, s.tables) && Admitted(sc, s, source, packet, arrival, client)
    requires Decode(packet).value.message.DiscoveryRequest?
    requires DiscoveryTaken(sc, s.tables, s.tracker, client, Decode(packet).value)
    ensures Handle(sc, s, source, packet, arrival, now).state.tables.hosts == s.tables.hosts
  {
    hide Inv, Handle, Decode, Passes, Forward;
    MemberAdmitted(sc, s, source, packet, arrival, now, client);
    SeenKeeps(sc.router, s.tables, client, now);
    DiscoveryForwarded(sc, SeenAt(s.tables, client, now), s.tracker, client, Decode(packet).value, now);
  }
}
