/** A discovery request and its reply, with anything at all happening on the server in between. */
module DiscoveryTrips {
  import opened Protocol
  import opened Codec
  import opened RouterTables
  import opened RouterInvariant
  import opened RouterRuns
  import opened PeerLeases
  import opened RateLimiter
  import opened Relay
  import opened ServerRuns
  import opened ConnectionEpochs
  import opened DiscoveryRuns

  // ---------------------------------------------------------------- what one event keeps

  predicate KeepsRequest(t: Tables, t': Tables, request: DiscoveryRequestId)
    requires request in t.discoveries
  {
    && t'.hosts == t.hosts && request in t'.discoveries
    && var d := t.discoveries[request];
    SameRequest(t'.discoveries[request], d.room, d.client, d.port)
  }

  lemma DiscoveryKeepsRequest(cfg: RouterConfig, t: Tables, room: RoomId, client: PeerId, id: DiscoveryRequestId, port: U16, now: Time,
                              request: DiscoveryRequestId)
    requires request in t.discoveries
    ensures KeepsRequest(t, BeginDiscovery(cfg, t, room, client, id, port, now).tables, request)
  {
  }

  lemma GameplayKeepsRequest(cfg: RouterConfig, t: Tables, session: GameplaySessionId, source: PeerId, now: Time, request: DiscoveryRequestId)
    requires request in t.discoveries
    ensures KeepsRequest(t, RouteGameplay(cfg, t, session, source, now).tables, request)
  {
  }

  lemma DispatchKeepsRequest(cfg: RouterConfig, t: Tables, ingress: RelayIngress, request: DiscoveryRequestId)
    requires request in t.discoveries
    ensures KeepsRequest(t, Dispatch(cfg, t, ingress).tables, request)
  {
    hide Dispatch, BeginDiscovery, RouteGameplay;
    DispatchTables(cfg, t, ingress);
    match ingress {
      case DiscoveryIngress(source, id, port, _, now) =>
        if source in t.peers {
          DiscoveryKeepsRequest(cfg, t, t.peers[source].room, source, id, port, now, request);
        }
      case ResponseIngress(_, _, _, _, _) =>
      case GameplayIngress(session, source, _, _, now) =>
        GameplayKeepsRequest(cfg, t, session, source, now, request);
    }
  }

  lemma ForwardKeepsRequest(sc: ServerConfig, t: Tables, tracker: Tracker, peer: PeerId, envelope: RelayEnvelope, now: Time,
                            request: DiscoveryRequestId)
    requires request in t.discoveries
    ensures KeepsRequest(t, Forward(sc, t, tracker, peer, envelope, now).tables, request)
  {
    hide Dispatch, TrackerAfter, Disposition, ActionDatagrams, KeepsRequest;
    var ingress := IngressOf(t.hosts, peer, envelope.message, now);
    RequestKept(t, request);
    if ingress.Ok? {
      DispatchKeepsRequest(sc.router, t, ingress.value, request);
    }
  }

  lemma RequestKept(t: Tables, request: DiscoveryRequestId)
    requires request in t.discoveries
    ensures KeepsRequest(t, t, request)
  {
  }

  lemma HandleKeepsRequest(sc: ServerConfig, s: ServerState, source: SocketAddr, packet: seq<Byte>, arrival: Time, now: Time,
                           request: DiscoveryRequestId)
    requires request in s.tables.discoveries
    ensures KeepsRequest(s.tables, Handle(sc, s, source, packet, arrival, now).state.tables, request)
  {
    hide Decode, Forward, Passes, EntriesAfter;
    if Decode(packet).Ok? && source.V4? && PeerWithIp(s.tables.peers, source.ip).Some? {
      var peer, envelope := PeerWithIp(s.tables.peers, source.ip).value, Decode(packet).value;
      ForwardKeepsRequest(sc, MarkPeerSeen(s.tables, peer, now).tables, s.tracker, peer, envelope, now, request);
    }
  }

  lemma RegisterKeepsOwner(cfg: RouterConfig, t: Tables, room: RoomId, peer: PeerId, newHost: HostSessionId, now: Time, h: HostSessionId)
    requires newHost !in t.hosts && h in t.hosts && h in RegisterHost(cfg, t, room, peer, newHost, now).tables.hosts
    ensures SameHost(RegisterHost(cfg, t, room, peer, newHost, now).tables.hosts[h], t.hosts[h])
  {
  }

  /** While a host session is there, it is of one room, one peer and one address. */
  lemma HostKeepsOwner(cfg: RouterConfig, t: Tables, op: Op, h: HostSessionId)
    requires DrawsFresh(t, op) && h in t.hosts && h in Apply(cfg, t, op).hosts
    ensures SameHost(Apply(cfg, t, op).hosts[h], t.hosts[h])
  {
    hide RegisterHost;
    if op.RegisterOp? {
      RegisterKeepsOwner(cfg, t, op.room, op.peer, op.newHost, op.now, h);
    }
  }

  /** Request, host session and client are, after the event, the ones they were. */
  predicate StillOpen(t: Tables, t': Tables, request: DiscoveryRequestId, host: HostSessionId) {
    && request in t.discoveries && request in t'.discoveries && host in t.hosts && host in t'.hosts
    && SameHost(t'.hosts[host], t.hosts[host])
    && var d := t.discoveries[request];
    && SameRequest(t'.discoveries[request], d.room, d.client, d.port)
    && d.client in t.peers && d.client in t'.peers && t'.peers[d.client].ip == t.peers[d.client].ip
  }

  lemma MemberKeepsAddress(cfg: RouterConfig, t: Tables, op: Op, peer: PeerId)
    requires Inv(cfg, t) && peer in t.peers && peer in Apply(cfg, t, op).peers
    ensures Apply(cfg, t, op).peers[peer].ip == t.peers[peer].ip
  {
    hide Inv, Apply;
    PeerEvolvesAlone(cfg, t, op, peer);
    PeerLeaseOk(cfg, t, peer);
    StepHolds(cfg, t.peers[peer], op, peer);
  }

  lemma EventKeepsOpen(sc: ServerConfig, s: ServerState, e: ServerEvent, request: DiscoveryRequestId, host: HostSessionId)
    requires Inv(sc.router, s.tables) && (e.Control? ==> DrawsFresh(s.tables, e.op))
    requires request in s.tables.discoveries && host in s.tables.hosts
    requires request in Next(sc, s, e).tables.discoveries && host in Next(sc, s, e).tables.hosts
    ensures StillOpen(s.tables, Next(sc, s, e).tables, request, host)
  {
    hide Inv, Handle, Apply;
    var client := s.tables.discoveries[request].client;
    ClientIsMember(sc.router, s.tables, request);
    match e {
      case Datagram(source, packet, arrival, now) =>
        HandleKeepsRequest(sc, s, source, packet, arrival, now, request);
        HandleKeepsMembers(sc, s, source, packet, arrival, now);
      case Control(op) =>
        RequestKeepsItsOwner(sc.router, s.tables, op, request);
        HostKeepsOwner(sc.router, s.tables, op, host);
        ApplyOk(sc.router, s.tables, op);
        ClientIsMember(sc.router, Apply(sc.router, s.tables, op), request);
        MemberKeepsAddress(sc.router, s.tables, op, client);
    }
  }

  // ---------------------------------------------------------------- any events in between

  /** After each of the events the request is still cached and the host session still registered. */
  ghost predicate KeptOpen(sc: ServerConfig, s: ServerState, events: seq<ServerEvent>, request: DiscoveryRequestId, host: HostSessionId) {
    var t := ServerRun(sc, s, events).tables;
    request in t.discoveries && host in t.hosts && (events != [] ==> KeptOpen(sc, s, events[..|events| - 1], request, host))
  }

  lemma {:induction false} EventsKeepOpen(sc: ServerConfig, s: ServerState, events: seq<ServerEvent>, request: DiscoveryRequestId,
                                          host: HostSessionId)
    requires Inv(sc.router, s.tables) && FreshEvents(sc, s, events) && KeptOpen(sc, s, events, request, host)
    ensures StillOpen(s.tables, ServerRun(sc, s, events).tables, request, host)
  {
    hide Inv, Next;
    if events == [] {
      ClientIsMember(sc.router, s.tables, request);
    } else {
      var n := |events| - 1;
      FreshEventsPrefix(sc, s, events, n);
      EventsKeepOpen(sc, s, events[..n], request, host);
      ServerRunOk(sc, s, events[..n]);
      EventKeepsOpen(sc, ServerRun(sc, s, events[..n]), events[n], request, host);
    }
  }

  /** The server right after it has forwarded a client's request. */
  ghost function Asked(sc: ServerConfig, s: ServerState, client: PeerId, asks: RelayEnvelope, now: Time): ServerState {
    var served := Forward(sc, s.tables, s.tracker, client, asks, now);
    ServerState(served.tables, s.entries, served.tracker)
  }

  /** There and back: the client's request reaches the host; and whatever datagrams, operations and sweeps
      come in between, as long as they leave the request and the host session there, what the host answers
      within the leases reaches the client, at the address it asked from, and nobody else. */
  lemma DiscoveryRoundTrip(sc: ServerConfig, s: ServerState, client: PeerId, asks: RelayEnvelope, now: Time,
                           events: seq<ServerEvent>, reply: RelayEnvelope, later: Time)
    requires Inv(sc.router, s.tables) && client in s.tables.peers && asks.message.DiscoveryRequest?
    requires NotRepeated(s.tracker, client, asks) && NotConflicting(s.tables, client, asks)
    requires IsDiscoveryPort(asks.message.port) && PayloadOk(sc.router, asks.message.payload)
    requires reply.message.DiscoveryResponse? && reply.message.requestId == asks.message.requestId
    requires IsDiscoveryPort(reply.message.port) && PayloadOk(sc.router, reply.message.payload)
    requires reply.message.hostSessionId in s.tables.hosts
    requires s.tables.hosts[reply.message.hostSessionId].room == s.tables.peers[client].room
    requires now < s.tables.hosts[reply.message.hostSessionId].expiresAt
    requires FreshEvents(sc, Asked(sc, s, client, asks, now), events)
    requires KeptOpen(sc, Asked(sc, s, client, asks, now), events, asks.message.requestId, reply.message.hostSessionId)
    requires var s' := ServerRun(sc, Asked(sc, s, client, asks, now), events);
             && later < s'.tables.hosts[reply.message.hostSessionId].expiresAt
             && later < s'.tables.discoveries[asks.message.requestId].expiresAt
             && NotRepeated(s'.tracker, s'.tables.hosts[reply.message.hostSessionId].peer, reply)
    ensures var host, served := s.tables.hosts[reply.message.hostSessionId], Forward(sc, s.tables, s.tracker, client, asks, now);
            var s', clientIp := ServerRun(sc, Asked(sc, s, client, asks, now), events), s.tables.peers[client].ip;
            && served.result.Ok?
            && OutboundDatagram(V4(host.ip, sc.relayPort),
                                DiscoveryToHost(asks.message.requestId, clientIp, asks.message.port, asks.message.payload),
                                asks.meta) in served.result.value
            && Forward(sc, s'.tables, s'.tracker, host.peer, reply, later).result
               == Ok({OutboundDatagram(V4(clientIp, sc.relayPort),
                                       DiscoveryToClient(asks.message.requestId, host.ip, reply.message.port, reply.message.payload),
                                       reply.meta)})
  {
    hide Inv, ServerRun, FreshEvents;
    var request, host := asks.message.requestId, reply.message.hostSessionId;
    RequestReachesHost(sc, s.tables, s.tracker, client, asks, now, host);
    ForwardOk(sc, s.tables, s.tracker, client, asks, now);
    hide Forward;
    var s1 := Asked(sc, s, client, asks, now);
    EventsKeepOpen(sc, s1, events, request, host);
    ServerRunOk(sc, s1, events);
    var s' := ServerRun(sc, s1, events);
    ReplyComesBack(sc, s'.tables, s'.tracker, reply, later);
  }
}
