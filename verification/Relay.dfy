/** What the UDP dispatcher of server/src/relay.rs does to the server state on one datagram. */
module Relay {
  import opened Protocol
  import opened Codec
  import opened RouterTables
  import opened RouterRuns
  import opened RateLimiter

  datatype OutboundDatagram = OutboundDatagram(destination: SocketAddr, message: RelayMessage, meta: RelayEnvelopeMeta)

  datatype RelayError =
    | MalformedPacket(codec: CodecError)
    | OutboundEnvelope
    | InvalidSource(source: SocketAddr)
    | UnknownSource(ip: VirtualIp)
    | StaleConnectionEpoch(received: U64, current: U64)
    | RateLimited
    | DuplicateSequence(sequence: U64)
    | SourcePeerMismatch(host: HostSessionId, peer: PeerId)
    | Router(error: RouterError)

  const UNSPECIFIED: VirtualIp := VirtualIp(0, 0, 0, 0)

  // ---------------------------------------------------------------- sequence numbers

  datatype SequenceDisposition = Legacy | New | Reordered | Duplicate

  type Tracker = map<PeerId, U64>

  const MAX_SEQUENCE_TRACKERS: nat := 65536

  function Disposition(tracker: Tracker, peer: PeerId, sequence: U64): SequenceDisposition {
    if sequence == 0 then Legacy
    else if peer !in tracker || sequence > tracker[peer] then New
    else if sequence == tracker[peer] then Duplicate
    else Reordered
  }

  function TrackerAfter(tracker: Tracker, peer: PeerId, sequence: U64): Tracker {
    if Disposition(tracker, peer, sequence) != New then tracker
    else if peer in tracker || |tracker| < MAX_SEQUENCE_TRACKERS then tracker[peer := sequence]
    else map[peer := sequence]
  }

  // ---------------------------------------------------------------- one datagram

  datatype ServerConfig = ServerConfig(router: RouterConfig, limit: nat, window: Duration, relayPort: U16)

  datatype ServerState = ServerState(tables: Tables, entries: Entries<VirtualIp>, tracker: Tracker)

  /** The state after a datagram, and what goes out: a set here, a list in the program. */
  datatype Handled = Handled(state: ServerState, result: Result<set<OutboundDatagram>, RelayError>)

  /** Which router input a message from `peer` stands for. */
  function IngressOf(hosts: Hosts, peer: PeerId, message: RelayMessage, now: Time): Result<RelayIngress, RelayError> {
    match message
    case DiscoveryRequest(request, port, payload) => Ok(DiscoveryIngress(peer, request, port, payload, now))
    case DiscoveryResponse(request, host, port, payload) =>
      if host !in hosts then Err(Router(HostNotFound(host)))
      else if hosts[host].peer != peer then Err(SourcePeerMismatch(host, peer))
      else Ok(ResponseIngress(host, request, port, payload, now))
    case GameplayPacket(session, port, payload) => Ok(GameplayIngress(session, peer, port, payload, now))
    case _ => Err(OutboundEnvelope)
  }

  function ToHost(target: DiscoveryTarget, request: DiscoveryRequestId, sourceIp: VirtualIp, port: U16, payload: seq<Byte>,
                  relayPort: U16, meta: RelayEnvelopeMeta): OutboundDatagram
  {
    OutboundDatagram(V4(target.ip, relayPort), DiscoveryToHost(request, sourceIp, port, payload), meta)
  }

  function ActionDatagrams(peers: Peers, action: RelayAction<set<DiscoveryTarget>>, relayPort: U16, meta: RelayEnvelopeMeta)
    : Result<set<OutboundDatagram>, RelayError>
  {
    match action
    case DiscoveryFanout(request, source, port, targets, payload) =>
      if source !in peers then Err(UnknownSource(UNSPECIFIED))
      else Ok(set target | target in targets :: ToHost(target, request, peers[source].ip, port, payload, relayPort, meta))
    case DiscoveryUnicast(request, destination, sourceIp, port, payload) =>
      if destination !in peers then Err(UnknownSource(UNSPECIFIED))
      else Ok({OutboundDatagram(V4(peers[destination].ip, relayPort), DiscoveryToClient(request, sourceIp, port, payload), meta)})
    case GameplayUnicast(route, port, payload) =>
      if route.source !in peers then Err(UnknownSource(UNSPECIFIED))
      else Ok({OutboundDatagram(V4(route.destinationIp, relayPort),
                                GameplayToPeer(route.session, peers[route.source].ip, port, payload), meta)})
  }

  datatype Served = Served(tables: Tables, tracker: Tracker, result: Result<set<OutboundDatagram>, RelayError>)

  /** From the sequence check on: the source is a connected peer, already marked seen. */
  function Forward(sc: ServerConfig, t: Tables, tracker: Tracker, peer: PeerId, envelope: RelayEnvelope, now: Time): Served {
    var tracker' := TrackerAfter(tracker, peer, envelope.meta.sequence);
    var ingress := IngressOf(t.hosts, peer, envelope.message, now);
    if Disposition(tracker, peer, envelope.meta.sequence) == Duplicate then
      Served(t, tracker', Err(DuplicateSequence(envelope.meta.sequence)))
    else if ingress.Err? then Served(t, tracker', Err(ingress.error))
    else
      var step := Dispatch(sc.router, t, ingress.value);
      Served(step.tables, tracker',
             if step.result.Err? then Err(Router(step.result.error))
             else ActionDatagrams(step.tables.peers, step.result.value, sc.relayPort, envelope.meta))
  }

  /** A decoded datagram from a registered peer. */
  function ServePeer(sc: ServerConfig, t: Tables, tracker: Tracker, peer: PeerId, source: SocketAddr, envelope: RelayEnvelope,
                     now: Time): Served
    requires peer in t.peers
  {
    var received, current := envelope.meta.connectionEpoch, t.peers[peer].epoch;
    var seen := MarkPeerSeen(t, peer, now);
    if received != 0 && received != current then Served(t, tracker, Err(StaleConnectionEpoch(received, current)))
    else if seen.result.Err? then Served(t, tracker, Err(Router(seen.result.error)))
    else if envelope.message.RelayProbe? then
      Served(seen.tables, tracker, Ok({OutboundDatagram(source, RelayProbeAck(envelope.message.requestId), envelope.meta)}))
    else Forward(sc, seen.tables, tracker, peer, envelope, now)
  }

  /** `arrival` is when the rate limiter looks at its clock, `now` when the router part does. */
  ghost function Handle(sc: ServerConfig, s: ServerState, source: SocketAddr, packet: seq<Byte>, arrival: Time, now: Time): Handled {
    var envelope := Decode(packet);
    if envelope.Err? then Handled(s, Err(MalformedPacket(envelope.error)))
    else if source.V6? then Handled(s, Err(InvalidSource(source)))
    else
      var s1 := s.(entries := EntriesAfter(sc.limit, sc.window, s.entries, source.ip, arrival));
      var peer := PeerWithIp(s.tables.peers, source.ip);
      if !Passes(sc, s.entries, source.ip, arrival) then Handled(s1, Err(RateLimited))
      else if peer.None? then Handled(s1, Err(UnknownSource(source.ip)))
      else
        var served := ServePeer(sc, s.tables, s.tracker, peer.value, source, envelope.value, now);
        Handled(ServerState(served.tables, s1.entries, served.tracker), served.result)
  }

  /** The rate limiter lets a datagram from `ip` through. */
  predicate Passes(sc: ServerConfig, entries: Entries<VirtualIp>, ip: VirtualIp, arrival: Time) {
    sc.limit > 0 && Grants(sc.limit, sc.window, WindowOf(Retained(entries, sc.window, arrival), ip), arrival)
  }

  // ---------------------------------------------------------------- whole runs of the server

  /** What can happen to the server: a datagram, or an operation by the control plane or the sweep timer. */
  datatype ServerEvent =
    | Datagram(source: SocketAddr, packet: seq<Byte>, arrival: Time, now: Time)
    | Control(op: Op)

  const STARTED := ServerState(EMPTY, map[], map[])

  ghost function Next(sc: ServerConfig, s: ServerState, e: ServerEvent): ServerState {
    match e
    case Datagram(source, packet, arrival, now) => Handle(sc, s, source, packet, arrival, now).state
    case Control(op) => s.(tables := Apply(sc.router, s.tables, op))
  }

  ghost function ServerRun(sc: ServerConfig, s: ServerState, events: seq<ServerEvent>): ServerState {
    if events == [] then s else Next(sc, ServerRun(sc, s, events[..|events| - 1]), events[|events| - 1])
  }

  ghost predicate FreshEvents(sc: ServerConfig, s: ServerState, events: seq<ServerEvent>) {
    forall i :: 0 <= i < |events| && events[i].Control? ==> DrawsFresh(ServerRun(sc, s, events[..i]).tables, events[i].op)
  }
}
