/** What the room router means, stated on its primary tables alone: no index appears here.
    Every operation of crates/router/src/lib.rs is a function from tables to tables and a result. */
module RouterTables {
  import opened Protocol

  datatype RouterConfig = RouterConfig(
    hostTtl: Duration,
    discoveryTtl: Duration,
    gameplayIdleTtl: Duration,
    peerTtl: Duration,
    peerGraceTtl: Duration,
    safePayloadSize: nat,
    maxRooms: nat,
    maxPeersPerRoom: nat,
    maxTotalPeers: nat,
    maxHostsPerRoom: nat,
    maxGameplaySessions: nat)

  datatype RouterError =
    | RoomNotFound(room: RoomId)
    | DuplicateRoomCode(code: RoomCode)
    | DuplicateRoomId(room: RoomId)
    | RoomNotEmpty(room: RoomId)
    | RoomLimitReached
    | RoomPeerLimitReached(room: RoomId)
    | PeerLimitReached
    | PeerAlreadyInRoom(peer: PeerId)
    | PeerNotInRoom(peer: PeerId, room: RoomId)
    | PeerNotFound(peer: PeerId)
    | VirtualIpInUse(ip: VirtualIp)
    | HostNotFound(host: HostSessionId)
    | HostNotInRoom(host: HostSessionId, room: RoomId)
    | HostExpired(host: HostSessionId)
    | HostLimitReached(room: RoomId)
    | PeerDisconnected(peer: PeerId)
    | PeerGraceExpired(peer: PeerId)
    | DiscoveryNotFound(request: DiscoveryRequestId)
    | DiscoveryExpired(request: DiscoveryRequestId)
    | DiscoveryRequestConflict(request: DiscoveryRequestId)
    | GameplayNotFound(session: GameplaySessionId)
    | UnauthorizedGameplayPeer(peer: PeerId, session: GameplaySessionId)
    | GameplayLimitReached
    | InvalidDiscoveryPort(port: U16)
    | InvalidGameplayPort(port: U16)
    | DatagramTooLarge(size: nat)

  datatype Peer = Peer(room: RoomId, ip: VirtualIp, lastSeen: Time, disconnectedAt: Option<Time>, epoch: U64)
  datatype Host = Host(room: RoomId, peer: PeerId, ip: VirtualIp, lastHeartbeat: Time, expiresAt: Time)
  datatype Discovery = Discovery(room: RoomId, client: PeerId, port: U16, expiresAt: Time)
  datatype Gameplay = Gameplay(room: RoomId, client: PeerId, hostPeer: PeerId, hostIp: VirtualIp, clientIp: VirtualIp,
                               lastActivity: Time, expiresAt: Time)

  type Rooms = map<RoomId, RoomCode>
  type Peers = map<PeerId, Peer>
  type Hosts = map<HostSessionId, Host>
  type Discoveries = map<DiscoveryRequestId, Discovery>
  type Sessions = map<GameplaySessionId, Gameplay>
  type Origins = map<GameplaySessionId, HostSessionId>

  /** The primary tables. `origin` is a history variable: the host session each gameplay session was
      created from, which the program itself does not store. */
  datatype Tables = Tables(rooms: Rooms, peers: Peers, hosts: Hosts, discoveries: Discoveries, gameplay: Sessions, origin: Origins)

  const EMPTY := Tables(map[], map[], map[], map[], map[], map[])

  /** The tables after an operation, and what it returned. */
  datatype Step<+T> = Step(tables: Tables, result: Result<T, RouterError>)

  function Fail<T>(t: Tables, error: RouterError): Step<T> {
    Step(t, Err(error))
  }

  datatype DiscoveryTarget = DiscoveryTarget(host: HostSessionId, peer: PeerId, ip: VirtualIp)
  datatype PeerSnapshot = PeerSnapshot(room: RoomId, peer: PeerId, ip: VirtualIp, epoch: U64)
  datatype GameplayRoute = GameplayRoute(session: GameplaySessionId, room: RoomId, source: PeerId,
                                         destination: PeerId, destinationIp: VirtualIp)
  datatype ExpirationReport = ExpirationReport(hosts: nat, discoveries: nat, gameplay: nat)

  // ---------------------------------------------------------------- full scans

  function Members(peers: Peers, room: RoomId): set<PeerId> {
    set p | p in peers && peers[p].room == room
  }

  function HostSessions(hosts: Hosts, room: RoomId): set<HostSessionId> {
    set h | h in hosts && hosts[h].room == room
  }

  function SessionsOf(hosts: Hosts, room: RoomId, peer: PeerId): set<HostSessionId> {
    set h | h in hosts && hosts[h].room == room && hosts[h].peer == peer
  }

  predicate CodeTaken(rooms: Rooms, code: RoomCode) {
    exists r :: r in rooms && rooms[r] == code
  }

  predicate HasIp(peers: Peers, peer: PeerId, ip: VirtualIp) {
    peer in peers && peers[peer].ip == ip
  }

  predicate IpTaken(peers: Peers, ip: VirtualIp) {
    exists p :: p in peers && HasIp(peers, p, ip)
  }

  ghost function PeerWithIp(peers: Peers, ip: VirtualIp): (r: Option<PeerId>)
    ensures r.Some? ==> HasIp(peers, r.value, ip)
    ensures r.None? <==> !IpTaken(peers, ip)
  {
    if IpTaken(peers, ip) then
      var p :| HasIp(peers, p, ip);
      Some(p)
    else None
  }

  function LiveTargets(hosts: Hosts, room: RoomId, now: Time): set<DiscoveryTarget> {
    set h | h in hosts && hosts[h].room == room && hosts[h].expiresAt > now
      :: DiscoveryTarget(h, hosts[h].peer, hosts[h].ip)
  }

  // ---------------------------------------------------------------- the removals

  /** Drop the given routes. Every removal below is one of these. */
  function Drop(t: Tables, hosts: set<HostSessionId>, discoveries: set<DiscoveryRequestId>,
                sessions: set<GameplaySessionId>): Tables
  {
    t.(hosts := t.hosts - hosts,
       discoveries := t.discoveries - discoveries,
       gameplay := t.gameplay - sessions,
       origin := t.origin - sessions)
  }

  /** The gameplay sessions that were created from the given host sessions. */
  function SessionsFrom(gameplay: Sessions, origin: Origins, hosts: set<HostSessionId>): set<GameplaySessionId> {
    set g | g in gameplay && g in origin && origin[g] in hosts
  }

  /** Drop host sessions together with the gameplay sessions created from them. */
  function WithoutHosts(t: Tables, gone: set<HostSessionId>): Tables {
    Drop(t, gone, {}, SessionsFrom(t.gameplay, t.origin, gone))
  }

  function HostsBy(hosts: Hosts, peers: set<PeerId>): set<HostSessionId> {
    set h | h in hosts && hosts[h].peer in peers
  }

  function DiscoveriesBy(discoveries: Discoveries, peers: set<PeerId>): set<DiscoveryRequestId> {
    set d | d in discoveries && discoveries[d].client in peers
  }

  function SessionsBy(gameplay: Sessions, peers: set<PeerId>): set<GameplaySessionId> {
    set g | g in gameplay && (gameplay[g].client in peers || gameplay[g].hostPeer in peers)
  }

  /** Drop everything the given peers take part in. */
  function WithoutRoutesOf(t: Tables, gone: set<PeerId>): Tables {
    Drop(t, HostsBy(t.hosts, gone), DiscoveriesBy(t.discoveries, gone), SessionsBy(t.gameplay, gone))
  }

  function Suspended(peers: Peers, stale: set<PeerId>, now: Time): Peers {
    map p | p in peers :: if p in stale then peers[p].(disconnectedAt := Some(now)) else peers[p]
  }

  function Suspend(t: Tables, stale: set<PeerId>, now: Time): Tables {
    WithoutRoutesOf(t, stale).(peers := Suspended(t.peers, stale, now))
  }

  function Evict(t: Tables, gone: set<PeerId>): Tables {
    WithoutRoutesOf(t, gone).(peers := t.peers - gone)
  }

  predicate SameRoutes(a: Tables, b: Tables) {
    a.hosts == b.hosts && a.discoveries == b.discoveries && a.gameplay == b.gameplay && a.origin == b.origin
  }

  // ---------------------------------------------------------------- rooms and peers

  function CreateRoom(cfg: RouterConfig, t: Tables, room: RoomId, code: RoomCode): Step<()> {
    if |t.rooms| >= cfg.maxRooms then Fail(t, RoomLimitReached)
    else if CodeTaken(t.rooms, code) then Fail(t, DuplicateRoomCode(code))
    else if room in t.rooms then Fail(t, DuplicateRoomId(room))
    else Step(t.(rooms := t.rooms[room := code]), Ok(()))
  }

  function RemoveEmptyRoom(t: Tables, room: RoomId): Step<()> {
    if room !in t.rooms then Fail(t, RoomNotFound(room))
    else if Members(t.peers, room) != {} || HostSessions(t.hosts, room) != {} then Fail(t, RoomNotEmpty(room))
    else Step(t.(rooms := t.rooms - {room}), Ok(()))
  }

  function JoinRoom(cfg: RouterConfig, t: Tables, room: RoomId, peer: PeerId, ip: VirtualIp, now: Time): Step<()> {
    if room !in t.rooms then Fail(t, RoomNotFound(room))
    else if |Members(t.peers, room)| >= cfg.maxPeersPerRoom then Fail(t, RoomPeerLimitReached(room))
    else if |t.peers| >= cfg.maxTotalPeers then Fail(t, PeerLimitReached)
    else if peer in t.peers then Fail(t, PeerAlreadyInRoom(peer))
    else if IpTaken(t.peers, ip) then Fail(t, VirtualIpInUse(ip))
    else Step(t.(peers := t.peers[peer := Peer(room, ip, now, None, 1)]), Ok(()))
  }

  function LeaveRoom(t: Tables, room: RoomId, peer: PeerId): Step<()> {
    if room !in t.rooms then Fail(t, RoomNotFound(room))
    else if peer !in Members(t.peers, room) then Fail(t, PeerNotInRoom(peer, room))
    else Step(Evict(t, {peer}), Ok(()))
  }

  function MarkPeerSeen(t: Tables, peer: PeerId, now: Time): Step<()> {
    if peer !in t.peers then Fail(t, PeerNotFound(peer))
    else if t.peers[peer].disconnectedAt.Some? then Fail(t, PeerDisconnected(peer))
    else Step(t.(peers := t.peers[peer := t.peers[peer].(lastSeen := now)]), Ok(()))
  }

  function ResumePeer(cfg: RouterConfig, t: Tables, room: RoomId, peer: PeerId, now: Time): Step<PeerSnapshot> {
    if peer !in t.peers then Fail(t, PeerNotFound(peer))
    else
      var p := t.peers[peer];
      if p.room != room then Fail(t, PeerNotInRoom(peer, room))
      else if p.disconnectedAt.Some? && p.disconnectedAt.value + cfg.peerGraceTtl <= now then
        Fail(t, PeerGraceExpired(peer))
      else
        var epoch := if p.disconnectedAt.Some? then SaturatingSucc(p.epoch) else p.epoch;
        Step(t.(peers := t.peers[peer := Peer(p.room, p.ip, now, None, epoch)]),
             Ok(PeerSnapshot(p.room, peer, p.ip, epoch)))
  }

  function MemberState(t: Tables, room: RoomId, peer: PeerId): Result<Peer, RouterError> {
    if room !in t.rooms then Err(RoomNotFound(room))
    else if peer !in Members(t.peers, room) then Err(PeerNotInRoom(peer, room))
    else Ok(t.peers[peer])
  }

  // ---------------------------------------------------------------- host sessions

  predicate LiveSession(t: Tables, host: HostSessionId, room: RoomId, peer: PeerId, now: Time) {
    host in SessionsOf(t.hosts, room, peer) && t.hosts[host].expiresAt > now
  }

  function Refresh(cfg: RouterConfig, t: Tables, host: HostSessionId, now: Time): Tables
    requires host in t.hosts
  {
    t.(hosts := t.hosts[host := t.hosts[host].(lastHeartbeat := now, expiresAt := now + cfg.hostTtl)])
  }

  /** `newId` is the id a new session gets, should one be needed. */
  ghost function RegisterHost(cfg: RouterConfig, t: Tables, room: RoomId, peer: PeerId, newId: HostSessionId, now: Time)
    : Step<HostSessionId>
  {
    var member := MemberState(t, room, peer);
    if member.Err? then Fail(t, member.error)
    else if exists h :: LiveSession(t, h, room, peer, now) then
      var h :| LiveSession(t, h, room, peer, now);
      Step(Refresh(cfg, t, h, now), Ok(h))
    else
      var t1 := WithoutHosts(t, SessionsOf(t.hosts, room, peer));
      if |HostSessions(t1.hosts, room)| >= cfg.maxHostsPerRoom then Fail(t1, HostLimitReached(room))
      else Step(t1.(hosts := t1.hosts[newId := Host(room, peer, member.value.ip, now, now + cfg.hostTtl)]), Ok(newId))
  }

  function HeartbeatHost(cfg: RouterConfig, t: Tables, host: HostSessionId, now: Time): Step<()> {
    if host !in t.hosts then Fail(t, HostNotFound(host))
    else if t.hosts[host].expiresAt <= now then Fail(t, HostExpired(host))
    else Step(Refresh(cfg, t, host, now), Ok(()))
  }

  function HeartbeatHostForRoom(cfg: RouterConfig, t: Tables, room: RoomId, peer: PeerId, host: HostSessionId, now: Time)
    : Step<()>
  {
    if host !in t.hosts then Fail(t, HostNotFound(host))
    else if host !in SessionsOf(t.hosts, room, peer) then Fail(t, HostNotInRoom(host, room))
    else HeartbeatHost(cfg, t, host, now)
  }

  function UnregisterHost(t: Tables, host: HostSessionId): Step<()> {
    if host !in t.hosts then Fail(t, HostNotFound(host))
    else Step(WithoutHosts(t, {host}), Ok(()))
  }

  // ---------------------------------------------------------------- discovery

  predicate SameRequest(d: Discovery, room: RoomId, client: PeerId, port: U16) {
    d.room == room && d.client == client && d.port == port
  }

  function BeginDiscovery(cfg: RouterConfig, t: Tables, room: RoomId, client: PeerId, request: DiscoveryRequestId,
                          port: U16, now: Time): Step<set<DiscoveryTarget>>
  {
    var member := MemberState(t, room, client);
    if !IsDiscoveryPort(port) then Fail(t, InvalidDiscoveryPort(port))
    else if member.Err? then Fail(t, member.error)
    else if request in t.discoveries && !SameRequest(t.discoveries[request], room, client, port) then
      Fail(t, DiscoveryRequestConflict(request))
    else
      Step(t.(discoveries := t.discoveries[request := Discovery(room, client, port, now + cfg.discoveryTtl)]),
           Ok(LiveTargets(t.hosts, room, now)))
  }

  function RouteDiscoveryResponse(t: Tables, request: DiscoveryRequestId, host: HostSessionId, now: Time)
    : Result<PeerId, RouterError>
  {
    if request !in t.discoveries then Err(DiscoveryNotFound(request))
    else if t.discoveries[request].expiresAt <= now then Err(DiscoveryExpired(request))
    else if host !in t.hosts then Err(HostNotFound(host))
    else if t.hosts[host].expiresAt <= now then Err(HostExpired(host))
    else if t.hosts[host].room != t.discoveries[request].room then Err(HostNotInRoom(host, t.discoveries[request].room))
    else Ok(t.discoveries[request].client)
  }

  // ---------------------------------------------------------------- gameplay

  /** `newId` is the id of the new session. */
  function SelectHost(cfg: RouterConfig, t: Tables, room: RoomId, client: PeerId, host: HostSessionId,
                      newId: GameplaySessionId, now: Time): Step<GameplaySessionId>
  {
    var member := MemberState(t, room, client);
    if member.Err? then Fail(t, member.error)
    else if host !in t.hosts then Fail(t, HostNotFound(host))
    else if t.hosts[host].room != room then Fail(t, HostNotInRoom(host, room))
    else if t.hosts[host].expiresAt <= now then Fail(t, HostExpired(host))
    else if |t.gameplay| >= cfg.maxGameplaySessions then Fail(t, GameplayLimitReached)
    else
      var session := Gameplay(room, client, t.hosts[host].peer, t.hosts[host].ip, member.value.ip,
                              now, now + cfg.gameplayIdleTtl);
      Step(t.(gameplay := t.gameplay[newId := session], origin := t.origin[newId := host]), Ok(newId))
  }

  function RouteGameplay(cfg: RouterConfig, t: Tables, session: GameplaySessionId, source: PeerId, now: Time)
    : Step<GameplayRoute>
  {
    if session !in t.gameplay || t.gameplay[session].expiresAt <= now then Fail(t, GameplayNotFound(session))
    else
      var g := t.gameplay[session];
      if source != g.client && source != g.hostPeer then Fail(t, UnauthorizedGameplayPeer(source, session))
      else
        var route := if source == g.client then GameplayRoute(session, g.room, source, g.hostPeer, g.hostIp)
                     else GameplayRoute(session, g.room, source, g.client, g.clientIp);
        Step(t.(gameplay := t.gameplay[session := g.(lastActivity := now, expiresAt := now + cfg.gameplayIdleTtl)]),
             Ok(route))
  }

  function RemoveGameplaySession(t: Tables, session: GameplaySessionId): Step<()> {
    if session !in t.gameplay then Fail(t, GameplayNotFound(session))
    else Step(t.(gameplay := t.gameplay - {session}, origin := t.origin - {session}), Ok(()))
  }

  // ---------------------------------------------------------------- the sweep

  /** A connected peer whose lease has run out. */
  predicate Stale(cfg: RouterConfig, p: Peer, now: Time) {
    p.disconnectedAt.None? && p.lastSeen + cfg.peerTtl <= now
  }

  /** A suspended peer whose recovery grace has run out. */
  predicate GraceOver(cfg: RouterConfig, p: Peer, now: Time) {
    p.disconnectedAt.Some? && p.disconnectedAt.value + cfg.peerGraceTtl <= now
  }

  /** Whether a peer's routes outlive a sweep. */
  predicate KeepsRoutes(cfg: RouterConfig, peers: Peers, peer: PeerId, now: Time) {
    peer in peers && !Stale(cfg, peers[peer], now) && !GraceOver(cfg, peers[peer], now)
  }

  predicate KeepsHost(cfg: RouterConfig, peers: Peers, host: Host, now: Time) {
    host.expiresAt > now && KeepsRoutes(cfg, peers, host.peer, now)
  }

  predicate KeepsDiscovery(cfg: RouterConfig, peers: Peers, d: Discovery, now: Time) {
    d.expiresAt > now && KeepsRoutes(cfg, peers, d.client, now)
  }

  /** Its own lease, the lease of the host session it came from, and both peers. */
  predicate KeepsGameplay(cfg: RouterConfig, t: Tables, session: GameplaySessionId, now: Time)
    requires session in t.gameplay
  {
    && t.gameplay[session].expiresAt > now && KeepsRoutes(cfg, t.peers, t.gameplay[session].client, now)
    && session in t.origin && t.origin[session] in t.hosts && KeepsHost(cfg, t.peers, t.hosts[t.origin[session]], now)
  }

  function LostHosts(cfg: RouterConfig, t: Tables, now: Time): set<HostSessionId> {
    set h | h in t.hosts && !KeepsHost(cfg, t.peers, t.hosts[h], now)
  }

  function LostDiscoveries(cfg: RouterConfig, t: Tables, now: Time): set<DiscoveryRequestId> {
    set d | d in t.discoveries && !KeepsDiscovery(cfg, t.peers, t.discoveries[d], now)
  }

  function LostSessions(cfg: RouterConfig, t: Tables, now: Time): set<GameplaySessionId> {
    set g | g in t.gameplay && !KeepsGameplay(cfg, t, g, now)
  }

  /** What a sweep leaves of a peer. With no grace at all a stale peer goes at once. */
  function SweptPeer(cfg: RouterConfig, p: Peer, now: Time): Option<Peer> {
    if GraceOver(cfg, p, now) || (Stale(cfg, p, now) && cfg.peerGraceTtl == 0) then None
    else if Stale(cfg, p, now) then Some(p.(disconnectedAt := Some(now)))
    else Some(p)
  }

  function SweptPeers(cfg: RouterConfig, peers: Peers, now: Time): Peers {
    map p | p in peers && SweptPeer(cfg, peers[p], now).Some? :: SweptPeer(cfg, peers[p], now).value
  }

  /** The whole sweep as one filter. */
  function Swept(cfg: RouterConfig, t: Tables, now: Time): Tables {
    Drop(t, LostHosts(cfg, t, now), LostDiscoveries(cfg, t, now), LostSessions(cfg, t, now))
    .(peers := SweptPeers(cfg, t.peers, now))
  }

  /** What the sweep reports: leases that ran out, counting only gameplay sessions whose host session
      had not run out as well. */
  function SweepReport(t: Tables, now: Time): ExpirationReport {
    var hosts := set h | h in t.hosts && t.hosts[h].expiresAt <= now;
    ExpirationReport(
      |hosts|,
      |set d | d in t.discoveries && t.discoveries[d].expiresAt <= now|,
      |set g | g in t.gameplay && g in t.origin && t.origin[g] !in hosts && t.gameplay[g].expiresAt <= now|)
  }

  // ---------------------------------------------------------------- dispatch

  /** `Targets` is a set here and the list the program builds there. */
  datatype RelayAction<+Targets> =
    | DiscoveryFanout(request: DiscoveryRequestId, source: PeerId, port: U16, targets: Targets, payload: seq<Byte>)
    | DiscoveryUnicast(request: DiscoveryRequestId, destination: PeerId, sourceIp: VirtualIp, port: U16, payload: seq<Byte>)
    | GameplayUnicast(route: GameplayRoute, port: U16, payload: seq<Byte>)

  datatype RelayIngress =
    | DiscoveryIngress(source: PeerId, request: DiscoveryRequestId, port: U16, payload: seq<Byte>, now: Time)
    | ResponseIngress(host: HostSessionId, request: DiscoveryRequestId, port: U16, payload: seq<Byte>, now: Time)
    | GameplayIngress(session: GameplaySessionId, source: PeerId, port: U16, payload: seq<Byte>, now: Time)

  predicate PayloadOk(cfg: RouterConfig, payload: seq<Byte>) {
    |payload| <= MAX_CIV6_DATAGRAM_SIZE && |payload| <= cfg.safePayloadSize
  }

  function Dispatch(cfg: RouterConfig, t: Tables, ingress: RelayIngress): Step<RelayAction<set<DiscoveryTarget>>> {
    if !PayloadOk(cfg, ingress.payload) then Fail(t, DatagramTooLarge(|ingress.payload|))
    else match ingress
      case DiscoveryIngress(source, request, port, payload, now) =>
        if source !in t.peers then Fail(t, PeerNotFound(source))
        else
          var step := BeginDiscovery(cfg, t, t.peers[source].room, source, request, port, now);
          if step.result.Err? then Fail(step.tables, step.result.error)
          else Step(step.tables, Ok(DiscoveryFanout(request, source, port, step.result.value, payload)))
      case ResponseIngress(host, request, port, payload, now) =>
        var route := RouteDiscoveryResponse(t, request, host, now);
        if !IsDiscoveryPort(port) then Fail(t, InvalidDiscoveryPort(port))
        else if route.Err? then Fail(t, route.error)
        else Step(t, Ok(DiscoveryUnicast(request, route.value, t.hosts[host].ip, port, payload)))
      case GameplayIngress(session, source, port, payload, now) =>
        if port != GAMEPLAY_PORT then Fail(t, InvalidGameplayPort(port))
        else
          var step := RouteGameplay(cfg, t, session, source, now);
          if step.result.Err? then Fail(step.tables, step.result.error)
          else Step(step.tables, Ok(GameplayUnicast(step.result.value, port, payload)))
  }

  // ---------------------------------------------------------------- the invariant

  ghost predicate CodesUnique(rooms: Rooms) {
    forall r, q :: r in rooms && q in rooms && rooms[r] == rooms[q] ==> r == q
  }

  ghost predicate IpsUnique(peers: Peers) {
    forall p, q :: p in peers && q in peers && peers[p].ip == peers[q].ip ==> p == q
  }

  /** A peer was suspended only once its lease was over, and its epoch is never the legacy epoch 0. */
  predicate LeaseOk(cfg: RouterConfig, p: Peer) {
    p.epoch >= 1 && (p.disconnectedAt.Some? ==> p.lastSeen + cfg.peerTtl <= p.disconnectedAt.value)
  }

  ghost predicate PeersOk(cfg: RouterConfig, peers: Peers, rooms: Rooms) {
    forall p :: p in peers ==> peers[p].room in rooms && LeaseOk(cfg, peers[p])
  }

  predicate InRoom(peers: Peers, room: RoomId, peer: PeerId) {
    peer in peers && peers[peer].room == room
  }

  /** `peer` is a member of `room` and holds `ip` there. */
  predicate IsMember(peers: Peers, room: RoomId, peer: PeerId, ip: VirtualIp) {
    InRoom(peers, room, peer) && peers[peer].ip == ip
  }

  ghost predicate HostsOk(hosts: Hosts, peers: Peers) {
    forall h :: h in hosts ==> IsMember(peers, hosts[h].room, hosts[h].peer, hosts[h].ip)
  }

  ghost predicate OneHostPerPeer(hosts: Hosts) {
    forall h, k :: h in hosts && k in hosts && hosts[h].peer == hosts[k].peer ==> h == k
  }

  ghost predicate DiscoveriesOk(discoveries: Discoveries, peers: Peers) {
    forall d :: d in discoveries ==> InRoom(peers, discoveries[d].room, discoveries[d].client)
  }

  predicate CameFrom(hosts: Hosts, g: Gameplay, origin: HostSessionId) {
    && origin in hosts
    && hosts[origin].room == g.room && hosts[origin].peer == g.hostPeer && hosts[origin].ip == g.hostIp
  }

  /** A gameplay session joins a member of its room, under the address it still holds, to the host
      session it was created from, which is still there. */
  ghost predicate GameplayOk(gameplay: Sessions, origin: Origins, hosts: Hosts, peers: Peers) {
    && origin.Keys == gameplay.Keys
    && (forall g :: g in gameplay ==> IsMember(peers, gameplay[g].room, gameplay[g].client, gameplay[g].clientIp))
    && (forall g :: g in gameplay ==> CameFrom(hosts, gameplay[g], origin[g]))
  }

  ghost predicate MembersWithin(limit: nat, peers: Peers, rooms: Rooms) {
    forall r :: r in rooms ==> |Members(peers, r)| <= limit
  }

  ghost predicate HostsWithin(limit: nat, hosts: Hosts, rooms: Rooms) {
    forall r :: r in rooms ==> |HostSessions(hosts, r)| <= limit
  }

  /** Everything the routing decisions rely on: how the tables hang together, and the five limits. */
  ghost predicate Sound(cfg: RouterConfig, t: Tables) {
    && CodesUnique(t.rooms)
    && IpsUnique(t.peers)
    && PeersOk(cfg, t.peers, t.rooms)
    && HostsOk(t.hosts, t.peers)
    && OneHostPerPeer(t.hosts)
    && DiscoveriesOk(t.discoveries, t.peers)
    && GameplayOk(t.gameplay, t.origin, t.hosts, t.peers)
    && |t.rooms| <= cfg.maxRooms
    && |t.peers| <= cfg.maxTotalPeers
    && |t.gameplay| <= cfg.maxGameplaySessions
    && MembersWithin(cfg.maxPeersPerRoom, t.peers, t.rooms)
    && HostsWithin(cfg.maxHostsPerRoom, t.hosts, t.rooms)
  }

  /** `Sound`, under a name that proofs hide, so that its many parts stay out of them until `Open`. */
  ghost predicate Inv(cfg: RouterConfig, t: Tables) {
    Sound(cfg, t)
  }

  lemma Open(cfg: RouterConfig, t: Tables)
    requires Inv(cfg, t)
    ensures Sound(cfg, t)
  {
    hide Sound;
  }

  lemma Close(cfg: RouterConfig, t: Tables)
    requires Sound(cfg, t)
    ensures Inv(cfg, t)
  {
    hide Sound;
  }

  lemma SameTables(cfg: RouterConfig, t: Tables, u: Tables)
    requires Inv(cfg, t) && t == u
    ensures Inv(cfg, u)
  {
    hide Inv;
  }
}
