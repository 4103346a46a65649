/** When each router operation succeeds, with which error it fails otherwise, and what is in the tables
    afterwards, read off the entries of the tables alone. */
module RouterAnswers {
  import opened Protocol
  import opened RouterTables
  import opened RouterInvariant
  import opened Conservation

  /** A member of a room that the router knows. */
  predicate IsIn(t: Tables, room: RoomId, peer: PeerId) {
    room in t.rooms && peer in t.peers && t.peers[peer].room == room
  }

  /** The host session of a member, live or not. */
  predicate Owns(t: Tables, room: RoomId, peer: PeerId, h: HostSessionId) {
    h in t.hosts && t.hosts[h].room == room && t.hosts[h].peer == peer
  }

  // ---------------------------------------------------------------- facts about what is there

  lemma HostOwner(cfg: RouterConfig, t: Tables, h: HostSessionId)
    requires Inv(cfg, t) && h in t.hosts
    ensures IsIn(t, t.hosts[h].room, t.hosts[h].peer)
    ensures forall k :: k in t.hosts && t.hosts[k].peer == t.hosts[h].peer ==> k == h
  {
    hide Inv;
    Open(cfg, t);
    assert IsMember(t.peers, t.hosts[h].room, t.hosts[h].peer, t.hosts[h].ip);
    assert LeaseOk(cfg, t.peers[t.hosts[h].peer]);
  }

  /** A game runs on the one host session of its host peer. */
  lemma GameHost(cfg: RouterConfig, t: Tables, g: GameplaySessionId) returns (h: HostSessionId)
    requires Inv(cfg, t) && g in t.gameplay
    ensures g in t.origin && h == t.origin[g] && Owns(t, t.gameplay[g].room, t.gameplay[g].hostPeer, h)
    ensures forall k :: k in t.hosts && t.hosts[k].peer == t.gameplay[g].hostPeer ==> k == h
    ensures IsIn(t, t.gameplay[g].room, t.gameplay[g].client) && IsIn(t, t.gameplay[g].room, t.gameplay[g].hostPeer)
  {
    hide Inv;
    InvRoutes(cfg, t);
    h := t.origin[g];
    assert CameFrom(t.hosts, t.gameplay[g], h);
    assert IsMember(t.peers, t.gameplay[g].room, t.gameplay[g].client, t.gameplay[g].clientIp);
    HostOwner(cfg, t, h);
  }

  lemma RequestOwner(cfg: RouterConfig, t: Tables, d: DiscoveryRequestId)
    requires Inv(cfg, t) && d in t.discoveries
    ensures IsIn(t, t.discoveries[d].room, t.discoveries[d].client)
  {
    hide Inv;
    Open(cfg, t);
    assert InRoom(t.peers, t.discoveries[d].room, t.discoveries[d].client);
    assert LeaseOk(cfg, t.peers[t.discoveries[d].client]);
  }

  lemma IsMemberThere(t: Tables, room: RoomId, peer: PeerId)
    ensures room in t.rooms ==> (peer in Members(t.peers, room) <==> IsIn(t, room, peer))
  {
  }

  // ---------------------------------------------------------------- rooms

  lemma CreateAnswers(cfg: RouterConfig, t: Tables, room: RoomId, code: RoomCode)
    ensures var step := CreateRoom(cfg, t, room, code);
            && (step.result.Ok? <==> |t.rooms| < cfg.maxRooms && room !in t.rooms && forall r :: r in t.rooms ==> t.rooms[r] != code)
            && (step.result == Err(RoomLimitReached) <==> |t.rooms| >= cfg.maxRooms)
            && (step.result == Err(DuplicateRoomCode(code))
                <==> |t.rooms| < cfg.maxRooms && exists r :: r in t.rooms && t.rooms[r] == code)
            && (step.result == Err(DuplicateRoomId(room))
                <==> |t.rooms| < cfg.maxRooms && room in t.rooms && forall r :: r in t.rooms ==> t.rooms[r] != code)
            && step.tables == if step.result.Ok? then t.(rooms := t.rooms[room := code]) else t
  {
  }

  lemma RemoveRoomAnswers(t: Tables, room: RoomId)
    ensures var step := RemoveEmptyRoom(t, room);
            && (step.result.Ok? <==> room in t.rooms && (forall p :: p in t.peers ==> t.peers[p].room != room)
                                     && forall h :: h in t.hosts ==> t.hosts[h].room != room)
            && (step.result == Err(RoomNotFound(room)) <==> room !in t.rooms)
            && (step.result.Err? && room in t.rooms ==> step.result == Err(RoomNotEmpty(room)))
            && step.tables == if step.result.Ok? then t.(rooms := t.rooms - {room}) else t
  {
    assert Members(t.peers, room) == {} <==> forall p :: p in t.peers ==> t.peers[p].room != room by {
      assert forall p :: p in Members(t.peers, room) <==> p in t.peers && t.peers[p].room == room;
    }
    assert HostSessions(t.hosts, room) == {} <==> forall h :: h in t.hosts ==> t.hosts[h].room != room by {
      assert forall h :: h in HostSessions(t.hosts, room) <==> h in t.hosts && t.hosts[h].room == room;
    }
    hide Members, HostSessions;
  }

  // ---------------------------------------------------------------- members

  lemma JoinAnswers(cfg: RouterConfig, t: Tables, room: RoomId, peer: PeerId, ip: VirtualIp, now: Time)
    ensures var step := JoinRoom(cfg, t, room, peer, ip, now);
            var members := |set p | p in t.peers && t.peers[p].room == room|;
            && (step.result.Ok? <==>
                  && room in t.rooms && members < cfg.maxPeersPerRoom && |t.peers| < cfg.maxTotalPeers && peer !in t.peers
                  && forall p :: p in t.peers ==> t.peers[p].ip != ip)
            && (step.result == Err(RoomNotFound(room)) <==> room !in t.rooms)
            && (step.result == Err(RoomPeerLimitReached(room)) <==> room in t.rooms && members >= cfg.maxPeersPerRoom)
            && (step.result == Err(PeerLimitReached)
                <==> room in t.rooms && members < cfg.maxPeersPerRoom && |t.peers| >= cfg.maxTotalPeers)
            && (step.result == Err(PeerAlreadyInRoom(peer))
                <==> room in t.rooms && members < cfg.maxPeersPerRoom && |t.peers| < cfg.maxTotalPeers && peer in t.peers)
            && (step.result == Err(VirtualIpInUse(ip))
                <==> room in t.rooms && members < cfg.maxPeersPerRoom && |t.peers| < cfg.maxTotalPeers && peer !in t.peers
                     && exists p :: p in t.peers && t.peers[p].ip == ip)
            && (step.result.Ok? ==> step.tables == t.(peers := t.peers[peer := Peer(room, ip, now, None, 1)]))
            && (step.result.Err? ==> step.tables == t)
  {
    assert IpTaken(t.peers, ip) <==> exists p :: p in t.peers && t.peers[p].ip == ip by {
      if p :| p in t.peers && t.peers[p].ip == ip {
        assert HasIp(t.peers, p, ip);
      }
    }
    hide IpTaken;
  }

  lemma LeaveAnswers(t: Tables, room: RoomId, peer: PeerId)
    ensures var step := LeaveRoom(t, room, peer);
            && (step.result.Ok? <==> IsIn(t, room, peer))
            && (step.result == Err(RoomNotFound(room)) <==> room !in t.rooms)
            && (step.result.Err? && room in t.rooms ==> step.result == Err(PeerNotInRoom(peer, room)))
            && (step.result.Err? ==> step.tables == t)
            && (step.result.Ok? ==> step.tables.peers == t.peers - {peer} && step.tables.rooms == t.rooms)
  {
  }

  /** Who leaves takes exactly what it takes part in along. */
  lemma LeavingTakes(t: Tables, room: RoomId, peer: PeerId)
    requires IsIn(t, room, peer)
    ensures var t' := LeaveRoom(t, room, peer).tables;
            && (forall h :: h in t'.hosts <==> h in t.hosts && t.hosts[h].peer != peer)
            && (forall d :: d in t'.discoveries <==> d in t.discoveries && t.discoveries[d].client != peer)
            && (forall g :: g in t'.gameplay <==> g in t.gameplay && t.gameplay[g].client != peer && t.gameplay[g].hostPeer != peer)
            && (forall h :: h in t'.hosts ==> t'.hosts[h] == t.hosts[h])
            && (forall d :: d in t'.discoveries ==> t'.discoveries[d] == t.discoveries[d])
            && (forall g :: g in t'.gameplay ==> t'.gameplay[g] == t.gameplay[g])
  {
    assert peer in Members(t.peers, room);
    hide Members;
  }

  lemma SeenAnswers(t: Tables, peer: PeerId, now: Time)
    ensures var step := MarkPeerSeen(t, peer, now);
            && (step.result.Ok? <==> peer in t.peers && t.peers[peer].disconnectedAt.None?)
            && (step.result == Err(PeerNotFound(peer)) <==> peer !in t.peers)
            && (step.result == Err(PeerDisconnected(peer)) <==> peer in t.peers && t.peers[peer].disconnectedAt.Some?)
            && (step.result.Ok? ==> step.tables == t.(peers := t.peers[peer := t.peers[peer].(lastSeen := now)]))
            && (step.result.Err? ==> step.tables == t)
  {
  }

  lemma ResumeAnswers(cfg: RouterConfig, t: Tables, room: RoomId, peer: PeerId, now: Time)
    ensures var step := ResumePeer(cfg, t, room, peer, now);
            && (step.result == Err(PeerNotFound(peer)) <==> peer !in t.peers)
            && (step.result == Err(PeerNotInRoom(peer, room)) <==> peer in t.peers && t.peers[peer].room != room)
            && (step.result == Err(PeerGraceExpired(peer))
                <==> peer in t.peers && t.peers[peer].room == room && t.peers[peer].disconnectedAt.Some?
                     && t.peers[peer].disconnectedAt.value + cfg.peerGraceTtl <= now)
            && (step.result.Ok? <==> peer in t.peers && t.peers[peer].room == room
                                     && (t.peers[peer].disconnectedAt.Some? ==> now < t.peers[peer].disconnectedAt.value + cfg.peerGraceTtl))
            && (step.result.Err? ==> step.tables == t)
            && (step.result.Ok? ==>
                  && peer in step.tables.peers
                  && var p := step.tables.peers[peer];
                  && step.tables == t.(peers := t.peers[peer := p])
                  && p.room == room && p.ip == t.peers[peer].ip && p.lastSeen == now && p.disconnectedAt.None?
                  && p.epoch == (if t.peers[peer].disconnectedAt.Some? && t.peers[peer].epoch < U64_MAX
                                 then t.peers[peer].epoch + 1 else t.peers[peer].epoch)
                  && step.result.value == PeerSnapshot(room, peer, p.ip, p.epoch))
  {
  }

  // ---------------------------------------------------------------- host sessions

  /** Registering again keeps a live host session, and with it every game that runs on it: only its lease
      is renewed. */
  lemma RegisterKeepsLiveSession(cfg: RouterConfig, t: Tables, room: RoomId, peer: PeerId, h: HostSessionId, newId: HostSessionId, now: Time)
    requires Inv(cfg, t) && IsIn(t, room, peer) && Owns(t, room, peer, h) && now < t.hosts[h].expiresAt
    ensures var step := RegisterHost(cfg, t, room, peer, newId, now);
            && step.result == Ok(h)
            && step.tables == t.(hosts := t.hosts[h := t.hosts[h].(lastHeartbeat := now, expiresAt := now + cfg.hostTtl)])
            && step.tables.hosts.Keys == t.hosts.Keys
  {
    hide Inv, Members;
    HostOwner(cfg, t, h);
    IsMemberThere(t, room, peer);
    assert LiveSession(t, h, room, peer, now);
    assert forall k :: LiveSession(t, k, room, peer, now) ==> k == h;
  }

  predicate NoLiveSession(t: Tables, room: RoomId, peer: PeerId, now: Time) {
    forall h :: h in t.hosts && Owns(t, room, peer, h) ==> t.hosts[h].expiresAt <= now
  }

  /** Without a live one, a member that registers gets the new session. It replaces the member's expired
      one, and the games that end are exactly those the member hosted. */
  lemma RegisterReplacesExpired(cfg: RouterConfig, t: Tables, room: RoomId, peer: PeerId, newId: HostSessionId, now: Time)
    requires Inv(cfg, t) && IsIn(t, room, peer) && NoLiveSession(t, room, peer, now) && newId !in t.hosts
    requires RegisterHost(cfg, t, room, peer, newId, now).result.Ok?
    ensures var step := RegisterHost(cfg, t, room, peer, newId, now);
            var t' := step.tables;
            && step.result == Ok(newId)
            && (forall k :: k in t'.hosts <==> k == newId || (k in t.hosts && t.hosts[k].peer != peer))
            && (forall k :: k in t'.hosts && k != newId ==> t'.hosts[k] == t.hosts[k])
            && t'.hosts[newId] == Host(room, peer, t.peers[peer].ip, now, now + cfg.hostTtl)
            && (forall g :: g in t'.gameplay <==> g in t.gameplay && t.gameplay[g].hostPeer != peer)
            && (forall g :: g in t'.gameplay ==> t'.gameplay[g] == t.gameplay[g])
            && t'.rooms == t.rooms && t'.peers == t.peers && t'.discoveries == t.discoveries
  {
    hide Inv;
    assert peer in Members(t.peers, room);
    assert forall h :: !LiveSession(t, h, room, peer, now);
    OwnersRoutes(cfg, t, room, peer);
    hide SessionsOf, SessionsFrom, HostSessions, LiveSession, NoLiveSession, Members;
  }

  /** What a member's host sessions are, and the games on them. */
  lemma OwnersRoutes(cfg: RouterConfig, t: Tables, room: RoomId, peer: PeerId)
    requires Inv(cfg, t) && IsIn(t, room, peer)
    ensures forall h :: h in SessionsOf(t.hosts, room, peer) <==> h in t.hosts && t.hosts[h].peer == peer
    ensures forall g :: g in SessionsFrom(t.gameplay, t.origin, SessionsOf(t.hosts, room, peer))
                        <==> g in t.gameplay && t.gameplay[g].hostPeer == peer
  {
    hide Inv;
    OriginHostPeer(cfg, t);
    InvRoutes(cfg, t);
    assert forall h :: h in t.hosts ==> IsMember(t.peers, t.hosts[h].room, t.hosts[h].peer, t.hosts[h].ip);
    hide GameplayOk, DiscoveriesOk;
  }

  /** Strangers are refused, and members without a session of their own while the room is full. Whoever is
      refused changes nothing. */
  lemma RegisterRefuses(cfg: RouterConfig, t: Tables, room: RoomId, peer: PeerId, newId: HostSessionId, now: Time)
    requires Inv(cfg, t)
    ensures var step := RegisterHost(cfg, t, room, peer, newId, now);
            && (step.result == Err(RoomNotFound(room)) <==> room !in t.rooms)
            && (step.result == Err(PeerNotInRoom(peer, room)) <==> room in t.rooms && !IsIn(t, room, peer))
            && (step.result.Ok? <==>
                  && IsIn(t, room, peer)
                  && ((exists h :: h in t.hosts && Owns(t, room, peer, h))
                      || |set h | h in t.hosts && t.hosts[h].room == room| < cfg.maxHostsPerRoom))
            && (step.result.Err? && IsIn(t, room, peer) ==> step.result == Err(HostLimitReached(room)))
            && (step.result.Err? ==> step.tables == t)
  {
    hide Inv;
    assert peer in Members(t.peers, room) <==> peer in t.peers && t.peers[peer].room == room;
    RegisterSucceedsExactly(cfg, t, room, peer, newId, now);
    if IsIn(t, room, peer) && RegisterHost(cfg, t, room, peer, newId, now).result.Err? {
      WithoutNoHosts(cfg, t, SessionsOf(t.hosts, room, peer));
    }
    hide Members, WithoutHosts, Refresh;
  }

  /** A heartbeat is accepted exactly while the lease runs. */
  lemma HeartbeatAnswers(cfg: RouterConfig, t: Tables, host: HostSessionId, now: Time)
    ensures var step := HeartbeatHost(cfg, t, host, now);
            && (step.result.Ok? <==> host in t.hosts && now < t.hosts[host].expiresAt)
            && (step.result == Err(HostNotFound(host)) <==> host !in t.hosts)
            && (step.result == Err(HostExpired(host)) <==> host in t.hosts && t.hosts[host].expiresAt <= now)
            && (step.result.Ok? ==>
                  step.tables == t.(hosts := t.hosts[host := t.hosts[host].(lastHeartbeat := now, expiresAt := now + cfg.hostTtl)]))
            && (step.result.Err? ==> step.tables == t)
  {
  }

  /** And through the control plane only for the session's own room and peer. */
  lemma RoomHeartbeatAnswers(cfg: RouterConfig, t: Tables, room: RoomId, peer: PeerId, host: HostSessionId, now: Time)
    ensures var step := HeartbeatHostForRoom(cfg, t, room, peer, host, now);
            && (step.result.Ok? <==> Owns(t, room, peer, host) && now < t.hosts[host].expiresAt)
            && (step.result == Err(HostNotFound(host)) <==> host !in t.hosts)
            && (step.result == Err(HostNotInRoom(host, room)) <==> host in t.hosts && !Owns(t, room, peer, host))
            && (step.result == Err(HostExpired(host)) <==> Owns(t, room, peer, host) && t.hosts[host].expiresAt <= now)
            && (step.result.Ok? ==>
                  step.tables == t.(hosts := t.hosts[host := t.hosts[host].(lastHeartbeat := now, expiresAt := now + cfg.hostTtl)]))
            && (step.result.Err? ==> step.tables == t)
  {
  }

  lemma UnregisterAnswers(cfg: RouterConfig, t: Tables, host: HostSessionId)
    requires Inv(cfg, t)
    ensures var step := UnregisterHost(t, host);
            var t' := step.tables;
            && (step.result.Ok? <==> host in t.hosts)
            && (step.result.Err? ==> step.result == Err(HostNotFound(host)) && t' == t)
            && (step.result.Ok? ==>
                  && t'.hosts == t.hosts - {host}
                  && (forall g :: g in t'.gameplay <==> g in t.gameplay && t.gameplay[g].hostPeer != t.hosts[host].peer)
                  && (forall g :: g in t'.gameplay ==> t'.gameplay[g] == t.gameplay[g])
                  && t'.rooms == t.rooms && t'.peers == t.peers && t'.discoveries == t.discoveries)
  {
    hide Inv;
    OriginHostPeer(cfg, t);
    InvRoutes(cfg, t);
    hide GameplayOk, HostsOk, DiscoveriesOk;
  }

  // ---------------------------------------------------------------- discovery

  /** A request for this port by this client is on, or the id is free. */
  predicate IdIsFree(t: Tables, room: RoomId, client: PeerId, request: DiscoveryRequestId, port: U16) {
    request in t.discoveries ==>
      t.discoveries[request].room == room && t.discoveries[request].client == client && t.discoveries[request].port == port
  }

  lemma DiscoverAnswers(cfg: RouterConfig, t: Tables, room: RoomId, client: PeerId, request: DiscoveryRequestId, port: U16, now: Time)
    ensures var step := BeginDiscovery(cfg, t, room, client, request, port, now);
            && (step.result.Ok? <==> 62900 <= port <= 62999 && IsIn(t, room, client) && IdIsFree(t, room, client, request, port))
            && (step.result == Err(InvalidDiscoveryPort(port)) <==> !(62900 <= port <= 62999))
            && (step.result == Err(RoomNotFound(room)) <==> 62900 <= port <= 62999 && room !in t.rooms)
            && (step.result == Err(PeerNotInRoom(client, room)) <==> 62900 <= port <= 62999 && room in t.rooms && !IsIn(t, room, client))
            && (step.result == Err(DiscoveryRequestConflict(request))
                <==> 62900 <= port <= 62999 && IsIn(t, room, client) && !IdIsFree(t, room, client, request, port))
            && (step.result.Ok? ==>
                  && step.tables == t.(discoveries := t.discoveries[request := Discovery(room, client, port, now + cfg.discoveryTtl)])
                  && forall target :: target in step.result.value <==>
                       && target.host in t.hosts && t.hosts[target.host].room == room && now < t.hosts[target.host].expiresAt
                       && target.peer == t.hosts[target.host].peer && target.ip == t.hosts[target.host].ip)
            && (step.result.Err? ==> step.tables == t)
  {
    assert client in Members(t.peers, room) <==> client in t.peers && t.peers[client].room == room;
    hide Members;
  }

  lemma ReplyAnswers(t: Tables, request: DiscoveryRequestId, host: HostSessionId, now: Time)
    ensures var result := RouteDiscoveryResponse(t, request, host, now);
            && (result.Ok? <==> request in t.discoveries && now < t.discoveries[request].expiresAt
                                && host in t.hosts && now < t.hosts[host].expiresAt
                                && t.hosts[host].room == t.discoveries[request].room)
            && (result.Ok? ==> result.value == t.discoveries[request].client)
            && (result == Err(DiscoveryNotFound(request)) <==> request !in t.discoveries)
            && (result == Err(DiscoveryExpired(request)) <==> request in t.discoveries && t.discoveries[request].expiresAt <= now)
            && (result == Err(HostNotFound(host))
                <==> request in t.discoveries && now < t.discoveries[request].expiresAt && host !in t.hosts)
            && (result == Err(HostExpired(host))
                <==> request in t.discoveries && now < t.discoveries[request].expiresAt && host in t.hosts
                     && t.hosts[host].expiresAt <= now)
            && (request in t.discoveries && now < t.discoveries[request].expiresAt && host in t.hosts && now < t.hosts[host].expiresAt ==>
                  result.Ok? || result == Err(HostNotInRoom(host, t.discoveries[request].room)))
  {
  }

  // ---------------------------------------------------------------- gameplay

  lemma SelectAnswers(cfg: RouterConfig, t: Tables, room: RoomId, client: PeerId, host: HostSessionId, newId: GameplaySessionId, now: Time)
    ensures var step := SelectHost(cfg, t, room, client, host, newId, now);
            && (step.result.Ok? <==> IsIn(t, room, client) && host in t.hosts && t.hosts[host].room == room
                                     && now < t.hosts[host].expiresAt && |t.gameplay| < cfg.maxGameplaySessions)
            && (step.result == Err(RoomNotFound(room)) <==> room !in t.rooms)
            && (step.result == Err(PeerNotInRoom(client, room)) <==> room in t.rooms && !IsIn(t, room, client))
            && (step.result == Err(HostNotFound(host)) <==> IsIn(t, room, client) && host !in t.hosts)
            && (step.result == Err(HostNotInRoom(host, room))
                <==> IsIn(t, room, client) && host in t.hosts && t.hosts[host].room != room)
            && (step.result == Err(HostExpired(host))
                <==> IsIn(t, room, client) && host in t.hosts && t.hosts[host].room == room && t.hosts[host].expiresAt <= now)
            && (step.result == Err(GameplayLimitReached)
                <==> IsIn(t, room, client) && host in t.hosts && t.hosts[host].room == room && now < t.hosts[host].expiresAt
                     && |t.gameplay| >= cfg.maxGameplaySessions)
            && (step.result.Ok? ==>
                  && step.result == Ok(newId) && newId in step.tables.gameplay
                  && step.tables.gameplay[newId]
                     == Gameplay(room, client, t.hosts[host].peer, t.hosts[host].ip, t.peers[client].ip, now, now + cfg.gameplayIdleTtl)
                  && step.tables.gameplay == t.gameplay[newId := step.tables.gameplay[newId]]
                  && step.tables.hosts == t.hosts && step.tables.peers == t.peers && step.tables.rooms == t.rooms
                  && step.tables.discoveries == t.discoveries)
            && (step.result.Err? ==> step.tables == t)
  {
    assert client in Members(t.peers, room) <==> client in t.peers && t.peers[client].room == room;
    hide Members;
  }

  predicate LiveGame(t: Tables, g: GameplaySessionId, now: Time) {
    g in t.gameplay && now < t.gameplay[g].expiresAt
  }

  /** A datagram is routed exactly when its session is live and its source is one of the two ends, and then
      to the other end: from the client to the host and from the host to the client. */
  lemma RouteAnswers(cfg: RouterConfig, t: Tables, g: GameplaySessionId, source: PeerId, now: Time)
    ensures var step := RouteGameplay(cfg, t, g, source, now);
            && (step.result.Ok? <==> LiveGame(t, g, now) && (source == t.gameplay[g].client || source == t.gameplay[g].hostPeer))
            && (step.result == Err(GameplayNotFound(g)) <==> !LiveGame(t, g, now))
            && (step.result == Err(UnauthorizedGameplayPeer(source, g))
                <==> LiveGame(t, g, now) && source != t.gameplay[g].client && source != t.gameplay[g].hostPeer)
            && (LiveGame(t, g, now) && source == t.gameplay[g].client ==>
                  step.result == Ok(GameplayRoute(g, t.gameplay[g].room, source, t.gameplay[g].hostPeer, t.gameplay[g].hostIp)))
            && (LiveGame(t, g, now) && source == t.gameplay[g].hostPeer && source != t.gameplay[g].client ==>
                  step.result == Ok(GameplayRoute(g, t.gameplay[g].room, source, t.gameplay[g].client, t.gameplay[g].clientIp)))
            && (step.result.Ok? ==>
                  step.tables == t.(gameplay := t.gameplay[g := t.gameplay[g].(lastActivity := now, expiresAt := now + cfg.gameplayIdleTtl)]))
            && (step.result.Err? ==> step.tables == t)
  {
  }

  lemma RemoveGameAnswers(t: Tables, g: GameplaySessionId)
    ensures var step := RemoveGameplaySession(t, g);
            && (step.result.Ok? <==> g in t.gameplay)
            && (step.result.Err? ==> step.result == Err(GameplayNotFound(g)) && step.tables == t)
            && (step.result.Ok? ==> step.tables == t.(gameplay := t.gameplay - {g}, origin := t.origin - {g}))
  {
  }

  // ---------------------------------------------------------------- the sweep

  /** The peer is within its lease, or within its recovery grace once suspended. */
  predicate InTime(cfg: RouterConfig, p: Peer, now: Time) {
    match p.disconnectedAt
    case None => now < p.lastSeen + cfg.peerTtl
    case Some(since) => now < since + cfg.peerGraceTtl
  }

  predicate PeerInTime(cfg: RouterConfig, t: Tables, peer: PeerId, now: Time) {
    peer in t.peers && InTime(cfg, t.peers[peer], now)
  }

  lemma SweepLeavesPeers(cfg: RouterConfig, t: Tables, now: Time, p: PeerId)
    ensures var t' := Swept(cfg, t, now);
            if PeerInTime(cfg, t, p, now) then p in t'.peers && t'.peers[p] == t.peers[p]
            else if p in t.peers && t.peers[p].disconnectedAt.None? && cfg.peerGraceTtl > 0 then
              p in t'.peers && t'.peers[p] == t.peers[p].(disconnectedAt := Some(now))
            else p !in t'.peers
  {
  }

  lemma SweepLeavesHosts(cfg: RouterConfig, t: Tables, now: Time, h: HostSessionId)
    ensures var t' := Swept(cfg, t, now);
            && (h in t'.hosts <==> h in t.hosts && now < t.hosts[h].expiresAt && PeerInTime(cfg, t, t.hosts[h].peer, now))
            && (h in t'.hosts ==> t'.hosts[h] == t.hosts[h])
  {
  }

  lemma SweepLeavesRequests(cfg: RouterConfig, t: Tables, now: Time, d: DiscoveryRequestId)
    ensures var t' := Swept(cfg, t, now);
            && (d in t'.discoveries
                <==> d in t.discoveries && now < t.discoveries[d].expiresAt && PeerInTime(cfg, t, t.discoveries[d].client, now))
            && (d in t'.discoveries ==> t'.discoveries[d] == t.discoveries[d])
  {
  }

  lemma SweepKeepsGame(cfg: RouterConfig, t: Tables, now: Time, g: GameplaySessionId)
    requires g in t.gameplay && g in t.origin && t.origin[g] in t.hosts
    ensures var t' := Swept(cfg, t, now);
            && (g in t'.gameplay <==>
                  && now < t.gameplay[g].expiresAt && PeerInTime(cfg, t, t.gameplay[g].client, now)
                  && now < t.hosts[t.origin[g]].expiresAt && PeerInTime(cfg, t, t.hosts[t.origin[g]].peer, now))
            && (g in t'.gameplay ==> t'.gameplay[g] == t.gameplay[g])
  {
  }

  /** A game survives a sweep exactly when its own lease, its host session's lease and both its peers do. */
  lemma SweepLeavesGames(cfg: RouterConfig, t: Tables, now: Time, g: GameplaySessionId)
    requires Inv(cfg, t)
    ensures var t' := Swept(cfg, t, now);
            && (g in t'.gameplay <==>
                  && g in t.gameplay && now < t.gameplay[g].expiresAt
                  && PeerInTime(cfg, t, t.gameplay[g].client, now) && PeerInTime(cfg, t, t.gameplay[g].hostPeer, now)
                  && exists h :: Owns(t, t.gameplay[g].room, t.gameplay[g].hostPeer, h) && now < t.hosts[h].expiresAt)
            && (g in t'.gameplay ==> t'.gameplay[g] == t.gameplay[g])
  {
    hide Inv, PeerInTime;
    if g in t.gameplay {
      var h := GameHost(cfg, t, g);
      assert t.hosts[h].peer == t.gameplay[g].hostPeer;
      SweepKeepsGame(cfg, t, now, g);
    }
  }

  /** Host sessions and requests whose own lease runs on, but that a sweep takes along with their peer. */
  function HostsAlong(cfg: RouterConfig, t: Tables, now: Time): set<HostSessionId> {
    set h | h in t.hosts && now < t.hosts[h].expiresAt && !PeerInTime(cfg, t, t.hosts[h].peer, now)
  }

  function RequestsAlong(cfg: RouterConfig, t: Tables, now: Time): set<DiscoveryRequestId> {
    set d | d in t.discoveries && now < t.discoveries[d].expiresAt && !PeerInTime(cfg, t, t.discoveries[d].client, now)
  }

  /** Games that go with their host session or with a peer. */
  function GamesAlong(cfg: RouterConfig, t: Tables, now: Time): set<GameplaySessionId> {
    set g | g in t.gameplay && GoesAlong(cfg, t, now, g)
  }

  predicate GoesAlong(cfg: RouterConfig, t: Tables, now: Time, g: GameplaySessionId) {
    && g in t.gameplay && g in t.origin && t.origin[g] in t.hosts
    && (t.hosts[t.origin[g]].expiresAt <= now
        || (now < t.gameplay[g].expiresAt
            && !(PeerInTime(cfg, t, t.gameplay[g].client, now) && PeerInTime(cfg, t, t.gameplay[g].hostPeer, now))))
  }

  /** What a sweep reports, and what it drops without reporting it, add up to what is gone: routes whose own lease
      had run out are reported, except games whose host session had run out as well; the rest went along with a
      peer or a host session. */
  lemma SweepAccounts(cfg: RouterConfig, t: Tables, now: Time)
    requires Inv(cfg, t)
    ensures var t', report := Swept(cfg, t, now), SweepReport(t, now);
            && |t.hosts| == |t'.hosts| + report.hosts + |HostsAlong(cfg, t, now)|
            && |t.discoveries| == |t'.discoveries| + report.discoveries + |RequestsAlong(cfg, t, now)|
            && |t.gameplay| == |t'.gameplay| + report.gameplay + |GamesAlong(cfg, t, now)|
  {
    hide Inv, Swept, SweepReport, HostsAlong, RequestsAlong, GamesAlong;
    HostsAccount(cfg, t, now);
    RequestsAccount(cfg, t, now);
    GamesAccount(cfg, t, now);
  }

  /** A map split three ways. */
  lemma SplitSize<K, V>(m: map<K, V>, rest: map<K, V>, a: set<K>, b: set<K>)
    requires forall k :: k in rest <==> k in m && k !in a && k !in b
    requires a <= m.Keys && b <= m.Keys && a !! b
    ensures |m| == |rest| + |a| + |b|
  {
    assert rest.Keys == m.Keys - a - b;
    assert |m.Keys - a| == |m.Keys| - |a|;
    assert |m.Keys - a - b| == |m.Keys - a| - |b|;
  }

  function HostsOver(t: Tables, now: Time): set<HostSessionId> {
    set h | h in t.hosts && t.hosts[h].expiresAt <= now
  }

  function RequestsOver(t: Tables, now: Time): set<DiscoveryRequestId> {
    set d | d in t.discoveries && t.discoveries[d].expiresAt <= now
  }

  /** Games of a live host session whose own lease has run out. */
  function GamesOver(t: Tables, now: Time): set<GameplaySessionId> {
    set g | g in t.gameplay && g in t.origin && t.origin[g] in t.hosts && now < t.hosts[t.origin[g]].expiresAt && t.gameplay[g].expiresAt <= now
  }

  lemma Reported(cfg: RouterConfig, t: Tables, now: Time)
    requires Inv(cfg, t)
    ensures SweepReport(t, now) == ExpirationReport(|HostsOver(t, now)|, |RequestsOver(t, now)|, |GamesOver(t, now)|)
  {
    hide Inv;
    OriginsThere(cfg, t);
    var hosts := set h | h in t.hosts && t.hosts[h].expiresAt <= now;
    assert hosts == HostsOver(t, now);
    assert (set d | d in t.discoveries && t.discoveries[d].expiresAt <= now) == RequestsOver(t, now);
    assert (set g | g in t.gameplay && g in t.origin && t.origin[g] !in hosts && t.gameplay[g].expiresAt <= now) == GamesOver(t, now);
  }

  lemma OriginsThere(cfg: RouterConfig, t: Tables)
    requires Inv(cfg, t)
    ensures forall g :: g in t.gameplay ==> g in t.origin && t.origin[g] in t.hosts
  {
    hide Inv;
    InvRoutes(cfg, t);
    assert forall g :: g in t.gameplay ==> CameFrom(t.hosts, t.gameplay[g], t.origin[g]);
  }

  lemma HostAccount(cfg: RouterConfig, t: Tables, now: Time, h: HostSessionId)
    ensures h in Swept(cfg, t, now).hosts <==> h in t.hosts && h !in HostsOver(t, now) && h !in HostsAlong(cfg, t, now)
    ensures !(h in HostsOver(t, now) && h in HostsAlong(cfg, t, now))
    ensures h in HostsOver(t, now) || h in HostsAlong(cfg, t, now) ==> h in t.hosts
  {
    hide Swept, PeerInTime;
    SweepLeavesHosts(cfg, t, now, h);
  }

  lemma HostsAccount(cfg: RouterConfig, t: Tables, now: Time)
    requires Inv(cfg, t)
    ensures |t.hosts| == |Swept(cfg, t, now).hosts| + SweepReport(t, now).hosts + |HostsAlong(cfg, t, now)|
  {
    hide Inv, Swept, SweepReport, HostsOver, HostsAlong;
    Reported(cfg, t, now);
    forall h
      ensures h in Swept(cfg, t, now).hosts <==> h in t.hosts && h !in HostsOver(t, now) && h !in HostsAlong(cfg, t, now)
      ensures !(h in HostsOver(t, now) && h in HostsAlong(cfg, t, now))
      ensures h in HostsOver(t, now) || h in HostsAlong(cfg, t, now) ==> h in t.hosts
    {
      HostAccount(cfg, t, now, h);
    }
    SplitSize(t.hosts, Swept(cfg, t, now).hosts, HostsOver(t, now), HostsAlong(cfg, t, now));
  }

  lemma RequestAccount(cfg: RouterConfig, t: Tables, now: Time, d: DiscoveryRequestId)
    ensures d in Swept(cfg, t, now).discoveries <==> d in t.discoveries && d !in RequestsOver(t, now) && d !in RequestsAlong(cfg, t, now)
    ensures !(d in RequestsOver(t, now) && d in RequestsAlong(cfg, t, now))
    ensures d in RequestsOver(t, now) || d in RequestsAlong(cfg, t, now) ==> d in t.discoveries
  {
    hide Swept, PeerInTime;
    SweepLeavesRequests(cfg, t, now, d);
  }

  lemma RequestsAccount(cfg: RouterConfig, t: Tables, now: Time)
    requires Inv(cfg, t)
    ensures |t.discoveries| == |Swept(cfg, t, now).discoveries| + SweepReport(t, now).discoveries + |RequestsAlong(cfg, t, now)|
  {
    hide Inv, Swept, SweepReport, HostsOver, RequestsOver, RequestsAlong, GamesOver;
    Reported(cfg, t, now);
    forall d
      ensures d in Swept(cfg, t, now).discoveries <==> d in t.discoveries && d !in RequestsOver(t, now) && d !in RequestsAlong(cfg, t, now)
      ensures !(d in RequestsOver(t, now) && d in RequestsAlong(cfg, t, now))
      ensures d in RequestsOver(t, now) || d in RequestsAlong(cfg, t, now) ==> d in t.discoveries
    {
      RequestAccount(cfg, t, now, d);
    }
    SplitSize(t.discoveries, Swept(cfg, t, now).discoveries, RequestsOver(t, now), RequestsAlong(cfg, t, now));
  }

  lemma GameAccount(cfg: RouterConfig, t: Tables, now: Time, g: GameplaySessionId)
    requires Inv(cfg, t)
    ensures g in Swept(cfg, t, now).gameplay <==> g in t.gameplay && g !in GamesAlong(cfg, t, now) && g !in GamesOver(t, now)
    ensures !(g in GamesOver(t, now) && g in GamesAlong(cfg, t, now))
    ensures g in GamesOver(t, now) || g in GamesAlong(cfg, t, now) ==> g in t.gameplay
  {
    hide Inv, PeerInTime, Swept;
    SweepLeavesGames(cfg, t, now, g);
    InvRoutes(cfg, t);
    if g in t.gameplay {
      var h := t.origin[g];
      assert CameFrom(t.hosts, t.gameplay[g], h);
      assert Owns(t, t.gameplay[g].room, t.gameplay[g].hostPeer, h);
      assert forall k :: Owns(t, t.gameplay[g].room, t.gameplay[g].hostPeer, k) ==> k == h;
    }
    hide GameplayOk, HostsOk, DiscoveriesOk, OneHostPerPeer;
  }

  lemma GamesAccount(cfg: RouterConfig, t: Tables, now: Time)
    requires Inv(cfg, t)
    ensures |t.gameplay| == |Swept(cfg, t, now).gameplay| + SweepReport(t, now).gameplay + |GamesAlong(cfg, t, now)|
  {
    hide Inv, Swept, SweepReport, HostsOver, RequestsOver, GamesOver, GamesAlong;
    Reported(cfg, t, now);
    forall g
      ensures g in Swept(cfg, t, now).gameplay <==> g in t.gameplay && g !in GamesAlong(cfg, t, now) && g !in GamesOver(t, now)
      ensures !(g in GamesOver(t, now) && g in GamesAlong(cfg, t, now))
      ensures g in GamesOver(t, now) || g in GamesAlong(cfg, t, now) ==> g in t.gameplay
    {
      GameAccount(cfg, t, now, g);
    }
    SplitSize(t.gameplay, Swept(cfg, t, now).gameplay, GamesOver(t, now), GamesAlong(cfg, t, now));
  }

  // ---------------------------------------------------------------- dispatch

  predicate SmallEnough(cfg: RouterConfig, payload: seq<Byte>) {
    |payload| <= 4096 && |payload| <= cfg.safePayloadSize
  }

  lemma DispatchesDiscovery(cfg: RouterConfig, t: Tables, source: PeerId, request: DiscoveryRequestId, port: U16, payload: seq<Byte>, now: Time)
    requires Inv(cfg, t)
    ensures var step := Dispatch(cfg, t, DiscoveryIngress(source, request, port, payload, now));
            && (step.result.Ok? <==> SmallEnough(cfg, payload) && 62900 <= port <= 62999 && source in t.peers
                                     && IdIsFree(t, t.peers[source].room, source, request, port))
            && (step.result == Err(DatagramTooLarge(|payload|)) <==> !SmallEnough(cfg, payload))
            && (step.result == Err(PeerNotFound(source)) <==> SmallEnough(cfg, payload) && source !in t.peers)
            && (step.result == Err(InvalidDiscoveryPort(port))
                <==> SmallEnough(cfg, payload) && source in t.peers && !(62900 <= port <= 62999))
  {
    hide Inv, BeginDiscovery;
    if source in t.peers {
      Open(cfg, t);
      assert t.peers[source].room in t.rooms;
      DiscoverAnswers(cfg, t, t.peers[source].room, source, request, port, now);
    }
  }

  lemma DispatchesResponse(cfg: RouterConfig, t: Tables, host: HostSessionId, request: DiscoveryRequestId, port: U16, payload: seq<Byte>, now: Time)
    ensures var step := Dispatch(cfg, t, ResponseIngress(host, request, port, payload, now));
            && (step.result.Ok? <==>
                  && SmallEnough(cfg, payload) && 62900 <= port <= 62999
                  && request in t.discoveries && now < t.discoveries[request].expiresAt
                  && host in t.hosts && now < t.hosts[host].expiresAt && t.hosts[host].room == t.discoveries[request].room)
            && (step.result == Err(DatagramTooLarge(|payload|)) <==> !SmallEnough(cfg, payload))
            && (step.result == Err(InvalidDiscoveryPort(port)) <==> SmallEnough(cfg, payload) && !(62900 <= port <= 62999))
            && step.tables == t
  {
    ReplyAnswers(t, request, host, now);
  }

  lemma DispatchesGameplay(cfg: RouterConfig, t: Tables, g: GameplaySessionId, source: PeerId, port: U16, payload: seq<Byte>, now: Time)
    ensures var step := Dispatch(cfg, t, GameplayIngress(g, source, port, payload, now));
            && (step.result.Ok? <==> SmallEnough(cfg, payload) && port == 62056 && LiveGame(t, g, now)
                                     && (source == t.gameplay[g].client || source == t.gameplay[g].hostPeer))
            && (step.result == Err(DatagramTooLarge(|payload|)) <==> !SmallEnough(cfg, payload))
            && (step.result == Err(InvalidGameplayPort(port)) <==> SmallEnough(cfg, payload) && port != 62056)
  {
    hide RouteGameplay;
    RouteAnswers(cfg, t, g, source, now);
  }
}
