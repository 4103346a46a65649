/** The room router of crates/router/src/lib.rs: eight hash maps, most of them redundant with each
    other, updated in place. `Valid()` says every index answers what a full scan of the primary
    tables would, and each method does to those tables what `RouterTables` says. */
module RoomRouterClass {
  import opened Protocol
  import opened RouterTables
  import opened RouterInvariant
  import opened RouterIndexes
  import opened RouterPasses

  /** The action the program built is the specified one, with the targets listed in some order. */
  ghost predicate Realizes(actual: RelayAction<seq<DiscoveryTarget>>, expected: RelayAction<set<DiscoveryTarget>>) {
    match (actual, expected)
    case (DiscoveryFanout(request, source, port, targets, payload), DiscoveryFanout(request', source', port', targets', payload')) =>
      request == request' && source == source' && port == port' && payload == payload' && Lists(targets, targets')
    case (DiscoveryUnicast(request, destination, ip, port, payload), DiscoveryUnicast(request', destination', ip', port', payload')) =>
      request == request' && destination == destination' && ip == ip' && port == port' && payload == payload'
    case (GameplayUnicast(route, port, payload), GameplayUnicast(route', port', payload')) =>
      route == route' && port == port' && payload == payload'
    case _ => false
  }

  class RoomRouter {
    const config: RouterConfig
    var rooms: RoomStates
    var roomsByCode: CodeMap
    var peers: Peers
    var virtualIps: IpMap
    var hosts: Hosts
    var hostByPeer: HostByPeer
    var discoveries: Discoveries
    var gameplay: Sessions
    ghost var origin: Origins

    ghost function Abs(): Tables
      reads this
    {
      Tables(Codes(rooms), peers, hosts, discoveries, gameplay, origin)
    }

    ghost function Fields(): Store
      reads this
    {
      Store(rooms, roomsByCode, peers, virtualIps, hosts, hostByPeer)
    }

    ghost predicate Valid()
      reads this
    {
      Indexed(Fields()) && Inv(config, Abs())
    }

    constructor (config: RouterConfig)
      ensures Valid() && this.config == config && Abs() == EMPTY
    {
      this.config := config;
      rooms, roomsByCode, peers, virtualIps := map[], map[], map[], map[];
      hosts, hostByPeer, discoveries, gameplay, origin := map[], map[], map[], map[], map[];
      new;
      EmptyOk(config);
      assert Abs() == EMPTY;
    }

    // -------------------------------------------------------------- rooms

    method CreateRoomWithId(room: RoomId, code: RoomCode) returns (r: Result<(), RouterError>)
      requires Valid()
      modifies this
      ensures Valid()
      ensures Step(Abs(), r) == CreateRoom(config, old(Abs()), room, code)
    {
      hide Inv, Indexed;
      ghost var t, st := Abs(), Fields();
      CodesSize(rooms);
      if |rooms| >= config.maxRooms {
        return Err(RoomLimitReached);
      }
      CodeAnswers(st, code);
      if code in roomsByCode {
        return Err(DuplicateRoomCode(code));
      }
      if room in rooms {
        return Err(DuplicateRoomId(room));
      }
      NewRoomIsEmpty(config, t, room);
      AddRoomStore(st, room, code);
      AddRoomOk(config, t, room, code);
      rooms := rooms[room := RoomState(code, {}, {})];
      roomsByCode := roomsByCode[code := room];
      SameTables(config, t.(rooms := t.rooms[room := code]), Abs());
      return Ok(());
    }

    method RemoveEmptyRoom(room: RoomId) returns (r: Result<(), RouterError>)
      requires Valid()
      modifies this
      ensures Valid()
      ensures Step(Abs(), r) == RouterTables.RemoveEmptyRoom(old(Abs()), room)
    {
      hide Inv, Indexed;
      ghost var t, st := Abs(), Fields();
      if room !in rooms {
        return Err(RoomNotFound(room));
      }
      RoomMembers(st, room);
      if rooms[room].members != {} || rooms[room].hostSessions != {} {
        return Err(RoomNotEmpty(room));
      }
      DropRoomStore(st, room);
      DropRoomOk(config, t, room);
      var code := rooms[room].code;
      rooms := rooms - {room};
      roomsByCode := roomsByCode - {code};
      SameTables(config, t.(rooms := t.rooms - {room}), Abs());
      return Ok(());
    }

    // -------------------------------------------------------------- peers

    function RoomIdForCode(code: RoomCode): (r: Option<RoomId>)
      requires Valid()
      reads this
      ensures r.Some? ==> r.value in Abs().rooms && Abs().rooms[r.value] == code
      ensures r.None? <==> !CodeTaken(Abs().rooms, code)
    {
      CodeAnswers(Fields(), code);
      if code in roomsByCode then Some(roomsByCode[code]) else None
    }

    function PeerForVirtualIp(ip: VirtualIp): (r: Option<PeerId>)
      requires Valid()
      reads this
      ensures r == PeerWithIp(peers, ip)
    {
      IpAnswers(Fields(), ip);
      if ip in virtualIps then Some(virtualIps[ip]) else None
    }

    function IsVirtualIpAvailable(ip: VirtualIp): (r: bool)
      requires Valid()
      reads this
      ensures r <==> !IpTaken(peers, ip)
    {
      IpAnswers(Fields(), ip);
      ip !in virtualIps
    }

    method JoinRoom(room: RoomId, peer: PeerId, ip: VirtualIp, now: Time) returns (r: Result<(), RouterError>)
      requires Valid()
      modifies this
      ensures Valid()
      ensures Step(Abs(), r) == RouterTables.JoinRoom(config, old(Abs()), room, peer, ip, now)
    {
      hide Inv, Indexed;
      ghost var t, st := Abs(), Fields();
      if room !in rooms {
        return Err(RoomNotFound(room));
      }
      RoomMembers(st, room);
      if |rooms[room].members| >= config.maxPeersPerRoom {
        return Err(RoomPeerLimitReached(room));
      }
      if |peers| >= config.maxTotalPeers {
        return Err(PeerLimitReached);
      }
      if peer in peers {
        return Err(PeerAlreadyInRoom(peer));
      }
      IpAnswers(st, ip);
      if ip in virtualIps {
        return Err(VirtualIpInUse(ip));
      }
      var p := Peer(room, ip, now, None, 1);
      AddPeerOk(config, t, peer, p);
      AddMember(peer, p);
      SameTables(config, t.(peers := t.peers[peer := p]), Abs());
      return Ok(());
    }

    /** The end of `join_room`: the member, the peer and its address come in. */
    method AddMember(peer: PeerId, p: Peer)
      requires Indexed(Fields()) && peer !in peers && p.ip !in virtualIps && p.room in rooms
      modifies this`rooms, this`peers, this`virtualIps
      ensures Indexed(Fields()) && peers == old(peers)[peer := p] && Codes(rooms) == old(Codes(rooms))
    {
      hide Indexed;
      AddPeerStore(Fields(), peer, p);
      rooms := WithMembers(rooms, p.room, rooms[p.room].members + {peer});
      peers := peers[peer := p];
      virtualIps := virtualIps[p.ip := peer];
    }

    /** Writing through `get_mut`: the peer's lease state changes, the peer stays where it is. */
    method TouchPeer(peer: PeerId, p: Peer)
      requires Valid() && IsMember(peers, p.room, peer, p.ip) && LeaseOk(config, p)
      modifies this`peers
      ensures Valid() && Abs() == old(Abs()).(peers := old(peers)[peer := p])
    {
      hide Inv, Indexed;
      ghost var t := Abs();
      TouchPeerStore(Fields(), peer, p);
      TouchPeerOk(config, t, peer, p);
      peers := peers[peer := p];
      SameTables(config, t.(peers := t.peers[peer := p]), Abs());
    }

    method MarkPeerSeen(peer: PeerId, now: Time) returns (r: Result<(), RouterError>)
      requires Valid()
      modifies this
      ensures Valid()
      ensures Step(Abs(), r) == RouterTables.MarkPeerSeen(old(Abs()), peer, now)
    {
      hide Inv, Indexed;
      if peer !in peers {
        return Err(PeerNotFound(peer));
      }
      if peers[peer].disconnectedAt.Some? {
        return Err(PeerDisconnected(peer));
      }
      PeerLeaseOk(config, Abs(), peer);
      TouchPeer(peer, peers[peer].(lastSeen := now));
      return Ok(());
    }

    method ResumePeer(room: RoomId, peer: PeerId, now: Time) returns (r: Result<PeerSnapshot, RouterError>)
      requires Valid()
      modifies this
      ensures Valid()
      ensures Step(Abs(), r) == RouterTables.ResumePeer(config, old(Abs()), room, peer, now)
    {
      hide Inv, Indexed;
      if peer !in peers {
        return Err(PeerNotFound(peer));
      }
      PeerLeaseOk(config, Abs(), peer);
      var p := peers[peer];
      if p.room != room {
        return Err(PeerNotInRoom(peer, room));
      }
      if p.disconnectedAt.Some? {
        if p.disconnectedAt.value + config.peerGraceTtl <= now {
          return Err(PeerGraceExpired(peer));
        }
        p := p.(epoch := MaxU64(SaturatingSucc(p.epoch), 1));
        p := p.(disconnectedAt := None);
      }
      p := p.(lastSeen := now);
      TouchPeer(peer, p);
      return Ok(PeerSnapshot(p.room, peer, p.ip, p.epoch));
    }

    method LeaveRoom(room: RoomId, peer: PeerId) returns (r: Result<(), RouterError>)
      requires Valid()
      modifies this
      ensures Valid()
      ensures Step(Abs(), r) == RouterTables.LeaveRoom(old(Abs()), room, peer)
    {
      hide Inv, Indexed;
      ghost var t := Abs();
      if room !in rooms {
        return Err(RoomNotFound(room));
      }
      RoomMembers(Fields(), room);
      if peer !in rooms[room].members {
        return Err(PeerNotInRoom(peer, room));
      }
      EvictOk(config, t, {peer});
      RemoveRoutesIn(room, peer);
      RemoveMember(room, peer);
      SameTables(config, Evict(t, {peer}), Abs());
      return Ok(());
    }

    /** The three collect-and-remove passes of `leave_room`. */
    method RemoveRoutesIn(room: RoomId, peer: PeerId)
      requires Valid() && InRoom(peers, room, peer)
      modifies this
      ensures Indexed(Fields()) && Abs() == WithoutRoutesOf(old(Abs()), {peer})
    {
      hide Inv, Indexed;
      LeavingDropsRoutes(config, Abs(), room, peer);
      RemoveHosts(SessionsOf(hosts, room, peer));
      RemoveSessions(SessionsIn(gameplay, room, peer));
      RemoveDiscoveries(RequestsIn(discoveries, room, peer));
    }

    /** The end of `leave_room`: the member, the peer and its address go. */
    method RemoveMember(room: RoomId, peer: PeerId)
      requires Indexed(Fields()) && InRoom(peers, room, peer) && room in rooms
      modifies this`rooms, this`peers, this`virtualIps
      ensures Indexed(Fields()) && peers == old(peers) - {peer} && Codes(rooms) == old(Codes(rooms))
    {
      hide Indexed;
      DropPeerStore(Fields(), peer);
      rooms := WithMembers(rooms, room, rooms[room].members - {peer});
      var ip := peers[peer].ip;
      peers := peers - {peer};
      virtualIps := virtualIps - {ip};
    }

    // -------------------------------------------------------------- removing routes

    method RemoveHost(host: HostSessionId)
      requires Valid()
      modifies this
      ensures Valid() && Abs() == WithoutHosts(old(Abs()), {host})
    {
      hide Inv, Indexed;
      ghost var t := Abs();
      WithoutHostsOk(config, t, {host});
      if host !in hosts {
        WithoutNoHosts(config, t, {host});
        return;
      }
      HostHasRoom(config, t, host);
      SessionsMatchedByHost(config, t, host);
      var h := hosts[host];
      TakeOutHost(host);
      gameplay, origin := gameplay - HostedBy(gameplay, h), origin - HostedBy(gameplay, h);
      SameTables(config, WithoutHosts(t, {host}), Abs());
    }

    /** The start of `remove_host`: the host session and its two index entries go. */
    method TakeOutHost(host: HostSessionId)
      requires Indexed(Fields()) && host in hosts && hosts[host].room in rooms
      modifies this`rooms, this`hosts, this`hostByPeer
      ensures Indexed(Fields()) && hosts == old(hosts) - {host} && Codes(rooms) == old(Codes(rooms))
    {
      hide Indexed;
      DropHostStore(Fields(), host);
      var h := hosts[host];
      hosts := hosts - {host};
      hostByPeer := hostByPeer - {(h.room, h.peer)};
      if h.room in rooms {
        rooms := WithSessions(rooms, h.room, rooms[h.room].hostSessions - {host});
      }
    }

    /** `for host_id in host_ids { self.remove_host(host_id) }`, in whatever order they were collected. */
    method RemoveHosts(ids: set<HostSessionId>)
      requires Valid()
      modifies this
      ensures Valid() && Abs() == WithoutHosts(old(Abs()), ids)
    {
      hide Inv, Indexed;
      ghost var t := Abs();
      WithoutNoHosts(config, t, {});
      var left := ids;
      ghost var gone := {};
      while left != {}
        invariant gone + left == ids && Valid() && Abs() == WithoutHosts(t, gone)
      {
        var h :| h in left;
        RemoveHost(h);
        WithoutHostsTwice(t, gone, {h});
        left, gone := left - {h}, gone + {h};
      }
      assert gone == ids;
    }

    method RemoveSessions(ids: set<GameplaySessionId>)
      modifies this`gameplay, this`origin
      ensures gameplay == old(gameplay) - ids && origin == old(origin) - ids
    {
      var left := ids;
      while left != {}
        invariant left <= ids && gameplay == old(gameplay) - (ids - left) && origin == old(origin) - (ids - left)
      {
        var g :| g in left;
        gameplay := gameplay - {g};
        origin := origin - {g};
        left := left - {g};
      }
    }

    method RemoveDiscoveries(ids: set<DiscoveryRequestId>)
      modifies this`discoveries
      ensures discoveries == old(discoveries) - ids
    {
      var left := ids;
      while left != {}
        invariant left <= ids && discoveries == old(discoveries) - (ids - left)
      {
        var d :| d in left;
        discoveries := discoveries - {d};
        left := left - {d};
      }
    }

    // -------------------------------------------------------------- host sessions

    method MemberState(room: RoomId, peer: PeerId) returns (r: Result<Peer, RouterError>)
      requires Valid()
      ensures r == RouterTables.MemberState(Abs(), room, peer)
    {
      hide Inv, Indexed;
      if room !in rooms {
        return Err(RoomNotFound(room));
      }
      RoomMembers(Fields(), room);
      if peer !in rooms[room].members {
        return Err(PeerNotInRoom(peer, room));
      }
      return Ok(peers[peer]);
    }

    /** `newId` is what `HostSessionId::new()` would draw: an id not in use. */
    method RegisterHost(room: RoomId, peer: PeerId, newId: HostSessionId, now: Time) returns (r: Result<HostSessionId, RouterError>)
      requires Valid() && newId !in hosts
      modifies this
      ensures Valid()
      ensures Step(Abs(), r) == RouterTables.RegisterHost(config, old(Abs()), room, peer, newId, now)
    {
      hide Inv, Indexed;
      ghost var t := Abs();
      var member :- MemberState(room, peer);
      HostByPeerAnswers(Fields(), room, peer);
      if (room, peer) in hostByPeer {
        var existingId := hostByPeer[(room, peer)];
        assert existingId in SessionsOf(hosts, room, peer);
        if hosts[existingId].expiresAt > now {
          assert LiveSession(t, existingId, room, peer, now);
          RefreshHost(existingId, now);
          return Ok(existingId);
        }
        RemoveHost(existingId);
      }
      NoneLeft(config, t, room, peer);
      assert Abs() == WithoutHosts(t, SessionsOf(t.hosts, room, peer));
      assert forall h :: !LiveSession(t, h, room, peer, now);
      r := AddHost(room, peer, member.ip, newId, now);
    }

    method AddHost(room: RoomId, peer: PeerId, ip: VirtualIp, newId: HostSessionId, now: Time)
      returns (r: Result<HostSessionId, RouterError>)
      requires Valid() && newId !in hosts && IsMember(peers, room, peer, ip) && SessionsOf(hosts, room, peer) == {}
      modifies this
      ensures Valid()
      ensures |HostSessions(old(hosts), room)| >= config.maxHostsPerRoom ==> r == Err(HostLimitReached(room)) && Abs() == old(Abs())
      ensures |HostSessions(old(hosts), room)| < config.maxHostsPerRoom ==>
                && r == Ok(newId)
                && Abs() == old(Abs()).(hosts := old(hosts)[newId := Host(room, peer, ip, now, now + config.hostTtl)])
    {
      hide Inv, Indexed;
      ghost var t := Abs();
      PeerLeaseOk(config, t, peer);
      RoomMembers(Fields(), room);
      HostByPeerAnswers(Fields(), room, peer);
      if |rooms[room].hostSessions| >= config.maxHostsPerRoom {
        return Err(HostLimitReached(room));
      }
      var host := Host(room, peer, ip, now, now + config.hostTtl);
      AddHostOk(config, t, newId, host);
      PutHost(newId, host);
      SameTables(config, t.(hosts := t.hosts[newId := host]), Abs());
      return Ok(newId);
    }

    /** The end of `register_host`: the host session and its two index entries come in. */
    method PutHost(newId: HostSessionId, host: Host)
      requires Indexed(Fields()) && newId !in hosts && host.room in rooms && (host.room, host.peer) !in hostByPeer
      modifies this`rooms, this`hosts, this`hostByPeer
      ensures Indexed(Fields()) && hosts == old(hosts)[newId := host] && Codes(rooms) == old(Codes(rooms))
    {
      hide Indexed;
      AddHostStore(Fields(), newId, host);
      hosts := hosts[newId := host];
      hostByPeer := hostByPeer[(host.room, host.peer) := newId];
      rooms := WithSessions(rooms, host.room, rooms[host.room].hostSessions + {newId});
    }

    method RefreshHost(host: HostSessionId, now: Time)
      requires Valid() && host in hosts
      modifies this`hosts
      ensures Valid() && Abs() == Refresh(config, old(Abs()), host, now)
    {
      hide Inv, Indexed;
      ghost var t := Abs();
      var h := hosts[host].(lastHeartbeat := now, expiresAt := now + config.hostTtl);
      RefreshOk(config, t, host, now);
      TouchHostStore(Fields(), host, h);
      hosts := hosts[host := h];
      SameTables(config, t.(hosts := t.hosts[host := h]), Abs());
    }

    method HeartbeatHost(host: HostSessionId, now: Time) returns (r: Result<(), RouterError>)
      requires Valid()
      modifies this
      ensures Valid()
      ensures Step(Abs(), r) == RouterTables.HeartbeatHost(config, old(Abs()), host, now)
    {
      hide Inv, Indexed;
      if host !in hosts {
        return Err(HostNotFound(host));
      }
      if hosts[host].expiresAt <= now {
        return Err(HostExpired(host));
      }
      RefreshHost(host, now);
      return Ok(());
    }

    method HeartbeatHostForRoom(room: RoomId, peer: PeerId, host: HostSessionId, now: Time) returns (r: Result<(), RouterError>)
      requires Valid()
      modifies this
      ensures Valid()
      ensures Step(Abs(), r) == RouterTables.HeartbeatHostForRoom(config, old(Abs()), room, peer, host, now)
    {
      hide Inv, Indexed;
      if host !in hosts {
        return Err(HostNotFound(host));
      }
      if hosts[host].room != room || hosts[host].peer != peer {
        return Err(HostNotInRoom(host, room));
      }
      r := HeartbeatHost(host, now);
    }

    method UnregisterHost(host: HostSessionId) returns (r: Result<(), RouterError>)
      requires Valid()
      modifies this
      ensures Valid()
      ensures Step(Abs(), r) == RouterTables.UnregisterHost(old(Abs()), host)
    {
      hide Inv, Indexed;
      if host !in hosts {
        return Err(HostNotFound(host));
      }
      RemoveHost(host);
      return Ok(());
    }

    // -------------------------------------------------------------- discovery

    method BeginDiscovery(room: RoomId, client: PeerId, request: DiscoveryRequestId, port: U16, now: Time)
      returns (r: Result<seq<DiscoveryTarget>, RouterError>)
      requires Valid()
      modifies this
      ensures Valid()
      ensures var step := RouterTables.BeginDiscovery(config, old(Abs()), room, client, request, port, now);
              && Abs() == step.tables
              && (if step.result.Ok? then r.Ok? && Lists(r.value, step.result.value) else r == Err(step.result.error))
    {
      hide Inv, Indexed;
      ghost var t := Abs();
      if !IsDiscoveryPort(port) {
        return Err(InvalidDiscoveryPort(port));
      }
      var member := MemberState(room, client);
      if member.Err? {
        return Err(member.error);
      }
      if request in discoveries {
        var existing := discoveries[request];
        if existing.room != room || existing.client != client || existing.port != port {
          return Err(DiscoveryRequestConflict(request));
        }
        discoveries := discoveries[request := existing.(expiresAt := now + config.discoveryTtl)];
      } else {
        discoveries := discoveries[request := Discovery(room, client, port, now + config.discoveryTtl)];
      }
      PutDiscoveryOk(config, t, request, Discovery(room, client, port, now + config.discoveryTtl));
      SameTables(config, t.(discoveries := t.discoveries[request := Discovery(room, client, port, now + config.discoveryTtl)]), Abs());
      RoomMembers(Fields(), room);
      var targets := CollectTargets(rooms[room].hostSessions, now);
      assert TargetsIn(hosts, HostSessions(hosts, room), now) == LiveTargets(hosts, room, now);
      return Ok(targets);
    }

    /** The filter-and-map over a room's host sessions, visited in an arbitrary order. */
    method CollectTargets(ids: set<HostSessionId>, now: Time) returns (targets: seq<DiscoveryTarget>)
      ensures Lists(targets, TargetsIn(hosts, ids, now))
    {
      var left := ids;
      ghost var seen := {};
      targets := [];
      while left != {}
        invariant seen + left == ids && seen !! left && Lists(targets, TargetsIn(hosts, seen, now))
      {
        var h :| h in left;
        if h in hosts && hosts[h].expiresAt > now {
          var target := DiscoveryTarget(h, hosts[h].peer, hosts[h].ip);
          assert TargetsIn(hosts, seen + {h}, now) == TargetsIn(hosts, seen, now) + {target};
          ListsOneMore(targets, TargetsIn(hosts, seen, now), target);
          targets := targets + [target];
        } else {
          assert TargetsIn(hosts, seen + {h}, now) == TargetsIn(hosts, seen, now);
        }
        left, seen := left - {h}, seen + {h};
      }
      assert seen == ids;
    }

    method RouteDiscoveryResponse(request: DiscoveryRequestId, host: HostSessionId, now: Time) returns (r: Result<PeerId, RouterError>)
      ensures r == RouterTables.RouteDiscoveryResponse(Abs(), request, host, now)
    {
      if request !in discoveries {
        return Err(DiscoveryNotFound(request));
      }
      var discovery := discoveries[request];
      if discovery.expiresAt <= now {
        return Err(DiscoveryExpired(request));
      }
      if host !in hosts {
        return Err(HostNotFound(host));
      }
      if hosts[host].expiresAt <= now {
        return Err(HostExpired(host));
      }
      if hosts[host].room != discovery.room {
        return Err(HostNotInRoom(host, discovery.room));
      }
      return Ok(discovery.client);
    }

    // -------------------------------------------------------------- gameplay

    /** `newId` is what `GameplaySessionId::new()` would draw. */
    method SelectHost(room: RoomId, client: PeerId, host: HostSessionId, newId: GameplaySessionId, now: Time)
      returns (r: Result<GameplaySessionId, RouterError>)
      requires Valid()
      modifies this
      ensures Valid()
      ensures Step(Abs(), r) == RouterTables.SelectHost(config, old(Abs()), room, client, host, newId, now)
    {
      hide Inv, Indexed;
      ghost var t := Abs();
      var member :- MemberState(room, client);
      if host !in hosts {
        return Err(HostNotFound(host));
      }
      var selected := hosts[host];
      if selected.room != room {
        return Err(HostNotInRoom(host, room));
      }
      if selected.expiresAt <= now {
        return Err(HostExpired(host));
      }
      if |gameplay| >= config.maxGameplaySessions {
        return Err(GameplayLimitReached);
      }
      var session := Gameplay(room, client, selected.peer, selected.ip, member.ip, now, now + config.gameplayIdleTtl);
      PutSession(newId, session, host);
      return Ok(newId);
    }

    method PutSession(id: GameplaySessionId, session: Gameplay, ghost host: HostSessionId)
      requires Valid() && (id in gameplay || |gameplay| < config.maxGameplaySessions)
      requires IsMember(peers, session.room, session.client, session.clientIp) && CameFrom(hosts, session, host)
      modifies this`gameplay, this`origin
      ensures Valid() && Abs() == old(Abs()).(gameplay := old(gameplay)[id := session], origin := old(origin)[id := host])
    {
      hide Inv, Indexed;
      ghost var t := Abs();
      gameplay := gameplay[id := session];
      origin := origin[id := host];
      PutsSessionOk(config, t, Abs(), id, session, host);
    }

    method RouteGameplayDatagram(session: GameplaySessionId, source: PeerId, now: Time) returns (r: Result<GameplayRoute, RouterError>)
      requires Valid()
      modifies this
      ensures Valid()
      ensures Step(Abs(), r) == RouteGameplay(config, old(Abs()), session, source, now)
    {
      hide Inv, Indexed;
      ghost var t := Abs();
      RouteGameplayOk(config, t, session, source, now);
      if session !in gameplay {
        return Err(GameplayNotFound(session));
      }
      var g := gameplay[session];
      if g.expiresAt <= now {
        return Err(GameplayNotFound(session));
      }
      var destination, destinationIp;
      if source == g.client {
        destination, destinationIp := g.hostPeer, g.hostIp;
      } else if source == g.hostPeer {
        destination, destinationIp := g.client, g.clientIp;
      } else {
        return Err(UnauthorizedGameplayPeer(source, session));
      }
      gameplay := gameplay[session := g.(lastActivity := now, expiresAt := now + config.gameplayIdleTtl)];
      SameTables(config, RouteGameplay(config, t, session, source, now).tables, Abs());
      return Ok(GameplayRoute(session, g.room, source, destination, destinationIp));
    }

    method RemoveGameplaySession(session: GameplaySessionId) returns (r: Result<(), RouterError>)
      requires Valid()
      modifies this
      ensures Valid()
      ensures Step(Abs(), r) == RouterTables.RemoveGameplaySession(old(Abs()), session)
    {
      hide Inv, Indexed;
      DropSessionOk(config, Abs(), session);
      if session in gameplay {
        gameplay, origin := gameplay - {session}, origin - {session};
        return Ok(());
      }
      return Err(GameplayNotFound(session));
    }

    // -------------------------------------------------------------- the sweep

    /** The program calls it for peers whose lease is over. */
    method DisconnectPeer(peer: PeerId, now: Time)
      requires Valid() && (peer in peers ==> peers[peer].lastSeen + config.peerTtl <= now)
      modifies this
      ensures Valid() && Abs() == Suspend(old(Abs()), {peer}, now)
    {
      hide Inv, Indexed;
      ghost var t := Abs();
      SuspendOk(config, t, {peer}, now);
      if peer !in peers {
        UnknownPeerSuspended(config, t, peer, now);
        return;
      }
      PeerLeaseOk(config, t, peer);
      TouchPeer(peer, peers[peer].(disconnectedAt := Some(now)));
      SuspendingDropsRoutes(config, t, peer, now);
      RemoveHosts(HostsBy(hosts, {peer}));
      gameplay, origin := gameplay - SessionsBy(gameplay, {peer}), origin - SessionsBy(gameplay, {peer});
      discoveries := discoveries - DiscoveriesBy(discoveries, {peer});
      SameTables(config, Suspend(t, {peer}, now), Abs());
    }

    method DisconnectPeers(stale: set<PeerId>, now: Time)
      requires Valid() && forall p :: p in stale && p in peers ==> peers[p].lastSeen + config.peerTtl <= now
      modifies this
      ensures Valid() && Abs() == Suspend(old(Abs()), stale, now)
    {
      hide Inv, Indexed;
      ghost var t := Abs();
      NothingSuspended(t, now);
      var left := stale;
      ghost var done := {};
      while left != {}
        invariant done + left == stale && Valid() && Abs() == Suspend(t, done, now)
      {
        var p :| p in left;
        DisconnectPeer(p, now);
        SuspendTwice(t, done, {p}, now);
        left, done := left - {p}, done + {p};
      }
      assert done == stale;
    }

    /** Leaving cannot fail for a peer that the sweep has just looked up. */
    method EvictPeers(gone: set<PeerId>)
      requires Valid()
      modifies this
      ensures Valid() && Abs() == Evict(old(Abs()), gone)
    {
      hide Inv, Indexed;
      ghost var t := Abs();
      NothingSuspended(t, 0);
      var left := gone;
      ghost var done := {};
      while left != {}
        invariant done + left == gone && Valid() && Abs() == Evict(t, done)
      {
        var p :| p in left;
        if p in peers {
          PeerLeaseOk(config, Abs(), p);
          var result := LeaveRoom(peers[p].room, p);
          assert result.Ok?;
        } else {
          UnknownPeerEvicted(config, Abs(), p);
        }
        EvictTwice(t, done, {p});
        left, done := left - {p}, done + {p};
      }
      assert done == gone;
    }

    method Expire(now: Time) returns (report: ExpirationReport)
      requires Valid()
      modifies this
      ensures Valid()
      ensures Abs() == Swept(config, old(Abs()), now) && report == SweepReport(old(Abs()), now)
    {
      hide Inv, Indexed;
      ghost var t := Abs();
      report := DropExpiredLeases(now);
      DisconnectPeers(StalePeers(config, peers, now), now);
      EvictPeers(PeersBeyondGrace(config, peers, now));
      SweepPhases(config, t, now);
    }

    /** The first three passes of `expire`, and the counts it reports. */
    method DropExpiredLeases(now: Time) returns (report: ExpirationReport)
      requires Valid()
      modifies this
      ensures Valid() && Abs() == LeasesDropped(old(Abs()), now) && report == SweepReport(old(Abs()), now)
    {
      hide Inv, Indexed;
      ghost var t := Abs();
      var expiredHosts := ExpiredHosts(hosts, now);
      RemoveHosts(expiredHosts);
      SweepCounts(config, t, Abs(), now);
      LeasesDroppedOk(config, t, now);
      var expiredDiscoveries := ExpiredDiscoveries(discoveries, now);
      RemoveDiscoveries(expiredDiscoveries);
      var expiredSessions := ExpiredSessions(gameplay, now);
      RemoveSessions(expiredSessions);
      SameTables(config, LeasesDropped(t, now), Abs());
      report := ExpirationReport(|expiredHosts|, |expiredDiscoveries|, |expiredSessions|);
    }

    // -------------------------------------------------------------- dispatch

    method ValidatePayload(payload: seq<Byte>) returns (r: Result<(), RouterError>)
      ensures r == if PayloadOk(config, payload) then Ok(()) else Err(DatagramTooLarge(|payload|))
    {
      if |payload| > MAX_CIV6_DATAGRAM_SIZE || |payload| > config.safePayloadSize {
        return Err(DatagramTooLarge(|payload|));
      }
      return Ok(());
    }

    method Dispatch(ingress: RelayIngress) returns (r: Result<RelayAction<seq<DiscoveryTarget>>, RouterError>)
      requires Valid()
      modifies this
      ensures Valid()
      ensures var step := RouterTables.Dispatch(config, old(Abs()), ingress);
              && Abs() == step.tables
              && (if step.result.Ok? then r.Ok? && Realizes(r.value, step.result.value) else r == Err(step.result.error))
    {
      hide Inv, Indexed;
      match ingress {
        case DiscoveryIngress(source, request, port, payload, now) =>
          var _ :- ValidatePayload(payload);
          if source !in peers {
            return Err(PeerNotFound(source));
          }
          var targets :- BeginDiscovery(peers[source].room, source, request, port, now);
          return Ok(DiscoveryFanout(request, source, port, targets, payload));
        case ResponseIngress(host, request, port, payload, now) =>
          var _ :- ValidatePayload(payload);
          if !IsDiscoveryPort(port) {
            return Err(InvalidDiscoveryPort(port));
          }
          var destination :- RouteDiscoveryResponse(request, host, now);
          return Ok(DiscoveryUnicast(request, destination, hosts[host].ip, port, payload));
        case GameplayIngress(session, source, port, payload, now) =>
          var _ :- ValidatePayload(payload);
          if port != GAMEPLAY_PORT {
            return Err(InvalidGameplayPort(port));
          }
          var route :- RouteGameplayDatagram(session, source, now);
          return Ok(GameplayUnicast(route, port, payload));
      }
    }
  }
}
