/** The server state the HTTP handlers share: the router, the WireGuard keys, and the restart procedure.
    Databases and WireGuard appear only as calls that succeed or fail; nothing interleaves. */
module AppStateClass {
  import opened Protocol
  import opened RouterTables
  import opened RouterInvariant
  import opened RouterIndexes
  import opened RoomRouterClass
  import opened Restore
  import opened ControlPlane

  class AppState {
    const router: RoomRouter
    const prefix: Prefix
    var peerKeys: map<PeerId, WireGuardKey>

    constructor (router: RoomRouter, prefix: Prefix)
      ensures this.router == router && this.prefix == prefix && peerKeys == map[]
    {
      this.router, this.prefix, peerKeys := router, prefix, map[];
    }

    // -------------------------------------------------------------- restart

    method RestorePersistedState(rooms: seq<PersistedRoom>, peers: seq<PersistedPeer>, clock: nat -> Time)
      returns (r: Result<(), RouterError>)
      requires router.Valid()
      modifies this, router
      ensures router.Valid()
      ensures Step(router.Abs(), r) == RestoreAll(router.config, old(router.Abs()), rooms, peers, clock)
      ensures var withRooms := RestoreRooms(router.config, old(router.Abs()), rooms);
              peerKeys == if withRooms.result.Err? then old(peerKeys)
                          else KeysAfter(old(peerKeys), peers[..PutBack(router.config, withRooms.tables, peers, clock)])
    {
      hide Inv, Indexed, RestoreRooms, RestorePeers, KeysAfter, PutBack;
      r := PutRoomsBack(rooms);
      if r.Ok? {
        r := PutPeersBack(peers, clock);
      }
    }

    method PutRoomsBack(rooms: seq<PersistedRoom>) returns (r: Result<(), RouterError>)
      requires router.Valid()
      modifies router
      ensures router.Valid() && Step(router.Abs(), r) == RestoreRooms(router.config, old(router.Abs()), rooms)
    {
      hide Inv, Indexed;
      ghost var t := router.Abs();
      hide RouterTables.CreateRoom;
      for i := 0 to |rooms|
        invariant router.Valid() && Step(router.Abs(), Ok(())) == RestoreRooms(router.config, t, rooms[..i])
      {
        assert rooms[..i + 1][..i] == rooms[..i];
        r := router.CreateRoomWithId(rooms[i].room, rooms[i].code);
        if r.Err? {
          RoomsFailureSticks(router.config, t, rooms, i + 1);
          return;
        }
      }
      assert rooms[..|rooms|] == rooms;
      return Ok(());
    }

    method PutPeerBack(p: PersistedPeer, now: Time) returns (r: Result<(), RouterError>)
      requires router.Valid()
      modifies this, router
      ensures router.Valid()
      ensures Step(router.Abs(), r) == RouterTables.JoinRoom(router.config, old(router.Abs()), p.room, p.peer, p.ip, now)
      ensures peerKeys == if r.Ok? then old(peerKeys)[p.peer := p.key] else old(peerKeys)
      ensures r.Ok? ==> r == Ok(())
    {
      hide Inv, Indexed;
      r := router.JoinRoom(p.room, p.peer, p.ip, now);
      if r.Ok? {
        peerKeys := peerKeys[p.peer := p.key];
      }
    }

    method PutPeersBack(peers: seq<PersistedPeer>, clock: nat -> Time) returns (r: Result<(), RouterError>)
      requires router.Valid()
      modifies this, router
      ensures router.Valid() && Step(router.Abs(), r) == RestorePeers(router.config, old(router.Abs()), peers, clock)
      ensures peerKeys == KeysAfter(old(peerKeys), peers[..PutBack(router.config, old(router.Abs()), peers, clock)])
    {
      hide Inv, Indexed;
      ghost var t := router.Abs();
      hide RouterTables.JoinRoom, RestorePeers, KeysAfter, PutBack;
      NoPeers(router.config, t, clock, peerKeys);
      assert peers[..0] == [];
      for i := 0 to |peers|
        invariant router.Valid() && Step(router.Abs(), Ok(())) == RestorePeers(router.config, t, peers[..i], clock)
        invariant peerKeys == KeysAfter(old(peerKeys), peers[..i])
      {
        OnePeerMore(router.config, t, peers, clock, i, old(peerKeys));
        r := PutPeerBack(peers[i], clock(i));
        if r.Err? {
          PeersFailureSticks(router.config, t, peers, clock, i + 1);
          PutBackIs(router.config, t, peers, clock, i);
          return;
        }
      }
      assert peers[..|peers|] == peers;
      PutBackIs(router.config, t, peers, clock, |peers|);
      return Ok(());
    }

    // -------------------------------------------------------------- handlers

    /** `newRoom` is what `RoomId::new()` draws. */
    method CreateRoom(code: RoomCode, newRoom: RoomId, database: External) returns (r: Result<RoomId, ApiError>)
      requires router.Valid()
      modifies router
      ensures router.Valid()
      ensures var step := RouterTables.CreateRoom(router.config, old(router.Abs()), newRoom, code);
              && r == (if step.result.Err? then Err(Refused(step.result.error))
                       else if Fails(database) then Err(DatabaseFailed)
                       else Ok(newRoom))
              && router.Abs() == if r.Ok? then step.tables else old(router.Abs())
    {
      hide Inv, Indexed;
      ghost var t := router.Abs();
      var created := router.CreateRoomWithId(newRoom, code);
      if created.Err? {
        return Err(Refused(created.error));
      }
      if Fails(database) {
        RemoveUndoesCreate(router.config, t, newRoom, code);
        var _ := router.RemoveEmptyRoom(newRoom);
        return Err(DatabaseFailed);
      }
      return Ok(newRoom);
    }

    method SelectIp(requested: Option<VirtualIp>) returns (r: Result<VirtualIp, ApiError>)
      requires router.Valid()
      ensures r == ChooseIp(router.peers, prefix, requested)
    {
      hide Inv, Indexed;
      match requested {
        case Some(ip) =>
          if !InPool(prefix, ip) {
            return Err(BadRequest);
          }
          if !router.IsVirtualIpAvailable(ip) {
            return Err(Conflict);
          }
          return Ok(ip);
        case None =>
          var ip := FindFreeIp();
          return if ip.Some? then Ok(ip.value) else Err(Conflict);
      }
    }

    /** `allocate_virtual_ip`: the candidates in turn, asking the router's address index. */
    method FindFreeIp() returns (r: Option<VirtualIp>)
      requires router.Valid()
      ensures r == AllocateVirtualIp(router.peers, prefix)
    {
      hide Inv, Indexed;
      var octet: Byte := FIRST_OCTET;
      while !router.IsVirtualIpAvailable(Address(prefix, octet))
        invariant octet <= LAST_OCTET && FirstFree(router.peers, prefix, octet) == AllocateVirtualIp(router.peers, prefix)
        decreases LAST_OCTET - octet
      {
        if octet == LAST_OCTET {
          return None;
        }
        octet := octet + 1;
      }
      return Some(Address(prefix, octet));
    }

    method JoinRoom(code: RoomCode, request: JoinRequest, wireguard: External, database: External, now: Time)
      returns (r: Result<Joined, ApiError>)
      requires router.Valid()
      modifies this, router
      ensures router.Valid()
      ensures r == JoinAnswer(router.config, old(router.Abs()), prefix, code, request, wireguard, database, now)
      ensures r.Err? ==> router.Abs() == old(router.Abs()) && peerKeys == old(peerKeys)
      ensures r.Ok? ==>
                && router.Abs() == RouterTables.JoinRoom(router.config, old(router.Abs()), r.value.room, request.peer, r.value.ip, now).tables
                && peerKeys == if request.key.Some? then old(peerKeys)[request.peer := request.key.value] else old(peerKeys)
    {
      hide Inv, Indexed;
      ghost var t := router.Abs();
      if (database.Some? || wireguard.Some?) && request.key.None? {
        return Err(BadRequest);
      }
      if request.key.Some? && !request.keyIsValid {
        return Err(BadRequest);
      }
      var room := router.RoomIdForCode(code);
      if room.None? {
        return Err(NotFound);
      }
      CodeNamesRoom(router.config, t, code, room.value);
      var ip :- SelectIp(request.requestedIp);
      r := AdmitPeer(room.value, request, ip, wireguard, database, now);
    }

    /** From `join_room` of the router on: a failing store takes the peer out again. */
    method AdmitPeer(room: RoomId, request: JoinRequest, ip: VirtualIp, wireguard: External, database: External, now: Time)
      returns (r: Result<Joined, ApiError>)
      requires router.Valid()
      modifies this, router
      ensures router.Valid()
      ensures var step := RouterTables.JoinRoom(router.config, old(router.Abs()), room, request.peer, ip, now);
              && r == (if step.result.Err? then Err(Refused(step.result.error))
                       else if Fails(wireguard) then Err(WireGuardFailed)
                       else if Fails(database) then Err(DatabaseFailed)
                       else Ok(Joined(room, request.peer, ip, 1)))
              && router.Abs() == (if r.Ok? then step.tables else old(router.Abs()))
              && peerKeys == if r.Ok? && request.key.Some? then old(peerKeys)[request.peer := request.key.value] else old(peerKeys)
    {
      hide Inv, Indexed, RouterTables.JoinRoom, RouterTables.LeaveRoom;
      ghost var t := router.Abs();
      var joined := router.JoinRoom(room, request.peer, ip, now);
      if joined.Err? {
        JoinRefused(router.config, t, room, request.peer, ip, now);
        return Err(Refused(joined.error));
      }
      JoinShape(router.config, t, room, request.peer, ip, now);
      var epoch := router.peers[request.peer].epoch;
      if Fails(wireguard) || Fails(database) {
        LeaveUndoesJoin(router.config, t, room, request.peer, ip, now);
        var _ := router.LeaveRoom(room, request.peer);
        return Err(if Fails(wireguard) then WireGuardFailed else DatabaseFailed);
      }
      if request.key.Some? {
        peerKeys := peerKeys[request.peer := request.key.value];
      }
      return Ok(Joined(room, request.peer, ip, epoch));
    }

    /** When the database write fails, whatever host session the peer had before is lost with the new one. */
    method RegisterHost(code: RoomCode, peer: PeerId, newId: HostSessionId, database: External, now: Time)
      returns (r: Result<HostSessionId, ApiError>)
      requires router.Valid() && newId !in router.hosts
      modifies router
      ensures router.Valid()
      ensures var t := old(router.Abs());
              match RoomWithCode(t.rooms, code)
              case None => r == Err(NotFound) && router.Abs() == t
              case Some(room) =>
                var step := RouterTables.RegisterHost(router.config, t, room, peer, newId, now);
                if step.result.Err? then r == Err(Refused(step.result.error)) && router.Abs() == step.tables
                else if Fails(database) then r == Err(DatabaseFailed) && router.Abs() == WithoutHosts(t, SessionsOf(t.hosts, room, peer))
                else r == Ok(step.result.value) && router.Abs() == step.tables
    {
      hide Inv, Indexed;
      ghost var t := router.Abs();
      var room := router.RoomIdForCode(code);
      if room.None? {
        return Err(NotFound);
      }
      CodeNamesRoom(router.config, t, code, room.value);
      var registered := router.RegisterHost(room.value, peer, newId, now);
      if registered.Err? {
        return Err(Refused(registered.error));
      }
      if Fails(database) {
        UnregisterAfterRegister(router.config, t, room.value, peer, newId, now);
        var _ := router.UnregisterHost(registered.value);
        return Err(DatabaseFailed);
      }
      return Ok(registered.value);
    }

    method CreateGameplaySession(code: RoomCode, client: PeerId, host: HostSessionId, newId: GameplaySessionId,
                                 database: External, now: Time)
      returns (r: Result<GameplaySessionId, ApiError>)
      requires router.Valid() && newId !in router.gameplay
      modifies router
      ensures router.Valid()
      ensures var t := old(router.Abs());
              match RoomWithCode(t.rooms, code)
              case None => r == Err(NotFound) && router.Abs() == t
              case Some(room) =>
                var step := SelectHost(router.config, t, room, client, host, newId, now);
                && r == (if step.result.Err? then Err(Refused(step.result.error))
                         else if Fails(database) then Err(DatabaseFailed)
                         else Ok(newId))
                && router.Abs() == if r.Ok? then step.tables else t
    {
      hide Inv, Indexed;
      ghost var t := router.Abs();
      var room := router.RoomIdForCode(code);
      if room.None? {
        return Err(NotFound);
      }
      CodeNamesRoom(router.config, t, code, room.value);
      SelectHostPuts(router.config, t, room.value, client, host, newId, now);
      var selected := router.SelectHost(room.value, client, host, newId, now);
      if selected.Err? {
        return Err(Refused(selected.error));
      }
      if Fails(database) {
        RemoveUndoesSelect(router.config, t, room.value, client, host, newId, now);
        var _ := router.RemoveGameplaySession(newId);
        return Err(DatabaseFailed);
      }
      return Ok(newId);
    }

    /** Once the stores have agreed, leaving cannot fail, so the handler's last roll-back never runs. */
    method DeletePeer(code: RoomCode, peer: PeerId, wireguard: External, database: External) returns (r: Result<RoomId, ApiError>)
      requires router.Valid()
      modifies this, router
      ensures router.Valid()
      ensures r == DeleteAnswer(old(router.Abs()), old(peerKeys), code, peer, wireguard, database)
      ensures r.Err? ==> router.Abs() == old(router.Abs()) && peerKeys == old(peerKeys)
      ensures r.Ok? ==> router.Abs() == Evict(old(router.Abs()), {peer}) && peerKeys == old(peerKeys) - {peer}
    {
      hide Inv, Indexed;
      ghost var t := router.Abs();
      var room := router.RoomIdForCode(code);
      if room.None? {
        return Err(NotFound);
      }
      CodeNamesRoom(router.config, t, code, room.value);
      if peer !in router.peers {
        return Err(NotFound);
      }
      if router.peers[peer].room != room.value {
        return Err(Forbidden);
      }
      if (database.Some? || wireguard.Some?) && peer !in peerKeys {
        return Err(KeyMissing);
      }
      if Fails(wireguard) {
        return Err(WireGuardFailed);
      }
      if Fails(database) {
        return Err(DatabaseFailed);
      }
      var left := router.LeaveRoom(room.value, peer);
      assert left.Ok?;
      peerKeys := peerKeys - {peer};
      return Ok(room.value);
    }
  }
}
