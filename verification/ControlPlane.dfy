/** The router side of the HTTP handlers (server/src/api.rs): address allocation and undoing half-done work. */
module ControlPlane {
  import opened Protocol
  import opened RouterTables
  import opened RouterInvariant
  import opened RouterPasses
  import opened Restore

  // ---------------------------------------------------------------- addresses

  datatype Prefix = Prefix(a: Byte, b: Byte, c: Byte)

  const FIRST_OCTET: Byte := 2
  const LAST_OCTET: Byte := 254

  function Address(prefix: Prefix, octet: Byte): VirtualIp {
    VirtualIp(prefix.a, prefix.b, prefix.c, octet)
  }

  /** The first free address of the prefix from `octet` on. */
  function FirstFree(peers: Peers, prefix: Prefix, octet: Byte): (r: Option<VirtualIp>)
    requires octet <= LAST_OCTET
    ensures r.Some? ==> exists k: Byte :: octet <= k <= LAST_OCTET && IsLowestFree(peers, prefix, octet, k) && r.value == Address(prefix, k)
    ensures r.None? ==> forall k: Byte :: octet <= k <= LAST_OCTET ==> IpTaken(peers, Address(prefix, k))
    decreases LAST_OCTET - octet
  {
    if !IpTaken(peers, Address(prefix, octet)) then
      assert IsLowestFree(peers, prefix, octet, octet);
      Some(Address(prefix, octet))
    else if octet == LAST_OCTET then None
    else
      var r := FirstFree(peers, prefix, octet + 1);
      assert r.Some? ==> exists k: Byte :: IsLowestFree(peers, prefix, octet + 1, k) && r.value == Address(prefix, k)
                                           && IsLowestFree(peers, prefix, octet, k);
      r
  }

  predicate IsLowestFree(peers: Peers, prefix: Prefix, from: Byte, k: Byte) {
    && from <= k && !IpTaken(peers, Address(prefix, k))
    && forall j: Byte :: from <= j < k ==> IpTaken(peers, Address(prefix, j))
  }

  function AllocateVirtualIp(peers: Peers, prefix: Prefix): Option<VirtualIp> {
    FirstFree(peers, prefix, FIRST_OCTET)
  }

  /** The allocator gives the lowest free address of the pool, or finds every one of them taken; and what
      it gives, joining never refuses as in use. */
  lemma AllocatedIsLowestFree(cfg: RouterConfig, t: Tables, prefix: Prefix, room: RoomId, peer: PeerId, now: Time)
    ensures var r := AllocateVirtualIp(t.peers, prefix);
            && (r.None? <==> forall k: Byte :: FIRST_OCTET <= k <= LAST_OCTET ==> IpTaken(t.peers, Address(prefix, k)))
            && (r.Some? ==> exists k: Byte :: FIRST_OCTET <= k <= LAST_OCTET && r.value == Address(prefix, k)
                                              && IsLowestFree(t.peers, prefix, FIRST_OCTET, k))
            && (r.Some? ==> JoinRoom(cfg, t, room, peer, r.value, now).result != Err(VirtualIpInUse(r.value)))
  {
  }

  // ---------------------------------------------------------------- undoing

  lemma JoinShape(cfg: RouterConfig, t: Tables, room: RoomId, peer: PeerId, ip: VirtualIp, now: Time)
    requires JoinRoom(cfg, t, room, peer, ip, now).result.Ok?
    ensures peer !in t.peers && room in t.rooms
    ensures JoinRoom(cfg, t, room, peer, ip, now).tables == t.(peers := t.peers[peer := Peer(room, ip, now, None, 1)])
  {
    hide Members, IpTaken;
  }

  lemma JoinRefused(cfg: RouterConfig, t: Tables, room: RoomId, peer: PeerId, ip: VirtualIp, now: Time)
    requires JoinRoom(cfg, t, room, peer, ip, now).result.Err?
    ensures JoinRoom(cfg, t, room, peer, ip, now).tables == t
  {
    hide Members, IpTaken;
  }

  lemma LeavingAlone(t: Tables, room: RoomId, peer: PeerId, p: Peer)
    requires peer !in t.peers && room in t.rooms && p.room == room && WithoutRoutesOf(t, {peer}) == t
    ensures LeaveRoom(t.(peers := t.peers[peer := p]), room, peer) == Step(t, Ok(()))
  {
    var t' := t.(peers := t.peers[peer := p]);
    assert peer in Members(t'.peers, room);
    assert t'.peers - {peer} == t.peers;
    assert WithoutRoutesOf(t', {peer}) == WithoutRoutesOf(t, {peer}).(peers := t'.peers);
  }

  /** Leaving right after joining puts everything back. */
  lemma LeaveUndoesJoin(cfg: RouterConfig, t: Tables, room: RoomId, peer: PeerId, ip: VirtualIp, now: Time)
    requires Inv(cfg, t) && JoinRoom(cfg, t, room, peer, ip, now).result.Ok?
    ensures LeaveRoom(JoinRoom(cfg, t, room, peer, ip, now).tables, room, peer) == Step(t, Ok(()))
  {
    hide Inv, JoinRoom, LeaveRoom, WithoutRoutesOf;
    JoinShape(cfg, t, room, peer, ip, now);
    UnknownPeerRoutes(cfg, t, peer);
    LeavingAlone(t, room, peer, Peer(room, ip, now, None, 1));
  }

  lemma RemoveUndoesCreate(cfg: RouterConfig, t: Tables, room: RoomId, code: RoomCode)
    requires Inv(cfg, t) && CreateRoom(cfg, t, room, code).result.Ok?
    ensures RemoveEmptyRoom(CreateRoom(cfg, t, room, code).tables, room) == Step(t, Ok(()))
  {
    hide Inv;
    NewRoomIsEmpty(cfg, t, room);
    assert t.rooms[room := code] - {room} == t.rooms;
  }

  lemma RemovingSessionAlone(t: Tables, id: GameplaySessionId, g: Gameplay, host: HostSessionId)
    requires id !in t.gameplay && t.origin.Keys == t.gameplay.Keys
    ensures RemoveGameplaySession(t.(gameplay := t.gameplay[id := g], origin := t.origin[id := host]), id) == Step(t, Ok(()))
  {
    assert t.gameplay[id := g] - {id} == t.gameplay && t.origin[id := host] - {id} == t.origin;
  }

  /** `newId` is drawn fresh. */
  lemma RemoveUndoesSelect(cfg: RouterConfig, t: Tables, room: RoomId, client: PeerId, host: HostSessionId,
                           newId: GameplaySessionId, now: Time)
    requires Inv(cfg, t) && newId !in t.gameplay && SelectHost(cfg, t, room, client, host, newId, now).result.Ok?
    ensures RemoveGameplaySession(SelectHost(cfg, t, room, client, host, newId, now).tables, newId) == Step(t, Ok(()))
  {
    hide Inv, SelectHost, RemoveGameplaySession;
    OriginHostPeer(cfg, t);
    SelectHostPuts(cfg, t, room, client, host, newId, now);
    RemovingSessionAlone(t, newId, SelectHost(cfg, t, room, client, host, newId, now).tables.gameplay[newId], host);
  }

  /** Unregistering after registering leaves what dropping the peer's earlier host session would have left. */
  lemma UnregisterAfterRegister(cfg: RouterConfig, t: Tables, room: RoomId, peer: PeerId, newId: HostSessionId, now: Time)
    requires Inv(cfg, t) && newId !in t.hosts && RegisterHost(cfg, t, room, peer, newId, now).result.Ok?
    ensures var step := RegisterHost(cfg, t, room, peer, newId, now);
            UnregisterHost(step.tables, step.result.value)
            == Step(WithoutHosts(t, SessionsOf(t.hosts, room, peer)), Ok(()))
  {
    hide Inv;
    var step := RegisterHost(cfg, t, room, peer, newId, now);
    if exists h :: LiveSession(t, h, room, peer, now) {
      var h := step.result.value;
      OnlySession(cfg, t, room, peer, h);
      RefreshedIsDropped(cfg, t, h, now);
    } else {
      var t1 := WithoutHosts(t, SessionsOf(t.hosts, room, peer));
      WithoutHostsOk(cfg, t, SessionsOf(t.hosts, room, peer));
      AddedIsDropped(cfg, t1, newId, step.tables.hosts[newId]);
    }
  }

  lemma RefreshedIsDropped(cfg: RouterConfig, t: Tables, h: HostSessionId, now: Time)
    requires h in t.hosts
    ensures WithoutHosts(Refresh(cfg, t, h, now), {h}) == WithoutHosts(t, {h})
  {
  }

  lemma AddedIsDropped(cfg: RouterConfig, t: Tables, newId: HostSessionId, host: Host)
    requires Inv(cfg, t) && newId !in t.hosts
    ensures WithoutHosts(t.(hosts := t.hosts[newId := host]), {newId}) == t
  {
    hide Inv;
    OriginHostPeer(cfg, t);
    assert SessionsFrom(t.gameplay, t.origin, {newId}) == {};
    assert t.hosts[newId := host] - {newId} == t.hosts;
  }

  lemma OnlySession(cfg: RouterConfig, t: Tables, room: RoomId, peer: PeerId, h: HostSessionId)
    requires Inv(cfg, t) && h in SessionsOf(t.hosts, room, peer)
    ensures SessionsOf(t.hosts, room, peer) == {h}
  {
    hide Inv;
    InvRoutes(cfg, t);
  }

  /** So the roll-back of host registration is exact if and only if the peer had no host session before. */
  lemma UnregisterUndoesRegisterExactly(cfg: RouterConfig, t: Tables, room: RoomId, peer: PeerId, newId: HostSessionId, now: Time)
    requires Inv(cfg, t) && newId !in t.hosts && RegisterHost(cfg, t, room, peer, newId, now).result.Ok?
    ensures var step := RegisterHost(cfg, t, room, peer, newId, now);
            UnregisterHost(step.tables, step.result.value).tables == t <==> SessionsOf(t.hosts, room, peer) == {}
  {
    hide Inv;
    UnregisterAfterRegister(cfg, t, room, peer, newId, now);
    var own := SessionsOf(t.hosts, room, peer);
    if own == {} {
      WithoutNoHosts(cfg, t, {});
    } else {
      var h :| h in own;
      assert h in t.hosts && h !in WithoutHosts(t, own).hosts;
    }
  }

  // ---------------------------------------------------------------- what the handlers answer

  datatype ApiError =
    | BadRequest
    | NotFound
    | Conflict
    | Forbidden
    | DatabaseFailed
    | KeyMissing
    | WireGuardFailed
    | Refused(error: RouterError)

  /** An external store that may be absent (`None`), and whether a call to it succeeds. */
  type External = Option<bool>

  predicate Fails(e: External) {
    e == Some(false)
  }

  ghost function RoomWithCode(rooms: Rooms, code: RoomCode): (r: Option<RoomId>)
    ensures r.Some? ==> r.value in rooms && rooms[r.value] == code
    ensures r.None? <==> !CodeTaken(rooms, code)
  {
    if CodeTaken(rooms, code) then
      var r :| r in rooms && rooms[r] == code;
      Some(r)
    else None
  }

  lemma CodeNamesRoom(cfg: RouterConfig, t: Tables, code: RoomCode, room: RoomId)
    requires Inv(cfg, t) && room in t.rooms && t.rooms[room] == code
    ensures RoomWithCode(t.rooms, code) == Some(room)
  {
    hide Inv;
    Open(cfg, t);
    assert CodeTaken(t.rooms, code);
  }

  datatype JoinRequest = JoinRequest(peer: PeerId, requestedIp: Option<VirtualIp>, key: Option<WireGuardKey>, keyIsValid: bool)
  datatype Joined = Joined(room: RoomId, peer: PeerId, ip: VirtualIp, epoch: U64)

  predicate InPool(prefix: Prefix, ip: VirtualIp) {
    ip.a == prefix.a && ip.b == prefix.b && ip.c == prefix.c && ip.d >= FIRST_OCTET
  }

  function ChooseIp(peers: Peers, prefix: Prefix, requested: Option<VirtualIp>): Result<VirtualIp, ApiError> {
    match requested
    case Some(ip) => if !InPool(prefix, ip) then Err(BadRequest) else if IpTaken(peers, ip) then Err(Conflict) else Ok(ip)
    case None =>
      var ip := AllocateVirtualIp(peers, prefix);
      if ip.Some? then Ok(ip.value) else Err(Conflict)
  }

  /** The answer to a join request; every failure in here leaves the tables as they were. */
  ghost function JoinAnswer(cfg: RouterConfig, t: Tables, prefix: Prefix, code: RoomCode, request: JoinRequest,
                            wireguard: External, database: External, now: Time): Result<Joined, ApiError>
  {
    var room := RoomWithCode(t.rooms, code);
    var ip := ChooseIp(t.peers, prefix, request.requestedIp);
    if (database.Some? || wireguard.Some?) && request.key.None? then Err(BadRequest)
    else if request.key.Some? && !request.keyIsValid then Err(BadRequest)
    else if room.None? then Err(NotFound)
    else if ip.Err? then Err(ip.error)
    else
      var step := JoinRoom(cfg, t, room.value, request.peer, ip.value, now);
      if step.result.Err? then Err(Refused(step.result.error))
      else if Fails(wireguard) then Err(WireGuardFailed)
      else if Fails(database) then Err(DatabaseFailed)
      else Ok(Joined(room.value, request.peer, ip.value, 1))
  }

  /** Deleting a peer changes nothing unless every stage succeeds. */
  ghost function DeleteAnswer(t: Tables, keys: map<PeerId, WireGuardKey>, code: RoomCode, peer: PeerId,
                              wireguard: External, database: External): Result<RoomId, ApiError>
  {
    var room := RoomWithCode(t.rooms, code);
    if room.None? || peer !in t.peers then Err(NotFound)
    else if t.peers[peer].room != room.value then Err(Forbidden)
    else if (database.Some? || wireguard.Some?) && peer !in keys then Err(KeyMissing)
    else if Fails(wireguard) then Err(WireGuardFailed)
    else if Fails(database) then Err(DatabaseFailed)
    else Ok(room.value)
  }
}
