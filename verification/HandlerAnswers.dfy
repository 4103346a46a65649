/** What the HTTP handlers for joining and deleting answer, and which address a peer gets, with the address pool
    written out. */
module HandlerAnswers {
  import opened Protocol
  import opened RouterTables
  import opened RouterRuns
  import opened PeerLeases
  import opened Restore
  import opened ControlPlane
  import opened KeyRuns
  import opened RouterAnswers

  // ---------------------------------------------------------------- addresses

  predicate Held(peers: Peers, ip: VirtualIp) {
    exists p :: p in peers && peers[p].ip == ip
  }

  lemma HeldIsTaken(peers: Peers, ip: VirtualIp)
    ensures IpTaken(peers, ip) <==> Held(peers, ip)
  {
    if p :| p in peers && peers[p].ip == ip {
      assert HasIp(peers, p, ip);
    }
  }

  /** An address under the server's prefix that is neither the network's nor the server's own. */
  predicate IsPeerAddress(prefix: Prefix, ip: VirtualIp) {
    ip.a == prefix.a && ip.b == prefix.b && ip.c == prefix.c && 2 <= ip.d
  }

  /** A peer may ask for any free address of the prefix from 2 on. */
  lemma RequestedAddress(peers: Peers, prefix: Prefix, ip: VirtualIp)
    ensures var r := ChooseIp(peers, prefix, Some(ip));
            && (r == Err(BadRequest) <==> !IsPeerAddress(prefix, ip))
            && (r == Err(Conflict) <==> IsPeerAddress(prefix, ip) && Held(peers, ip))
            && (r.Ok? <==> IsPeerAddress(prefix, ip) && !Held(peers, ip))
            && (r.Ok? ==> r.value == ip)
  {
    HeldIsTaken(peers, ip);
    hide IpTaken, Held;
  }

  /** One that asks for none gets the lowest free one from 2 to 254, and is turned away only if there is none. */
  lemma GivenAddress(peers: Peers, prefix: Prefix)
    ensures var r := ChooseIp(peers, prefix, None);
            && (r.Err? <==> forall k: Byte :: 2 <= k <= 254 ==> Held(peers, VirtualIp(prefix.a, prefix.b, prefix.c, k)))
            && (r.Err? ==> r == Err(Conflict))
            && (r.Ok? ==> r.value.a == prefix.a && r.value.b == prefix.b && r.value.c == prefix.c && 2 <= r.value.d <= 254
                          && !Held(peers, r.value)
                          && forall k: Byte :: 2 <= k < r.value.d ==> Held(peers, VirtualIp(prefix.a, prefix.b, prefix.c, k)))
  {
    forall k: Byte
      ensures IpTaken(peers, Address(prefix, k)) <==> Held(peers, VirtualIp(prefix.a, prefix.b, prefix.c, k))
    {
      HeldIsTaken(peers, Address(prefix, k));
    }
    hide IpTaken, Held;
  }

  // ---------------------------------------------------------------- joining

  /** What a request brings, before any store or the router is asked. */
  predicate WellKeyed(request: JoinRequest, wireguard: External, database: External) {
    (wireguard.Some? || database.Some? ==> request.key.Some?) && (request.key.Some? ==> request.keyIsValid)
  }

  predicate HasRoomFor(cfg: RouterConfig, t: Tables, room: RoomId, peer: PeerId) {
    && room in t.rooms && |set p | p in t.peers && t.peers[p].room == room| < cfg.maxPeersPerRoom
    && |t.peers| < cfg.maxTotalPeers && peer !in t.peers
  }

  /** A join request succeeds if and only if it brings a key where one is needed, and no invalid one; the code
      names a room; there is an address for it and space; and no store fails. It then names the room with that
      code, the address asked for if one was, and epoch 1. */
  lemma JoinSucceedsExactly(cfg: RouterConfig, t: Tables, prefix: Prefix, code: RoomCode, request: JoinRequest,
                            wireguard: External, database: External, now: Time, room: RoomId)
    requires CodesUnique(t.rooms) && room in t.rooms && t.rooms[room] == code
    ensures var r, ip := JoinAnswer(cfg, t, prefix, code, request, wireguard, database, now), ChooseIp(t.peers, prefix, request.requestedIp);
            && (r.Ok? <==> && WellKeyed(request, wireguard, database) && ip.Ok? && HasRoomFor(cfg, t, room, request.peer)
                           && wireguard != Some(false) && database != Some(false))
            && (r.Ok? ==> r.value == Joined(room, request.peer, ip.value, 1))
            && (!WellKeyed(request, wireguard, database) ==> r == Err(BadRequest))
            && (WellKeyed(request, wireguard, database) && ip.Err? ==> r == Err(ip.error))
            && (WellKeyed(request, wireguard, database) && ip.Ok? && HasRoomFor(cfg, t, room, request.peer) ==>
                  && (wireguard == Some(false) ==> r == Err(WireGuardFailed))
                  && (wireguard != Some(false) && database == Some(false) ==> r == Err(DatabaseFailed)))
  {
    assert CodeTaken(t.rooms, code);
    assert RoomWithCode(t.rooms, code) == Some(room);
    var ip := ChooseIp(t.peers, prefix, request.requestedIp);
    if ip.Ok? {
      JoinAnswers(cfg, t, room, request.peer, ip.value, now);
      ChosenIsFree(t.peers, prefix, request.requestedIp);
    }
    hide ChooseIp, JoinRoom, RoomWithCode;
  }

  lemma ChosenIsFree(peers: Peers, prefix: Prefix, requested: Option<VirtualIp>)
    requires ChooseIp(peers, prefix, requested).Ok?
    ensures !Held(peers, ChooseIp(peers, prefix, requested).value)
    ensures IsPeerAddress(prefix, ChooseIp(peers, prefix, requested).value)
  {
    if requested.Some? {
      RequestedAddress(peers, prefix, requested.value);
    } else {
      GivenAddress(peers, prefix);
    }
    hide ChooseIp;
  }

  lemma UnknownCode(cfg: RouterConfig, t: Tables, prefix: Prefix, code: RoomCode, request: JoinRequest,
                    wireguard: External, database: External, now: Time)
    requires forall r :: r in t.rooms ==> t.rooms[r] != code
    ensures JoinAnswer(cfg, t, prefix, code, request, wireguard, database, now)
            == Err(if WellKeyed(request, wireguard, database) then NotFound else BadRequest)
  {
    hide ChooseIp, JoinRoom;
  }

  // ---------------------------------------------------------------- deleting

  /** Deleting a peer succeeds if and only if it is a member of the room with that code, its key is known where
      there is a store to take it from, and no store fails. */
  lemma DeleteSucceedsExactly(t: Tables, keys: map<PeerId, WireGuardKey>, code: RoomCode, peer: PeerId, wireguard: External, database: External)
    requires CodesUnique(t.rooms)
    ensures var r := DeleteAnswer(t, keys, code, peer, wireguard, database);
            && (r.Ok? <==> && peer in t.peers && t.peers[peer].room in t.rooms && t.rooms[t.peers[peer].room] == code
                           && (wireguard.Some? || database.Some? ==> peer in keys)
                           && wireguard != Some(false) && database != Some(false))
            && (r.Ok? ==> r.value == t.peers[peer].room)
            && (r == Err(NotFound) <==> peer !in t.peers || forall q :: q in t.rooms ==> t.rooms[q] != code)
            && (r == Err(Forbidden) <==> peer in t.peers && exists q :: q in t.rooms && t.rooms[q] == code && t.peers[peer].room != q)
  {
  }

  // ---------------------------------------------------------------- addresses over runs

  ghost predicate AllInPool(prefix: Prefix, peers: Peers) {
    forall p :: p in peers ==> IsPeerAddress(prefix, peers[p].ip)
  }

  lemma OthersAddNoAddress(cfg: RouterConfig, t: Tables, op: Op)
    requires !op.JoinOp?
    ensures forall p :: p in Apply(cfg, t, op).peers ==> p in t.peers && Apply(cfg, t, op).peers[p].ip == t.peers[p].ip
  {
    hide CreateRoom, RemoveEmptyRoom, RegisterHost, HeartbeatHost, UnregisterHost, BeginDiscovery, SelectHost, RouteGameplay,
         RemoveGameplaySession, WithoutRoutesOf, LostHosts, LostDiscoveries, LostSessions;
    if !TouchesPeers(op) {
      OtherOpsKeepPeers(cfg, t, op);
      hide Apply;
    }
  }

  lemma JoiningTakesFromPool(cfg: RouterConfig, prefix: Prefix, a: App, e: AppEvent)
    requires e.JoinCall? && AllInPool(prefix, a.tables.peers)
    ensures AllInPool(prefix, AppNext(cfg, prefix, a, e).tables.peers)
  {
    hide JoinRoom, ChooseIp;
    var answer := JoinAnswer(cfg, a.tables, prefix, e.code, e.request, e.wireguard, e.database, e.now);
    if answer.Ok? {
      ChosenIsFree(a.tables.peers, prefix, e.request.requestedIp);
      JoinAnswers(cfg, a.tables, answer.value.room, e.request.peer, answer.value.ip, e.now);
    }
  }

  /** Over every run of handlers, datagrams and sweeps all peers have addresses of the server's own pool. */
  lemma {:induction false} AddressesStayInPool(cfg: RouterConfig, prefix: Prefix, a: App, events: seq<AppEvent>)
    requires AllInPool(prefix, a.tables.peers) && forall e :: e in events ==> Keyed(e)
    ensures AllInPool(prefix, AppRun(cfg, prefix, a, events).tables.peers)
  {
    hide JoinAnswer, DeleteAnswer, JoinRoom, Apply, WithoutRoutesOf;
    if events != [] {
      var n := |events| - 1;
      var before := AppRun(cfg, prefix, a, events[..n]);
      AddressesStayInPool(cfg, prefix, a, events[..n]);
      assert Keyed(events[n]);
      match events[n] {
        case JoinCall(_, _, _, _, _) => JoiningTakesFromPool(cfg, prefix, before, events[n]);
        case DeleteCall(_, _, _, _) =>
        case RouterCall(op) => OthersAddNoAddress(cfg, before.tables, op);
      }
    }
  }
}
