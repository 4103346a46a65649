/** Every operation keeps the routing invariant, on all tables and all arguments. */
module RouterInvariant {
  import opened Protocol
  import opened Sets
  import opened RouterTables

  lemma EmptyOk(cfg: RouterConfig)
    ensures Inv(cfg, EMPTY)
  {
    hide Inv;
    Close(cfg, EMPTY);
  }

  lemma InvPeers(cfg: RouterConfig, t: Tables)
    requires Inv(cfg, t)
    ensures PeersOk(cfg, t.peers, t.rooms) && IpsUnique(t.peers)
  {
    hide Inv;
    Open(cfg, t);
  }

  lemma InvRoutes(cfg: RouterConfig, t: Tables)
    requires Inv(cfg, t)
    ensures HostsOk(t.hosts, t.peers) && OneHostPerPeer(t.hosts) && DiscoveriesOk(t.discoveries, t.peers)
    ensures GameplayOk(t.gameplay, t.origin, t.hosts, t.peers)
  {
    hide Inv;
    Open(cfg, t);
  }

  // ---------------------------------------------------------------- tables that only shrink

  ghost predicate PeersShrink(a: Peers, b: Peers) {
    forall p :: p in b ==> p in a && b[p].room == a[p].room && b[p].ip == a[p].ip
  }

  predicate SameHost(a: Host, b: Host) {
    a.room == b.room && a.peer == b.peer && a.ip == b.ip
  }

  ghost predicate HostsShrink(a: Hosts, b: Hosts) {
    forall h :: h in b ==> h in a && SameHost(a[h], b[h])
  }

  lemma ShrunkPeersUnique(a: Peers, b: Peers)
    requires PeersShrink(a, b) && IpsUnique(a)
    ensures IpsUnique(b)
  {
  }

  lemma ShrunkHostsUnique(a: Hosts, b: Hosts)
    requires HostsShrink(a, b) && OneHostPerPeer(a)
    ensures OneHostPerPeer(b)
  {
  }

  lemma ShrunkMembersWithin(limit: nat, a: Peers, b: Peers, rooms: Rooms)
    requires PeersShrink(a, b) && MembersWithin(limit, a, rooms)
    ensures MembersWithin(limit, b, rooms) && |b| <= |a|
  {
    SubsetSize(b.Keys, a.Keys);
    forall r | r in rooms
      ensures |Members(b, r)| <= limit
    {
      SubsetSize(Members(b, r), Members(a, r));
    }
  }

  lemma ShrunkHostsWithin(limit: nat, a: Hosts, b: Hosts, rooms: Rooms)
    requires HostsShrink(a, b) && HostsWithin(limit, a, rooms)
    ensures HostsWithin(limit, b, rooms)
  {
    forall r | r in rooms
      ensures |HostSessions(b, r)| <= limit
    {
      SubsetSize(HostSessions(b, r), HostSessions(a, r));
    }
  }

  // ---------------------------------------------------------------- the removals

  lemma DropOk(cfg: RouterConfig, t: Tables, hosts: set<HostSessionId>, discoveries: set<DiscoveryRequestId>,
               sessions: set<GameplaySessionId>)
    requires Inv(cfg, t)
    requires forall g :: g in t.gameplay && g !in sessions ==> g in t.origin && t.origin[g] !in hosts
    ensures Inv(cfg, Drop(t, hosts, discoveries, sessions))
  {
    hide Inv, CodesUnique, IpsUnique, PeersOk, HostsOk, OneHostPerPeer, DiscoveriesOk, GameplayOk, MembersWithin, HostsWithin;
    Open(cfg, t);
    var t' := Drop(t, hosts, discoveries, sessions);
    SubsetSize(t'.gameplay.Keys, t.gameplay.Keys);
    ShrunkHostsUnique(t.hosts, t'.hosts);
    ShrunkHostsWithin(cfg.maxHostsPerRoom, t.hosts, t'.hosts, t.rooms);
    DropRoutesOk(t, hosts, discoveries, sessions);
    Close(cfg, t');
  }

  lemma DropRoutesOk(t: Tables, hosts: set<HostSessionId>, discoveries: set<DiscoveryRequestId>,
                     sessions: set<GameplaySessionId>)
    requires HostsOk(t.hosts, t.peers) && DiscoveriesOk(t.discoveries, t.peers)
    requires GameplayOk(t.gameplay, t.origin, t.hosts, t.peers)
    requires forall g :: g in t.gameplay && g !in sessions ==> t.origin[g] !in hosts
    ensures var t' := Drop(t, hosts, discoveries, sessions);
            && HostsOk(t'.hosts, t.peers) && DiscoveriesOk(t'.discoveries, t.peers)
            && GameplayOk(t'.gameplay, t'.origin, t'.hosts, t.peers)
  {
  }

  lemma OriginHostPeer(cfg: RouterConfig, t: Tables)
    requires Inv(cfg, t)
    ensures t.origin.Keys == t.gameplay.Keys
    ensures forall g :: g in t.gameplay ==> t.origin[g] in t.hosts && t.hosts[t.origin[g]].peer == t.gameplay[g].hostPeer
  {
    hide Inv;
    InvRoutes(cfg, t);
    assert forall g :: g in t.gameplay ==> CameFrom(t.hosts, t.gameplay[g], t.origin[g]);
  }

  lemma WithoutHostsOk(cfg: RouterConfig, t: Tables, gone: set<HostSessionId>)
    requires Inv(cfg, t)
    ensures Inv(cfg, WithoutHosts(t, gone))
  {
    hide Inv;
    OriginHostPeer(cfg, t);
    DropOk(cfg, t, gone, {}, SessionsFrom(t.gameplay, t.origin, gone));
  }

  lemma WithoutRoutesOk(cfg: RouterConfig, t: Tables, gone: set<PeerId>)
    requires Inv(cfg, t)
    ensures Inv(cfg, WithoutRoutesOf(t, gone))
  {
    hide Inv;
    OriginHostPeer(cfg, t);
    DropOk(cfg, t, HostsBy(t.hosts, gone), DiscoveriesBy(t.discoveries, gone), SessionsBy(t.gameplay, gone));
  }

  // Removing in several rounds is removing at once, in any order.

  lemma WithoutNoHosts(cfg: RouterConfig, t: Tables, gone: set<HostSessionId>)
    requires Inv(cfg, t) && gone !! t.hosts.Keys
    ensures WithoutHosts(t, gone) == t
  {
    hide Inv;
    OriginHostPeer(cfg, t);
    assert SessionsFrom(t.gameplay, t.origin, gone) == {};
    assert t.hosts - gone == t.hosts;
  }

  lemma WithoutHostsTwice(t: Tables, first: set<HostSessionId>, second: set<HostSessionId>)
    ensures WithoutHosts(WithoutHosts(t, first), second) == WithoutHosts(t, first + second)
  {
  }

  lemma WithoutRoutesTwice(t: Tables, first: set<PeerId>, second: set<PeerId>)
    ensures WithoutRoutesOf(WithoutRoutesOf(t, first), second) == WithoutRoutesOf(t, first + second)
  {
  }

  lemma DroppedTwice(t: Tables, hosts: set<HostSessionId>, hosts': set<HostSessionId>,
                     discoveries: set<DiscoveryRequestId>, discoveries': set<DiscoveryRequestId>,
                     sessions: set<GameplaySessionId>, sessions': set<GameplaySessionId>)
    ensures Drop(Drop(t, hosts, discoveries, sessions), hosts', discoveries', sessions')
            == Drop(t, hosts + hosts', discoveries + discoveries', sessions + sessions')
  {
  }

  lemma DropNothing(t: Tables)
    ensures Drop(t, {}, {}, {}) == t
  {
  }

  lemma SuspendTwice(t: Tables, first: set<PeerId>, second: set<PeerId>, now: Time)
    ensures Suspend(Suspend(t, first, now), second, now) == Suspend(t, first + second, now)
  {
    WithoutRoutesTwice(t, first, second);
    assert Suspended(Suspended(t.peers, first, now), second, now) == Suspended(t.peers, first + second, now);
  }

  lemma EvictTwice(t: Tables, first: set<PeerId>, second: set<PeerId>)
    ensures Evict(Evict(t, first), second) == Evict(t, first + second)
  {
    WithoutRoutesTwice(t, first, second);
    assert t.peers - first - second == t.peers - (first + second);
  }

  lemma NothingSuspended(t: Tables, now: Time)
    ensures Suspend(t, {}, now) == t && Evict(t, {}) == t
  {
  }

  /** Every peer that a route refers to. */
  ghost predicate UsesOnly(t: Tables, peers: Peers) {
    && (forall h :: h in t.hosts ==> t.hosts[h].peer in peers)
    && (forall d :: d in t.discoveries ==> t.discoveries[d].client in peers)
    && (forall g :: g in t.gameplay ==> t.gameplay[g].client in peers)
  }

  lemma ShrunkPeersRoutesOk(t: Tables, peers: Peers)
    requires HostsOk(t.hosts, t.peers) && DiscoveriesOk(t.discoveries, t.peers)
    requires GameplayOk(t.gameplay, t.origin, t.hosts, t.peers)
    requires PeersShrink(t.peers, peers) && UsesOnly(t, peers)
    ensures HostsOk(t.hosts, peers) && DiscoveriesOk(t.discoveries, peers)
    ensures GameplayOk(t.gameplay, t.origin, t.hosts, peers)
  {
  }

  /** Peers that no route uses may go, and lease states may change, as long as they stay legal. */
  lemma ShrinkPeersOk(cfg: RouterConfig, t: Tables, peers: Peers)
    requires Inv(cfg, t) && PeersShrink(t.peers, peers) && PeersOk(cfg, peers, t.rooms) && UsesOnly(t, peers)
    ensures Inv(cfg, t.(peers := peers))
  {
    hide Inv, CodesUnique, IpsUnique, PeersOk, HostsOk, OneHostPerPeer, DiscoveriesOk, GameplayOk, MembersWithin, HostsWithin;
    Open(cfg, t);
    ShrunkPeersUnique(t.peers, peers);
    ShrunkMembersWithin(cfg.maxPeersPerRoom, t.peers, peers, t.rooms);
    ShrunkPeersRoutesOk(t, peers);
    Close(cfg, t.(peers := peers));
  }

  lemma RoutesUsePeers(t: Tables)
    requires HostsOk(t.hosts, t.peers) && DiscoveriesOk(t.discoveries, t.peers)
    requires GameplayOk(t.gameplay, t.origin, t.hosts, t.peers)
    ensures UsesOnly(t, t.peers)
  {
  }

  lemma SuspendedPeersOk(cfg: RouterConfig, t: Tables, stale: set<PeerId>, now: Time)
    requires PeersOk(cfg, t.peers, t.rooms)
    requires forall p :: p in stale && p in t.peers ==> t.peers[p].lastSeen + cfg.peerTtl <= now
    ensures PeersOk(cfg, Suspend(t, stale, now).peers, t.rooms) && PeersShrink(t.peers, Suspend(t, stale, now).peers)
  {
  }

  lemma SuspendOk(cfg: RouterConfig, t: Tables, stale: set<PeerId>, now: Time)
    requires Inv(cfg, t)
    requires forall p :: p in stale && p in t.peers ==> t.peers[p].lastSeen + cfg.peerTtl <= now
    ensures Inv(cfg, Suspend(t, stale, now))
  {
    hide Inv;
    InvPeers(cfg, t);
    var t1 := WithoutRoutesOf(t, stale);
    var peers := Suspend(t, stale, now).peers;
    WithoutRoutesOk(cfg, t, stale);
    InvRoutes(cfg, t1);
    RoutesUsePeers(t1);
    SuspendedPeersOk(cfg, t, stale, now);
    ShrinkPeersOk(cfg, t1, peers);
  }

  lemma EvictOk(cfg: RouterConfig, t: Tables, gone: set<PeerId>)
    requires Inv(cfg, t)
    ensures Inv(cfg, Evict(t, gone))
  {
    hide Inv;
    InvPeers(cfg, t);
    var t1 := WithoutRoutesOf(t, gone);
    WithoutRoutesOk(cfg, t, gone);
    InvRoutes(cfg, t1);
    RoutesUsePeers(t1);
    ShrinkPeersOk(cfg, t1, t.peers - gone);
  }

  lemma SweptPeersOk(cfg: RouterConfig, t: Tables, now: Time)
    requires PeersOk(cfg, t.peers, t.rooms)
    ensures PeersOk(cfg, Swept(cfg, t, now).peers, t.rooms) && PeersShrink(t.peers, Swept(cfg, t, now).peers)
  {
  }

  lemma SweptRoutesOk(cfg: RouterConfig, t: Tables, now: Time)
    requires Inv(cfg, t)
    ensures Inv(cfg, Swept(cfg, t, now).(peers := t.peers))
  {
    hide Inv;
    InvRoutes(cfg, t);
    DropOk(cfg, t, LostHosts(cfg, t, now), LostDiscoveries(cfg, t, now), LostSessions(cfg, t, now));
  }

  lemma SweptUses(cfg: RouterConfig, t: Tables, now: Time)
    requires t.origin.Keys == t.gameplay.Keys
    ensures UsesOnly(Swept(cfg, t, now), Swept(cfg, t, now).peers)
  {
  }

  lemma SweptOk(cfg: RouterConfig, t: Tables, now: Time)
    requires Inv(cfg, t)
    ensures Inv(cfg, Swept(cfg, t, now))
  {
    hide Inv;
    InvPeers(cfg, t);
    InvRoutes(cfg, t);
    var t' := Swept(cfg, t, now);
    SweptPeersOk(cfg, t, now);
    SweptRoutesOk(cfg, t, now);
    SweptUses(cfg, t, now);
    ShrinkPeersOk(cfg, t'.(peers := t.peers), t'.peers);
    assert t'.(peers := t.peers).(peers := t'.peers) == t';
  }

  // ---------------------------------------------------------------- rooms and peers

  lemma UnusedRoomIsEmpty(cfg: RouterConfig, t: Tables, room: RoomId)
    requires PeersOk(cfg, t.peers, t.rooms) && HostsOk(t.hosts, t.peers) && room !in t.rooms
    ensures Members(t.peers, room) == {} && HostSessions(t.hosts, room) == {}
  {
  }

  lemma NewRoomIsEmpty(cfg: RouterConfig, t: Tables, room: RoomId)
    requires Inv(cfg, t) && room !in t.rooms
    ensures Members(t.peers, room) == {} && HostSessions(t.hosts, room) == {}
  {
    hide Inv;
    Open(cfg, t);
    UnusedRoomIsEmpty(cfg, t, room);
  }

  lemma AddedRoomLimits(cfg: RouterConfig, t: Tables, room: RoomId, code: RoomCode)
    requires MembersWithin(cfg.maxPeersPerRoom, t.peers, t.rooms) && HostsWithin(cfg.maxHostsPerRoom, t.hosts, t.rooms)
    requires Members(t.peers, room) == {} && HostSessions(t.hosts, room) == {}
    ensures MembersWithin(cfg.maxPeersPerRoom, t.peers, t.rooms[room := code])
    ensures HostsWithin(cfg.maxHostsPerRoom, t.hosts, t.rooms[room := code])
  {
  }

  lemma AddedRoomParts(cfg: RouterConfig, t: Tables, room: RoomId, code: RoomCode)
    requires CodesUnique(t.rooms) && PeersOk(cfg, t.peers, t.rooms) && room !in t.rooms && !CodeTaken(t.rooms, code)
    ensures CodesUnique(t.rooms[room := code]) && PeersOk(cfg, t.peers, t.rooms[room := code])
  {
  }

  lemma AddRoomOk(cfg: RouterConfig, t: Tables, room: RoomId, code: RoomCode)
    requires Inv(cfg, t) && |t.rooms| < cfg.maxRooms && room !in t.rooms && !CodeTaken(t.rooms, code)
    ensures Inv(cfg, t.(rooms := t.rooms[room := code]))
  {
    hide Inv, CodesUnique, IpsUnique, PeersOk, HostsOk, OneHostPerPeer, DiscoveriesOk, GameplayOk, MembersWithin, HostsWithin, CodeTaken;
    Open(cfg, t);
    UnusedRoomIsEmpty(cfg, t, room);
    PutSize(t.rooms, room, code);
    AddedRoomParts(cfg, t, room, code);
    AddedRoomLimits(cfg, t, room, code);
    Close(cfg, t.(rooms := t.rooms[room := code]));
  }

  lemma CreateRoomOk(cfg: RouterConfig, t: Tables, room: RoomId, code: RoomCode)
    requires Inv(cfg, t)
    ensures Inv(cfg, CreateRoom(cfg, t, room, code).tables)
  {
    hide Inv;
    var step := CreateRoom(cfg, t, room, code);
    if step.result.Ok? {
      AddRoomOk(cfg, t, room, code);
    } else {
      assert step.tables == t;
    }
  }

  lemma DroppedRoomParts(cfg: RouterConfig, t: Tables, room: RoomId)
    requires CodesUnique(t.rooms) && PeersOk(cfg, t.peers, t.rooms) && Members(t.peers, room) == {}
    ensures CodesUnique(t.rooms - {room}) && PeersOk(cfg, t.peers, t.rooms - {room})
  {
    assert forall p :: p in t.peers ==> p !in Members(t.peers, room);
  }

  lemma DroppedRoomLimits(cfg: RouterConfig, t: Tables, room: RoomId)
    requires MembersWithin(cfg.maxPeersPerRoom, t.peers, t.rooms) && HostsWithin(cfg.maxHostsPerRoom, t.hosts, t.rooms)
    ensures MembersWithin(cfg.maxPeersPerRoom, t.peers, t.rooms - {room})
    ensures HostsWithin(cfg.maxHostsPerRoom, t.hosts, t.rooms - {room})
    ensures |t.rooms - {room}| <= |t.rooms|
  {
    SubsetSize((t.rooms - {room}).Keys, t.rooms.Keys);
  }

  lemma DropRoomOk(cfg: RouterConfig, t: Tables, room: RoomId)
    requires Inv(cfg, t) && Members(t.peers, room) == {}
    ensures Inv(cfg, t.(rooms := t.rooms - {room}))
  {
    hide Inv, CodesUnique, IpsUnique, PeersOk, HostsOk, OneHostPerPeer, DiscoveriesOk, GameplayOk, MembersWithin, HostsWithin, Members;
    Open(cfg, t);
    DroppedRoomParts(cfg, t, room);
    DroppedRoomLimits(cfg, t, room);
    Close(cfg, t.(rooms := t.rooms - {room}));
  }

  lemma RemoveEmptyRoomOk(cfg: RouterConfig, t: Tables, room: RoomId)
    requires Inv(cfg, t)
    ensures Inv(cfg, RemoveEmptyRoom(t, room).tables)
  {
    hide Inv;
    if RemoveEmptyRoom(t, room).result.Ok? {
      DropRoomOk(cfg, t, room);
    } else {
      assert RemoveEmptyRoom(t, room).tables == t;
    }
  }

  lemma AddedMembers(peers: Peers, peer: PeerId, p: Peer, r: RoomId)
    requires peer !in peers
    ensures Members(peers[peer := p], r) == if r == p.room then Members(peers, r) + {peer} else Members(peers, r)
    ensures |Members(peers[peer := p], r)| == |Members(peers, r)| + (if r == p.room then 1 else 0)
  {
  }

  lemma AddedMembersWithin(limit: nat, peers: Peers, rooms: Rooms, peer: PeerId, p: Peer)
    requires MembersWithin(limit, peers, rooms) && peer !in peers && |Members(peers, p.room)| < limit
    ensures MembersWithin(limit, peers[peer := p], rooms)
  {
    forall r | r in rooms
      ensures |Members(peers[peer := p], r)| <= limit
    {
      AddedMembers(peers, peer, p, r);
    }
  }

  lemma AddedPeerRoutesOk(t: Tables, peer: PeerId, p: Peer)
    requires HostsOk(t.hosts, t.peers) && DiscoveriesOk(t.discoveries, t.peers)
    requires GameplayOk(t.gameplay, t.origin, t.hosts, t.peers)
    requires peer !in t.peers
    ensures HostsOk(t.hosts, t.peers[peer := p]) && DiscoveriesOk(t.discoveries, t.peers[peer := p])
    ensures GameplayOk(t.gameplay, t.origin, t.hosts, t.peers[peer := p])
  {
  }

  lemma AddedIpUnique(peers: Peers, peer: PeerId, p: Peer)
    requires IpsUnique(peers) && !IpTaken(peers, p.ip)
    ensures IpsUnique(peers[peer := p])
  {
  }

  lemma AddedPeerParts(cfg: RouterConfig, peers: Peers, rooms: Rooms, peer: PeerId, p: Peer)
    requires PeersOk(cfg, peers, rooms) && p.room in rooms && LeaseOk(cfg, p)
    ensures PeersOk(cfg, peers[peer := p], rooms)
  {
  }

  lemma AddPeerOk(cfg: RouterConfig, t: Tables, peer: PeerId, p: Peer)
    requires Inv(cfg, t) && peer !in t.peers && p.room in t.rooms && LeaseOk(cfg, p) && !IpTaken(t.peers, p.ip)
    requires |t.peers| < cfg.maxTotalPeers && |Members(t.peers, p.room)| < cfg.maxPeersPerRoom
    ensures Inv(cfg, t.(peers := t.peers[peer := p]))
  {
    hide Inv, CodesUnique, IpsUnique, PeersOk, HostsOk, OneHostPerPeer, DiscoveriesOk, GameplayOk, MembersWithin, HostsWithin, IpTaken, Members;
    Open(cfg, t);
    AddedMembersWithin(cfg.maxPeersPerRoom, t.peers, t.rooms, peer, p);
    AddedPeerParts(cfg, t.peers, t.rooms, peer, p);
    AddedPeerRoutesOk(t, peer, p);
    AddedIpUnique(t.peers, peer, p);
    PutSize(t.peers, peer, p);
    Close(cfg, t.(peers := t.peers[peer := p]));
  }

  lemma JoinRoomOk(cfg: RouterConfig, t: Tables, room: RoomId, peer: PeerId, ip: VirtualIp, now: Time)
    requires Inv(cfg, t)
    ensures Inv(cfg, JoinRoom(cfg, t, room, peer, ip, now).tables)
  {
    hide Inv;
    var step := JoinRoom(cfg, t, room, peer, ip, now);
    if step.result.Ok? {
      AddPeerOk(cfg, t, peer, Peer(room, ip, now, None, 1));
    } else {
      assert step.tables == t;
    }
  }

  lemma LeaveRoomOk(cfg: RouterConfig, t: Tables, room: RoomId, peer: PeerId)
    requires Inv(cfg, t)
    ensures Inv(cfg, LeaveRoom(t, room, peer).tables)
  {
    hide Inv;
    EvictOk(cfg, t, {peer});
  }

  lemma PeerLeaseOk(cfg: RouterConfig, t: Tables, peer: PeerId)
    requires Inv(cfg, t) && peer in t.peers
    ensures LeaseOk(cfg, t.peers[peer]) && t.peers[peer].room in t.rooms
  {
    hide Inv;
    InvPeers(cfg, t);
  }

  /** A peer's lease state may be rewritten, as long as it stays legal and the peer stays where it is. */
  lemma TouchPeerOk(cfg: RouterConfig, t: Tables, peer: PeerId, p: Peer)
    requires Inv(cfg, t) && IsMember(t.peers, p.room, peer, p.ip) && LeaseOk(cfg, p)
    ensures Inv(cfg, t.(peers := t.peers[peer := p]))
  {
    hide Inv;
    InvRoutes(cfg, t);
    InvPeers(cfg, t);
    RoutesUsePeers(t);
    ShrinkPeersOk(cfg, t, t.peers[peer := p]);
  }

  lemma MarkPeerSeenOk(cfg: RouterConfig, t: Tables, peer: PeerId, now: Time)
    requires Inv(cfg, t)
    ensures Inv(cfg, MarkPeerSeen(t, peer, now).tables)
  {
    hide Inv;
    InvPeers(cfg, t);
    var step := MarkPeerSeen(t, peer, now);
    if step.result.Ok? {
      TouchPeerOk(cfg, t, peer, step.tables.peers[peer]);
      assert step.tables == t.(peers := t.peers[peer := step.tables.peers[peer]]);
    } else {
      assert step.tables == t;
    }
  }

  lemma ResumePeerOk(cfg: RouterConfig, t: Tables, room: RoomId, peer: PeerId, now: Time)
    requires Inv(cfg, t)
    ensures Inv(cfg, ResumePeer(cfg, t, room, peer, now).tables)
  {
    hide Inv;
    InvPeers(cfg, t);
    var step := ResumePeer(cfg, t, room, peer, now);
    if step.result.Ok? {
      TouchPeerOk(cfg, t, peer, step.tables.peers[peer]);
      assert step.tables == t.(peers := t.peers[peer := step.tables.peers[peer]]);
    } else {
      assert step.tables == t;
    }
  }

  // ---------------------------------------------------------------- host sessions

  /** Replacing a host session by one of the same room, peer and address. */
  lemma TouchHostOk(cfg: RouterConfig, t: Tables, host: HostSessionId, h: Host)
    requires Inv(cfg, t) && host in t.hosts && SameHost(t.hosts[host], h)
    ensures Inv(cfg, t.(hosts := t.hosts[host := h]))
  {
    hide Inv, CodesUnique, IpsUnique, PeersOk, HostsOk, OneHostPerPeer, DiscoveriesOk, GameplayOk, MembersWithin, HostsWithin;
    Open(cfg, t);
    ShrunkHostsUnique(t.hosts, t.hosts[host := h]);
    ShrunkHostsWithin(cfg.maxHostsPerRoom, t.hosts, t.hosts[host := h], t.rooms);
    TouchHostRoutesOk(t, host, h);
    Close(cfg, t.(hosts := t.hosts[host := h]));
  }

  lemma TouchHostRoutesOk(t: Tables, host: HostSessionId, h: Host)
    requires HostsOk(t.hosts, t.peers) && GameplayOk(t.gameplay, t.origin, t.hosts, t.peers)
    requires host in t.hosts && SameHost(t.hosts[host], h)
    ensures HostsOk(t.hosts[host := h], t.peers) && GameplayOk(t.gameplay, t.origin, t.hosts[host := h], t.peers)
  {
  }

  lemma AddedHostRoutesOk(t: Tables, newId: HostSessionId, host: Host)
    requires HostsOk(t.hosts, t.peers) && OneHostPerPeer(t.hosts)
    requires GameplayOk(t.gameplay, t.origin, t.hosts, t.peers)
    requires newId !in t.hosts && IsMember(t.peers, host.room, host.peer, host.ip) && SessionsOf(t.hosts, host.room, host.peer) == {}
    ensures HostsOk(t.hosts[newId := host], t.peers) && OneHostPerPeer(t.hosts[newId := host])
    ensures GameplayOk(t.gameplay, t.origin, t.hosts[newId := host], t.peers)
  {
    assert forall g :: g in t.gameplay ==> CameFrom(t.hosts, t.gameplay[g], t.origin[g]);
    forall h | h in t.hosts
      ensures t.hosts[h].peer != host.peer
    {
      assert IsMember(t.peers, t.hosts[h].room, t.hosts[h].peer, t.hosts[h].ip);
      assert h !in SessionsOf(t.hosts, host.room, host.peer);
    }
  }

  lemma AddedHostSessions(hosts: Hosts, newId: HostSessionId, host: Host, r: RoomId)
    requires newId !in hosts
    ensures HostSessions(hosts[newId := host], r)
            == if r == host.room then HostSessions(hosts, r) + {newId} else HostSessions(hosts, r)
    ensures |HostSessions(hosts[newId := host], r)| == |HostSessions(hosts, r)| + (if r == host.room then 1 else 0)
  {
  }

  lemma AddedHostsWithin(limit: nat, hosts: Hosts, rooms: Rooms, newId: HostSessionId, host: Host)
    requires HostsWithin(limit, hosts, rooms) && newId !in hosts && |HostSessions(hosts, host.room)| < limit
    ensures HostsWithin(limit, hosts[newId := host], rooms)
  {
    forall r | r in rooms
      ensures |HostSessions(hosts[newId := host], r)| <= limit
    {
      AddedHostSessions(hosts, newId, host, r);
    }
  }

  lemma AddHostOk(cfg: RouterConfig, t: Tables, newId: HostSessionId, host: Host)
    requires Inv(cfg, t) && newId !in t.hosts
    requires IsMember(t.peers, host.room, host.peer, host.ip) && SessionsOf(t.hosts, host.room, host.peer) == {}
    requires |HostSessions(t.hosts, host.room)| < cfg.maxHostsPerRoom
    ensures Inv(cfg, t.(hosts := t.hosts[newId := host]))
  {
    hide Inv, CodesUnique, IpsUnique, PeersOk, HostsOk, OneHostPerPeer, DiscoveriesOk, GameplayOk, MembersWithin, HostsWithin;
    Open(cfg, t);
    AddedHostRoutesOk(t, newId, host);
    AddedHostsWithin(cfg.maxHostsPerRoom, t.hosts, t.rooms, newId, host);
    Close(cfg, t.(hosts := t.hosts[newId := host]));
  }

  lemma RegisterHostOk(cfg: RouterConfig, t: Tables, room: RoomId, peer: PeerId, newId: HostSessionId, now: Time)
    requires Inv(cfg, t) && newId !in t.hosts
    ensures Inv(cfg, RegisterHost(cfg, t, room, peer, newId, now).tables)
  {
    hide Inv;
    var step := RegisterHost(cfg, t, room, peer, newId, now);
    if MemberState(t, room, peer).Ok? {
      if exists h :: LiveSession(t, h, room, peer, now) {
        RefreshOk(cfg, t, step.result.value, now);
      } else {
        var t1 := WithoutHosts(t, SessionsOf(t.hosts, room, peer));
        WithoutHostsOk(cfg, t, SessionsOf(t.hosts, room, peer));
        if step.result.Ok? {
          assert SessionsOf(t1.hosts, room, peer) == {};
          AddHostOk(cfg, t1, newId, step.tables.hosts[newId]);
        } else {
          assert step.tables == t1;
        }
      }
    } else {
      assert step.tables == t;
    }
  }

  lemma RefreshOk(cfg: RouterConfig, t: Tables, host: HostSessionId, now: Time)
    requires Inv(cfg, t) && host in t.hosts
    ensures Inv(cfg, Refresh(cfg, t, host, now))
  {
    hide Inv;
    TouchHostOk(cfg, t, host, Refresh(cfg, t, host, now).hosts[host]);
  }

  lemma HeartbeatHostOk(cfg: RouterConfig, t: Tables, host: HostSessionId, now: Time)
    requires Inv(cfg, t)
    ensures Inv(cfg, HeartbeatHost(cfg, t, host, now).tables)
  {
    hide Inv;
    if HeartbeatHost(cfg, t, host, now).result.Ok? {
      RefreshOk(cfg, t, host, now);
    } else {
      assert HeartbeatHost(cfg, t, host, now).tables == t;
    }
  }

  // ---------------------------------------------------------------- discovery and gameplay

  lemma PutDiscoveryDiscoveriesOk(discoveries: Discoveries, peers: Peers, request: DiscoveryRequestId, d: Discovery)
    requires DiscoveriesOk(discoveries, peers) && InRoom(peers, d.room, d.client)
    ensures DiscoveriesOk(discoveries[request := d], peers)
  {
  }

  lemma PutDiscoveryOk(cfg: RouterConfig, t: Tables, request: DiscoveryRequestId, d: Discovery)
    requires Inv(cfg, t) && InRoom(t.peers, d.room, d.client)
    ensures Inv(cfg, t.(discoveries := t.discoveries[request := d]))
  {
    hide Inv, CodesUnique, IpsUnique, PeersOk, HostsOk, OneHostPerPeer, DiscoveriesOk, GameplayOk, MembersWithin, HostsWithin;
    Open(cfg, t);
    PutDiscoveryDiscoveriesOk(t.discoveries, t.peers, request, d);
    Close(cfg, t.(discoveries := t.discoveries[request := d]));
  }

  lemma BeginDiscoveryOk(cfg: RouterConfig, t: Tables, room: RoomId, client: PeerId, request: DiscoveryRequestId,
                         port: U16, now: Time)
    requires Inv(cfg, t)
    ensures Inv(cfg, BeginDiscovery(cfg, t, room, client, request, port, now).tables)
  {
    hide Inv;
    var step := BeginDiscovery(cfg, t, room, client, request, port, now);
    if step.result.Ok? {
      PutDiscoveryOk(cfg, t, request, Discovery(room, client, port, now + cfg.discoveryTtl));
    } else {
      assert step.tables == t;
    }
  }

  lemma PutSessionOk(cfg: RouterConfig, t: Tables, id: GameplaySessionId, g: Gameplay, host: HostSessionId)
    requires Inv(cfg, t) && |t.gameplay[id := g]| <= cfg.maxGameplaySessions
    requires IsMember(t.peers, g.room, g.client, g.clientIp) && CameFrom(t.hosts, g, host)
    ensures Inv(cfg, t.(gameplay := t.gameplay[id := g], origin := t.origin[id := host]))
  {
    hide Inv, CodesUnique, IpsUnique, PeersOk, HostsOk, OneHostPerPeer, DiscoveriesOk, GameplayOk, MembersWithin, HostsWithin;
    Open(cfg, t);
    PutSessionGameplayOk(t, id, g, host);
    Close(cfg, t.(gameplay := t.gameplay[id := g], origin := t.origin[id := host]));
  }

  lemma PutSessionGameplayOk(t: Tables, id: GameplaySessionId, g: Gameplay, host: HostSessionId)
    requires GameplayOk(t.gameplay, t.origin, t.hosts, t.peers)
    requires IsMember(t.peers, g.room, g.client, g.clientIp) && CameFrom(t.hosts, g, host)
    ensures GameplayOk(t.gameplay[id := g], t.origin[id := host], t.hosts, t.peers)
  {
  }

  /** `t'` is `t`, or `t` with the session `id` from `host` put in. */
  predicate PutsSession(t: Tables, t': Tables, id: GameplaySessionId, g: Gameplay, host: HostSessionId) {
    && t' == t.(gameplay := t.gameplay[id := g], origin := t.origin[id := host])
    && IsMember(t.peers, g.room, g.client, g.clientIp) && CameFrom(t.hosts, g, host)
  }

  lemma SelectHostPuts(cfg: RouterConfig, t: Tables, room: RoomId, client: PeerId, host: HostSessionId,
                       newId: GameplaySessionId, now: Time)
    ensures var step := SelectHost(cfg, t, room, client, host, newId, now);
            if step.result.Ok?
            then |t.gameplay| < cfg.maxGameplaySessions && newId in step.tables.gameplay
                 && PutsSession(t, step.tables, newId, step.tables.gameplay[newId], host)
            else step.tables == t
  {
  }

  lemma PutsSessionOk(cfg: RouterConfig, t: Tables, t': Tables, id: GameplaySessionId, g: Gameplay, host: HostSessionId)
    requires Inv(cfg, t) && PutsSession(t, t', id, g, host)
    requires id in t.gameplay || |t.gameplay| < cfg.maxGameplaySessions
    ensures Inv(cfg, t')
  {
    hide Inv;
    PutSize(t.gameplay, id, g);
    assert |t.gameplay| <= cfg.maxGameplaySessions by {
      Open(cfg, t);
    }
    PutSessionOk(cfg, t, id, g, host);
  }

  lemma SelectHostOk(cfg: RouterConfig, t: Tables, room: RoomId, client: PeerId, host: HostSessionId,
                     newId: GameplaySessionId, now: Time)
    requires Inv(cfg, t)
    ensures Inv(cfg, SelectHost(cfg, t, room, client, host, newId, now).tables)
  {
    hide Inv;
    var step := SelectHost(cfg, t, room, client, host, newId, now);
    SelectHostPuts(cfg, t, room, client, host, newId, now);
    if step.result.Ok? {
      PutsSessionOk(cfg, t, step.tables, newId, step.tables.gameplay[newId], host);
    }
  }

  lemma RouteGameplayPuts(cfg: RouterConfig, t: Tables, session: GameplaySessionId, source: PeerId, now: Time)
    requires GameplayOk(t.gameplay, t.origin, t.hosts, t.peers)
    ensures var step := RouteGameplay(cfg, t, session, source, now);
            if step.result.Ok?
            then session in t.gameplay && session in step.tables.gameplay
                 && PutsSession(t, step.tables, session, step.tables.gameplay[session], t.origin[session])
            else step.tables == t
  {
  }

  lemma RouteGameplayOk(cfg: RouterConfig, t: Tables, session: GameplaySessionId, source: PeerId, now: Time)
    requires Inv(cfg, t)
    ensures Inv(cfg, RouteGameplay(cfg, t, session, source, now).tables)
  {
    hide Inv;
    InvRoutes(cfg, t);
    var step := RouteGameplay(cfg, t, session, source, now);
    RouteGameplayPuts(cfg, t, session, source, now);
    if step.result.Ok? {
      PutsSessionOk(cfg, t, step.tables, session, step.tables.gameplay[session], t.origin[session]);
    }
  }

  lemma DroppedSessionGameplayOk(t: Tables, session: GameplaySessionId)
    requires GameplayOk(t.gameplay, t.origin, t.hosts, t.peers)
    ensures GameplayOk(t.gameplay - {session}, t.origin - {session}, t.hosts, t.peers)
  {
  }

  lemma DropSessionOk(cfg: RouterConfig, t: Tables, session: GameplaySessionId)
    requires Inv(cfg, t)
    ensures Inv(cfg, t.(gameplay := t.gameplay - {session}, origin := t.origin - {session}))
  {
    hide Inv, CodesUnique, IpsUnique, PeersOk, HostsOk, OneHostPerPeer, DiscoveriesOk, GameplayOk, MembersWithin, HostsWithin;
    Open(cfg, t);
    SubsetSize((t.gameplay - {session}).Keys, t.gameplay.Keys);
    DroppedSessionGameplayOk(t, session);
    Close(cfg, t.(gameplay := t.gameplay - {session}, origin := t.origin - {session}));
  }

  lemma RemoveGameplaySessionOk(cfg: RouterConfig, t: Tables, session: GameplaySessionId)
    requires Inv(cfg, t)
    ensures Inv(cfg, RemoveGameplaySession(t, session).tables)
  {
    hide Inv;
    if RemoveGameplaySession(t, session).result.Ok? {
      DropSessionOk(cfg, t, session);
    } else {
      assert RemoveGameplaySession(t, session).tables == t;
    }
  }

  /** Dispatching changes the tables as one of the two stateful relays does, or not at all. */
  lemma DispatchTables(cfg: RouterConfig, t: Tables, ingress: RelayIngress)
    ensures var t' := Dispatch(cfg, t, ingress).tables;
            match ingress
            case DiscoveryIngress(source, request, port, _, now) =>
              t' == t || (source in t.peers
                          && t' == BeginDiscovery(cfg, t, t.peers[source].room, source, request, port, now).tables)
            case ResponseIngress(_, _, _, _, _) => t' == t
            case GameplayIngress(session, source, _, _, now) => t' == t || t' == RouteGameplay(cfg, t, session, source, now).tables
  {
  }

  lemma DispatchOk(cfg: RouterConfig, t: Tables, ingress: RelayIngress)
    requires Inv(cfg, t)
    ensures Inv(cfg, Dispatch(cfg, t, ingress).tables)
  {
    hide Inv;
    DispatchTables(cfg, t, ingress);
    if Dispatch(cfg, t, ingress).tables != t {
      match ingress {
        case DiscoveryIngress(source, request, port, _, now) =>
          BeginDiscoveryOk(cfg, t, t.peers[source].room, source, request, port, now);
        case GameplayIngress(session, source, _, _, now) =>
          RouteGameplayOk(cfg, t, session, source, now);
        case _ =>
      }
    }
  }
}
