/** The collect-then-remove passes of `leave_room`, `disconnect_peer` and `expire`, composed. */
module RouterPasses {
  import opened Protocol
  import opened RouterTables
  import opened RouterInvariant

  // ---------------------------------------------------------------- leaving

  /** Within one room, dropping a peer's host sessions and then the rest of its routes is dropping all
      that it takes part in. */
  lemma LeavingDropsRoutes(cfg: RouterConfig, t: Tables, room: RoomId, peer: PeerId)
    requires Inv(cfg, t) && InRoom(t.peers, room, peer)
    ensures SessionsOf(t.hosts, room, peer) == HostsBy(t.hosts, {peer})
    ensures RequestsIn(t.discoveries, room, peer) == DiscoveriesBy(t.discoveries, {peer})
    ensures var t1 := WithoutHosts(t, SessionsOf(t.hosts, room, peer));
            Drop(t1, {}, RequestsIn(t1.discoveries, room, peer), SessionsIn(t1.gameplay, room, peer)) == WithoutRoutesOf(t, {peer})
  {
    hide Inv;
    assert SessionsOf(t.hosts, room, peer) == HostsBy(t.hosts, {peer}) by {
      InvRoutes(cfg, t);
      assert forall h :: h in t.hosts ==> IsMember(t.peers, t.hosts[h].room, t.hosts[h].peer, t.hosts[h].ip);
    }
    assert RequestsIn(t.discoveries, room, peer) == DiscoveriesBy(t.discoveries, {peer}) by {
      InvRoutes(cfg, t);
      assert forall d :: d in t.discoveries ==> InRoom(t.peers, t.discoveries[d].room, t.discoveries[d].client);
    }
    LeavingDropsSessions(cfg, t, room, peer);
    var gone := SessionsOf(t.hosts, room, peer);
    var t1 := WithoutHosts(t, gone);
    DroppedTwice(t, gone, {}, {}, RequestsIn(t1.discoveries, room, peer),
                 SessionsFrom(t.gameplay, t.origin, gone), SessionsIn(t1.gameplay, room, peer));
    assert t1.discoveries == t.discoveries;
    assert gone + {} == gone && {} + RequestsIn(t.discoveries, room, peer) == RequestsIn(t.discoveries, room, peer);
  }

  function RequestsIn(discoveries: Discoveries, room: RoomId, peer: PeerId): set<DiscoveryRequestId> {
    set d | d in discoveries && discoveries[d].room == room && discoveries[d].client == peer
  }

  function SessionsIn(gameplay: Sessions, room: RoomId, peer: PeerId): set<GameplaySessionId> {
    set g | g in gameplay && gameplay[g].room == room && (gameplay[g].client == peer || gameplay[g].hostPeer == peer)
  }

  lemma LeavingDropsSessions(cfg: RouterConfig, t: Tables, room: RoomId, peer: PeerId)
    requires Inv(cfg, t) && InRoom(t.peers, room, peer) && SessionsOf(t.hosts, room, peer) == HostsBy(t.hosts, {peer})
    ensures var gone := SessionsFrom(t.gameplay, t.origin, SessionsOf(t.hosts, room, peer));
            gone + SessionsIn(t.gameplay - gone, room, peer) == SessionsBy(t.gameplay, {peer})
  {
    hide Inv;
    OriginHostPeer(cfg, t);
    forall g | g in t.gameplay && t.gameplay[g].client == peer
      ensures t.gameplay[g].room == room
    {
      InvRoutes(cfg, t);
      assert IsMember(t.peers, t.gameplay[g].room, t.gameplay[g].client, t.gameplay[g].clientIp);
    }
  }

  // ---------------------------------------------------------------- the phases of the sweep

  function ExpiredHosts(hosts: Hosts, now: Time): set<HostSessionId> {
    set h | h in hosts && hosts[h].expiresAt <= now
  }

  function ExpiredDiscoveries(discoveries: Discoveries, now: Time): set<DiscoveryRequestId> {
    set d | d in discoveries && discoveries[d].expiresAt <= now
  }

  function ExpiredSessions(gameplay: Sessions, now: Time): set<GameplaySessionId> {
    set g | g in gameplay && gameplay[g].expiresAt <= now
  }

  function StalePeers(cfg: RouterConfig, peers: Peers, now: Time): set<PeerId> {
    set p | p in peers && Stale(cfg, peers[p], now)
  }

  function PeersBeyondGrace(cfg: RouterConfig, peers: Peers, now: Time): set<PeerId> {
    set p | p in peers && GraceOver(cfg, peers[p], now)
  }

  lemma LeasesDroppedOk(cfg: RouterConfig, t: Tables, now: Time)
    requires Inv(cfg, t)
    ensures Inv(cfg, LeasesDropped(t, now))
  {
    hide Inv;
    var t1 := WithoutHosts(t, ExpiredHosts(t.hosts, now));
    WithoutHostsOk(cfg, t, ExpiredHosts(t.hosts, now));
    OriginHostPeer(cfg, t1);
    DropOk(cfg, t1, {}, ExpiredDiscoveries(t1.discoveries, now), ExpiredSessions(t1.gameplay, now));
  }

  lemma UnknownPeerHasNoHosts(cfg: RouterConfig, t: Tables, peer: PeerId)
    requires Inv(cfg, t) && peer !in t.peers
    ensures HostsBy(t.hosts, {peer}) == {} && DiscoveriesBy(t.discoveries, {peer}) == {}
  {
    hide Inv;
    InvRoutes(cfg, t);
    assert forall h :: h in t.hosts ==> IsMember(t.peers, t.hosts[h].room, t.hosts[h].peer, t.hosts[h].ip);
    assert forall d :: d in t.discoveries ==> InRoom(t.peers, t.discoveries[d].room, t.discoveries[d].client);
  }

  lemma UnknownPeerHasNoSessions(cfg: RouterConfig, t: Tables, peer: PeerId)
    requires Inv(cfg, t) && peer !in t.peers
    ensures SessionsBy(t.gameplay, {peer}) == {}
  {
    hide Inv;
    OriginHostPeer(cfg, t);
    UnknownPeerHasNoHosts(cfg, t, peer);
    forall g | g in t.gameplay
      ensures t.gameplay[g].client != peer && t.gameplay[g].hostPeer != peer
    {
      assert t.origin[g] !in HostsBy(t.hosts, {peer});
      InvRoutes(cfg, t);
      assert IsMember(t.peers, t.gameplay[g].room, t.gameplay[g].client, t.gameplay[g].clientIp);
    }
  }

  lemma UnknownPeerRoutes(cfg: RouterConfig, t: Tables, peer: PeerId)
    requires Inv(cfg, t) && peer !in t.peers
    ensures WithoutRoutesOf(t, {peer}) == t
  {
    hide Inv;
    UnknownPeerHasNoHosts(cfg, t, peer);
    UnknownPeerHasNoSessions(cfg, t, peer);
  }

  lemma UnknownPeerSuspended(cfg: RouterConfig, t: Tables, peer: PeerId, now: Time)
    requires Inv(cfg, t) && peer !in t.peers
    ensures Suspend(t, {peer}, now) == t
  {
    hide Inv;
    UnknownPeerRoutes(cfg, t, peer);
    assert Suspended(t.peers, {peer}, now) == t.peers;
  }

  lemma UnknownPeerEvicted(cfg: RouterConfig, t: Tables, peer: PeerId)
    requires Inv(cfg, t) && peer !in t.peers
    ensures Evict(t, {peer}) == t
  {
    hide Inv;
    UnknownPeerRoutes(cfg, t, peer);
    assert t.peers - {peer} == t.peers;
  }

  lemma SuspendingDropsRoutes(cfg: RouterConfig, t: Tables, peer: PeerId, now: Time)
    requires Inv(cfg, t) && peer in t.peers
    ensures var t0 := t.(peers := t.peers[peer := t.peers[peer].(disconnectedAt := Some(now))]);
            var t1 := WithoutHosts(t0, HostsBy(t.hosts, {peer}));
            Drop(t1, {}, DiscoveriesBy(t1.discoveries, {peer}), SessionsBy(t1.gameplay, {peer})) == Suspend(t, {peer}, now)
  {
    hide Inv;
    var peers := t.peers[peer := t.peers[peer].(disconnectedAt := Some(now))];
    var t0 := t.(peers := peers);
    var gone := HostsBy(t.hosts, {peer});
    var t1 := WithoutHosts(t0, gone);
    assert peers == Suspended(t.peers, {peer}, now);
    OriginHostPeer(cfg, t);
    assert SessionsFrom(t.gameplay, t.origin, gone) + SessionsBy(t1.gameplay, {peer}) == SessionsBy(t.gameplay, {peer});
    DroppedTwice(t0, gone, {}, {}, DiscoveriesBy(t.discoveries, {peer}),
                 SessionsFrom(t.gameplay, t.origin, gone), SessionsBy(t1.gameplay, {peer}));
    assert gone + {} == gone && {} + DiscoveriesBy(t.discoveries, {peer}) == DiscoveriesBy(t.discoveries, {peer});
    assert t1.discoveries == t.discoveries;
  }

  function LeasesDropped(t: Tables, now: Time): Tables {
    var t1 := WithoutHosts(t, ExpiredHosts(t.hosts, now));
    Drop(t1, {}, ExpiredDiscoveries(t1.discoveries, now), ExpiredSessions(t1.gameplay, now))
  }

  function AllPasses(cfg: RouterConfig, t: Tables, now: Time): Tables {
    var t2 := LeasesDropped(t, now);
    var t3 := Suspend(t2, StalePeers(cfg, t2.peers, now), now);
    Evict(t3, PeersBeyondGrace(cfg, t3.peers, now))
  }

  /** A peer loses its routes when it is stale, or when its grace is over once the stale are suspended. */
  lemma LosesRoutes(cfg: RouterConfig, peers: Peers, now: Time, peer: PeerId)
    requires peer in peers
    ensures var stale := StalePeers(cfg, peers, now);
            !KeepsRoutes(cfg, peers, peer, now)
            <==> peer in stale || peer in PeersBeyondGrace(cfg, Suspended(peers, stale, now), now)
  {
  }

  lemma SweptHosts(cfg: RouterConfig, t: Tables, now: Time)
    requires Inv(cfg, t)
    ensures var stale := StalePeers(cfg, t.peers, now);
            var over := PeersBeyondGrace(cfg, Suspended(t.peers, stale, now), now);
            var h1 := t.hosts - ExpiredHosts(t.hosts, now);
            var h3 := h1 - HostsBy(h1, stale);
            h3 - HostsBy(h3, over) == t.hosts - LostHosts(cfg, t, now)
  {
    hide Inv;
    forall h | h in t.hosts
      ensures t.hosts[h].peer in t.peers
    {
      InvRoutes(cfg, t);
      assert IsMember(t.peers, t.hosts[h].room, t.hosts[h].peer, t.hosts[h].ip);
    }
    forall p | p in t.peers { LosesRoutes(cfg, t.peers, now, p); }
  }

  lemma SweptDiscoveries(cfg: RouterConfig, t: Tables, now: Time)
    requires Inv(cfg, t)
    ensures var stale := StalePeers(cfg, t.peers, now);
            var over := PeersBeyondGrace(cfg, Suspended(t.peers, stale, now), now);
            var d2 := t.discoveries - ExpiredDiscoveries(t.discoveries, now);
            var d3 := d2 - DiscoveriesBy(d2, stale);
            d3 - DiscoveriesBy(d3, over) == t.discoveries - LostDiscoveries(cfg, t, now)
  {
    hide Inv;
    forall d | d in t.discoveries
      ensures t.discoveries[d].client in t.peers
    {
      InvRoutes(cfg, t);
      assert InRoom(t.peers, t.discoveries[d].room, t.discoveries[d].client);
    }
    forall p | p in t.peers { LosesRoutes(cfg, t.peers, now, p); }
  }

  /** A gameplay session is lost in one of the passes exactly when it does not pass the filter. */
  lemma SweptSession(cfg: RouterConfig, t: Tables, now: Time, g: GameplaySessionId)
    requires Inv(cfg, t) && g in t.gameplay
    ensures g in t.origin && t.origin[g] in t.hosts
    ensures var stale := StalePeers(cfg, t.peers, now);
            var over := PeersBeyondGrace(cfg, Suspended(t.peers, stale, now), now);
            KeepsGameplay(cfg, t, g, now)
            <==> t.origin[g] !in ExpiredHosts(t.hosts, now) && t.gameplay[g].expiresAt > now
                 && t.gameplay[g].client !in stale && t.gameplay[g].hostPeer !in stale
                 && t.gameplay[g].client !in over && t.gameplay[g].hostPeer !in over
  {
    hide Inv;
    OriginHostPeer(cfg, t);
    var host := t.hosts[t.origin[g]];
    assert host.peer in t.peers && t.gameplay[g].client in t.peers by {
      InvRoutes(cfg, t);
      assert IsMember(t.peers, host.room, host.peer, host.ip);
      assert IsMember(t.peers, t.gameplay[g].room, t.gameplay[g].client, t.gameplay[g].clientIp);
    }
    LosesRoutes(cfg, t.peers, now, host.peer);
    LosesRoutes(cfg, t.peers, now, t.gameplay[g].client);
  }

  /** All that the passes take from the gameplay table. */
  function TakenSessions(cfg: RouterConfig, t: Tables, now: Time): set<GameplaySessionId> {
    var stale := StalePeers(cfg, t.peers, now);
    var over := PeersBeyondGrace(cfg, Suspended(t.peers, stale, now), now);
    var s1 := SessionsFrom(t.gameplay, t.origin, ExpiredHosts(t.hosts, now));
    var s2 := s1 + ExpiredSessions(t.gameplay - s1, now);
    var s3 := s2 + SessionsBy(t.gameplay - s2, stale);
    s3 + SessionsBy(t.gameplay - s3, over)
  }

  lemma TakenAreLost(cfg: RouterConfig, t: Tables, now: Time)
    requires Inv(cfg, t)
    ensures TakenSessions(cfg, t, now) == LostSessions(cfg, t, now)
  {
    hide Inv;
    forall g | g in t.gameplay { SweptSession(cfg, t, now, g); }
  }

  lemma SweptPeersAgree(cfg: RouterConfig, peers: Peers, now: Time)
    ensures var suspended := Suspended(peers, StalePeers(cfg, peers, now), now);
            suspended - PeersBeyondGrace(cfg, suspended, now) == SweptPeers(cfg, peers, now)
  {
  }

  lemma PassesOverSessions(cfg: RouterConfig, t: Tables, now: Time)
    ensures AllPasses(cfg, t, now).gameplay == t.gameplay - TakenSessions(cfg, t, now)
    ensures AllPasses(cfg, t, now).origin == t.origin - TakenSessions(cfg, t, now)
  {
    var stale := StalePeers(cfg, t.peers, now);
    var over := PeersBeyondGrace(cfg, Suspended(t.peers, stale, now), now);
    var t2 := LeasesDropped(t, now);
    var s1 := SessionsFrom(t.gameplay, t.origin, ExpiredHosts(t.hosts, now));
    var s2 := s1 + ExpiredSessions(t.gameplay - s1, now);
    var s3 := s2 + SessionsBy(t.gameplay - s2, stale);
    assert t2.gameplay == t.gameplay - s2 && t2.origin == t.origin - s2;
    assert t2.gameplay - SessionsBy(t2.gameplay, stale) == t.gameplay - s3;
    assert t2.origin - SessionsBy(t2.gameplay, stale) == t.origin - s3;
    assert t.gameplay - s3 - SessionsBy(t.gameplay - s3, over) == t.gameplay - (s3 + SessionsBy(t.gameplay - s3, over));
    assert t.origin - s3 - SessionsBy(t.gameplay - s3, over) == t.origin - (s3 + SessionsBy(t.gameplay - s3, over));
  }

  lemma PassesOverLeases(cfg: RouterConfig, t: Tables, now: Time)
    ensures var stale := StalePeers(cfg, t.peers, now);
            var over := PeersBeyondGrace(cfg, Suspended(t.peers, stale, now), now);
            var h1 := t.hosts - ExpiredHosts(t.hosts, now);
            var h3 := h1 - HostsBy(h1, stale);
            var d2 := t.discoveries - ExpiredDiscoveries(t.discoveries, now);
            var d3 := d2 - DiscoveriesBy(d2, stale);
            && AllPasses(cfg, t, now).hosts == h3 - HostsBy(h3, over)
            && AllPasses(cfg, t, now).discoveries == d3 - DiscoveriesBy(d3, over)
            && AllPasses(cfg, t, now).peers == Suspended(t.peers, stale, now) - over
            && AllPasses(cfg, t, now).rooms == t.rooms
  {
    assert t.discoveries - {} == t.discoveries;
    assert t.hosts - ExpiredHosts(t.hosts, now) - {} == t.hosts - ExpiredHosts(t.hosts, now);
  }

  /** The five passes of the sweep come to one filter. */
  lemma SweepPhases(cfg: RouterConfig, t: Tables, now: Time)
    requires Inv(cfg, t)
    ensures AllPasses(cfg, t, now) == Swept(cfg, t, now)
  {
    hide Inv;
    SweptHosts(cfg, t, now);
    SweptDiscoveries(cfg, t, now);
    TakenAreLost(cfg, t, now);
    SweptPeersAgree(cfg, t.peers, now);
    PassesOverSessions(cfg, t, now);
    PassesOverLeases(cfg, t, now);
  }

  lemma SweepCounts(cfg: RouterConfig, t: Tables, t1: Tables, now: Time)
    requires Inv(cfg, t) && t1 == WithoutHosts(t, ExpiredHosts(t.hosts, now))
    ensures SweepReport(t, now) == ExpirationReport(|ExpiredHosts(t.hosts, now)|, |ExpiredDiscoveries(t1.discoveries, now)|,
                                                    |ExpiredSessions(t1.gameplay, now)|)
  {
    hide Inv;
    OriginHostPeer(cfg, t);
    assert t1.discoveries == t.discoveries;
    assert ExpiredSessions(t1.gameplay, now)
           == set g | g in t.gameplay && g in t.origin && t.origin[g] !in ExpiredHosts(t.hosts, now) && t.gameplay[g].expiresAt <= now;
  }
}
