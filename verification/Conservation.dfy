/** The per-room counters add up to the tables, and what the limits guarantee. */
module Conservation {
  import opened Protocol
  import opened Sets
  import opened RouterTables
  import opened RouterInvariant
  import opened RouterIndexes

  function Preimage<K, R(==)>(m: map<K, R>, r: R): set<K> {
    set k | k in m && m[k] == r
  }

  ghost function PreimageSize<K(!new), R(!new)>(m: map<K, R>): R -> nat {
    r => |Preimage(m, r)|
  }

  /** Counting the entries class by class counts each of them once. */
  lemma {:induction false} SumOfPreimages<K(!new), R(!new)>(m: map<K, R>, classes: set<R>)
    ensures Sum(classes, PreimageSize(m)) == |set k | k in m && m[k] in classes|
    decreases classes
  {
    if classes == {} {
      assert (set k | k in m && m[k] in classes) == {};
    } else {
      var r :| r in classes;
      var rest := classes - {r};
      SumRemove(classes, PreimageSize(m), r);
      SumOfPreimages(m, rest);
      assert (set k | k in m && m[k] in classes) == Preimage(m, r) + (set k | k in m && m[k] in rest);
    }
  }

  lemma {:induction false} SumCongruent<T(!new)>(s: set<T>, f: T -> nat, g: T -> nat)
    requires forall x :: x in s ==> f(x) == g(x)
    ensures Sum(s, f) == Sum(s, g)
    decreases s
  {
    if s != {} {
      var x :| x in s;
      SumRemove(s, f, x);
      SumRemove(s, g, x);
      SumCongruent(s - {x}, f, g);
    }
  }

  function RoomOfPeers(peers: Peers): map<PeerId, RoomId> {
    map p | p in peers :: peers[p].room
  }

  function RoomOfHosts(hosts: Hosts): map<HostSessionId, RoomId> {
    map h | h in hosts :: hosts[h].room
  }

  /** The member counters that room snapshots report, and the host counters next to them. */
  function MemberCount(rooms: RoomStates): RoomId -> nat {
    r => if r in rooms then |rooms[r].members| else 0
  }

  function HostCount(rooms: RoomStates): RoomId -> nat {
    r => if r in rooms then |rooms[r].hostSessions| else 0
  }

  /** No member is counted in two rooms, and none is missing. */
  lemma MembersAddUp(cfg: RouterConfig, t: Tables, st: Store)
    requires Inv(cfg, t) && Indexed(st) && st.peers == t.peers && st.rooms.Keys == t.rooms.Keys
    ensures Sum(t.rooms.Keys, MemberCount(st.rooms)) == |t.peers|
  {
    hide Inv, Indexed;
    InvPeers(cfg, t);
    var m := RoomOfPeers(t.peers);
    SumOfPreimages(m, t.rooms.Keys);
    assert (set p | p in m && m[p] in t.rooms.Keys) == t.peers.Keys;
    forall r | r in t.rooms.Keys
      ensures MemberCount(st.rooms)(r) == PreimageSize(m)(r)
    {
      RoomMembers(st, r);
      assert Preimage(m, r) == Members(t.peers, r);
    }
    SumCongruent(t.rooms.Keys, MemberCount(st.rooms), PreimageSize(m));
  }

  lemma HostsAddUp(cfg: RouterConfig, t: Tables, st: Store)
    requires Inv(cfg, t) && Indexed(st) && st.hosts == t.hosts && st.rooms.Keys == t.rooms.Keys
    ensures Sum(t.rooms.Keys, HostCount(st.rooms)) == |t.hosts|
  {
    hide Inv, Indexed;
    var m := RoomOfHosts(t.hosts);
    SumOfPreimages(m, t.rooms.Keys);
    forall h | h in t.hosts
      ensures t.hosts[h].room in t.rooms
    {
      HostHasRoom(cfg, t, h);
    }
    assert (set h | h in m && m[h] in t.rooms.Keys) == t.hosts.Keys;
    forall r | r in t.rooms.Keys
      ensures HostCount(st.rooms)(r) == PreimageSize(m)(r)
    {
      RoomMembers(st, r);
      assert Preimage(m, r) == HostSessions(t.hosts, r);
    }
    SumCongruent(t.rooms.Keys, HostCount(st.rooms), PreimageSize(m));
  }

  // ---------------------------------------------------------------- limits

  lemma MembersBelow(cfg: RouterConfig, t: Tables, room: RoomId)
    requires Inv(cfg, t) && room in t.rooms
    ensures |Members(t.peers, room)| <= cfg.maxPeersPerRoom && |HostSessions(t.hosts, room)| <= cfg.maxHostsPerRoom
  {
    hide Inv;
    Open(cfg, t);
  }

  /** Whoever holds a host session, live or expired, can register again: the limit never stops it. */
  lemma OwnerAlwaysReregisters(cfg: RouterConfig, t: Tables, room: RoomId, peer: PeerId, newId: HostSessionId, now: Time)
    requires Inv(cfg, t) && InRoom(t.peers, room, peer) && SessionsOf(t.hosts, room, peer) != {}
    ensures RegisterHost(cfg, t, room, peer, newId, now).result.Ok?
  {
    hide Inv;
    PeerLeaseOk(cfg, t, peer);
    MembersBelow(cfg, t, room);
    var gone := SessionsOf(t.hosts, room, peer);
    assert peer in Members(t.peers, room);
    assert HostSessions(t.hosts, room) == gone + HostSessions(WithoutHosts(t, gone).hosts, room);
    assert |gone| > 0;
  }

  /** Registering fails exactly for strangers, and for members without a session once the room is full. */
  lemma RegisterSucceedsExactly(cfg: RouterConfig, t: Tables, room: RoomId, peer: PeerId, newId: HostSessionId, now: Time)
    requires Inv(cfg, t)
    ensures RegisterHost(cfg, t, room, peer, newId, now).result.Ok?
            <==> InRoom(t.peers, room, peer)
                 && (SessionsOf(t.hosts, room, peer) != {} || |HostSessions(t.hosts, room)| < cfg.maxHostsPerRoom)
  {
    hide Inv;
    if InRoom(t.peers, room, peer) {
      PeerLeaseOk(cfg, t, peer);
      assert peer in Members(t.peers, room);
      if SessionsOf(t.hosts, room, peer) != {} {
        OwnerAlwaysReregisters(cfg, t, room, peer, newId, now);
      } else {
        NoneLeft(cfg, t, room, peer);
        assert forall h :: !LiveSession(t, h, room, peer, now);
      }
    } else {
      assert peer !in Members(t.peers, room);
    }
  }

  /** A fan-out lists each live host session of the requester's room exactly once, and no other. */
  lemma FanoutIsEachLiveHostOnce(cfg: RouterConfig, t: Tables, room: RoomId, client: PeerId, request: DiscoveryRequestId,
                                 port: U16, now: Time, targets: seq<DiscoveryTarget>)
    requires Inv(cfg, t)
    requires var result := BeginDiscovery(cfg, t, room, client, request, port, now).result;
             result.Ok? && Lists(targets, result.value)
    ensures forall i :: 0 <= i < |targets| ==>
              && targets[i].host in t.hosts && t.hosts[targets[i].host].room == room && t.hosts[targets[i].host].expiresAt > now
              && IsMember(t.peers, room, targets[i].peer, targets[i].ip)
    ensures forall i, j :: 0 <= i < j < |targets| ==> targets[i].host != targets[j].host && targets[i].ip != targets[j].ip
    ensures forall h :: h in t.hosts && t.hosts[h].room == room && t.hosts[h].expiresAt > now
                        ==> DiscoveryTarget(h, t.hosts[h].peer, t.hosts[h].ip) in targets
  {
    hide Inv;
    forall i | 0 <= i < |targets|
      ensures targets[i].host in t.hosts && t.hosts[targets[i].host].room == room && t.hosts[targets[i].host].expiresAt > now
      ensures targets[i] == DiscoveryTarget(targets[i].host, t.hosts[targets[i].host].peer, t.hosts[targets[i].host].ip)
      ensures IsMember(t.peers, room, targets[i].peer, targets[i].ip)
    {
      assert targets[i] in LiveTargets(t.hosts, room, now);
      HostIsMember(cfg, t, targets[i].host);
    }
    forall i, j | 0 <= i < j < |targets|
      ensures targets[i].host != targets[j].host && targets[i].ip != targets[j].ip
    {
      assert targets[i] != targets[j];
      DistinctHostsDiffer(cfg, t, targets[i].host, targets[j].host);
    }
  }

  lemma HostIsMember(cfg: RouterConfig, t: Tables, h: HostSessionId)
    requires Inv(cfg, t) && h in t.hosts
    ensures IsMember(t.peers, t.hosts[h].room, t.hosts[h].peer, t.hosts[h].ip)
  {
    hide Inv;
    InvRoutes(cfg, t);
  }

  lemma DistinctHostsDiffer(cfg: RouterConfig, t: Tables, h: HostSessionId, k: HostSessionId)
    requires Inv(cfg, t) && h in t.hosts && k in t.hosts && h != k
    ensures t.hosts[h].peer != t.hosts[k].peer && t.hosts[h].ip != t.hosts[k].ip
  {
    hide Inv;
    HostIsMember(cfg, t, h);
    HostIsMember(cfg, t, k);
    InvRoutes(cfg, t);
    InvPeers(cfg, t);
    assert t.peers[t.hosts[h].peer].ip == t.hosts[h].ip;
  }
}
