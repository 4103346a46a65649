/** The redundant indexes of the router and what they answer: exactly what a full scan of the primary
    tables would. One lemma for each way the router updates an index. */
module RouterIndexes {
  import opened Protocol
  import opened RouterTables
  import opened RouterInvariant

  datatype RoomState = RoomState(code: RoomCode, members: set<PeerId>, hostSessions: set<HostSessionId>)

  type RoomStates = map<RoomId, RoomState>
  type CodeMap = map<RoomCode, RoomId>
  type IpMap = map<VirtualIp, PeerId>
  type HostByPeer = map<(RoomId, PeerId), HostSessionId>

  // ---------------------------------------------------------------- what the indexes answer

  function Codes(rooms: RoomStates): (codes: Rooms)
    ensures codes.Keys == rooms.Keys
  {
    map r | r in rooms :: rooms[r].code
  }

  ghost predicate CodeIndex(rooms: RoomStates, roomsByCode: CodeMap) {
    && (forall r :: r in rooms ==> rooms[r].code in roomsByCode && roomsByCode[rooms[r].code] == r)
    && (forall c :: c in roomsByCode ==> roomsByCode[c] in rooms && rooms[roomsByCode[c]].code == c)
  }

  ghost predicate IpIndex(peers: Peers, virtualIps: IpMap) {
    && (forall p :: p in peers ==> peers[p].ip in virtualIps && virtualIps[peers[p].ip] == p)
    && (forall ip :: ip in virtualIps ==> HasIp(peers, virtualIps[ip], ip))
  }

  ghost predicate MemberIndex(rooms: RoomStates, peers: Peers) {
    forall r :: r in rooms ==> rooms[r].members == Members(peers, r)
  }

  ghost predicate HostIndex(rooms: RoomStates, hosts: Hosts) {
    forall r :: r in rooms ==> rooms[r].hostSessions == HostSessions(hosts, r)
  }

  ghost predicate HostByPeerIndex(hosts: Hosts, hostByPeer: HostByPeer) {
    && (forall h :: h in hosts ==> (hosts[h].room, hosts[h].peer) in hostByPeer && hostByPeer[(hosts[h].room, hosts[h].peer)] == h)
    && (forall k :: k in hostByPeer ==> hostByPeer[k] in SessionsOf(hosts, k.0, k.1))
  }

  /** The fields that have to agree with each other. */
  datatype Store = Store(rooms: RoomStates, roomsByCode: CodeMap, peers: Peers, virtualIps: IpMap, hosts: Hosts, hostByPeer: HostByPeer)

  ghost predicate IndexesAgree(st: Store) {
    && CodeIndex(st.rooms, st.roomsByCode)
    && IpIndex(st.peers, st.virtualIps)
    && MemberIndex(st.rooms, st.peers)
    && HostIndex(st.rooms, st.hosts)
    && HostByPeerIndex(st.hosts, st.hostByPeer)
  }

  /** `IndexesAgree`, under a name that proofs hide until they call `OpenIndexes`. */
  ghost predicate Indexed(st: Store) {
    IndexesAgree(st)
  }

  lemma OpenIndexes(st: Store)
    requires Indexed(st)
    ensures IndexesAgree(st)
  {
    hide IndexesAgree;
  }

  lemma CloseIndexes(st: Store)
    requires IndexesAgree(st)
    ensures Indexed(st)
  {
    hide IndexesAgree;
  }

  // ---------------------------------------------------------------- how the indexes follow the tables

  lemma CodesSize(rooms: RoomStates)
    ensures |Codes(rooms)| == |rooms|
  {
  }

  lemma CodeAnswers(st: Store, code: RoomCode)
    requires Indexed(st)
    ensures code in st.roomsByCode ==> st.roomsByCode[code] in st.rooms && Codes(st.rooms)[st.roomsByCode[code]] == code
    ensures code in st.roomsByCode <==> CodeTaken(Codes(st.rooms), code)
  {
    hide Indexed;
    OpenIndexes(st);
    if code in st.roomsByCode {
      assert Codes(st.rooms)[st.roomsByCode[code]] == code;
    }
  }

  function WithRoom(st: Store, room: RoomId, code: RoomCode): Store {
    st.(rooms := st.rooms[room := RoomState(code, {}, {})], roomsByCode := st.roomsByCode[code := room])
  }

  lemma AddRoomCode(rooms: RoomStates, roomsByCode: CodeMap, room: RoomId, code: RoomCode)
    requires CodeIndex(rooms, roomsByCode) && room !in rooms && code !in roomsByCode
    ensures CodeIndex(rooms[room := RoomState(code, {}, {})], roomsByCode[code := room])
    ensures Codes(rooms[room := RoomState(code, {}, {})]) == Codes(rooms)[room := code]
  {
  }

  lemma AddRoomLists(rooms: RoomStates, peers: Peers, hosts: Hosts, room: RoomId, code: RoomCode)
    requires MemberIndex(rooms, peers) && HostIndex(rooms, hosts)
    requires Members(peers, room) == {} && HostSessions(hosts, room) == {}
    ensures MemberIndex(rooms[room := RoomState(code, {}, {})], peers) && HostIndex(rooms[room := RoomState(code, {}, {})], hosts)
  {
    hide Members, HostSessions;
  }

  lemma AddRoomStore(st: Store, room: RoomId, code: RoomCode)
    requires Indexed(st) && room !in st.rooms && code !in st.roomsByCode
    requires Members(st.peers, room) == {} && HostSessions(st.hosts, room) == {}
    ensures Indexed(WithRoom(st, room, code)) && Codes(WithRoom(st, room, code).rooms) == Codes(st.rooms)[room := code]
  {
    hide Indexed, CodeIndex, IpIndex, MemberIndex, HostIndex, HostByPeerIndex, Members, HostSessions, Codes;
    OpenIndexes(st);
    AddRoomCode(st.rooms, st.roomsByCode, room, code);
    AddRoomLists(st.rooms, st.peers, st.hosts, room, code);
    CloseIndexes(WithRoom(st, room, code));
  }

  function WithoutRoom(st: Store, room: RoomId): Store
    requires room in st.rooms
  {
    st.(rooms := st.rooms - {room}, roomsByCode := st.roomsByCode - {st.rooms[room].code})
  }

  lemma DropRoomStore(st: Store, room: RoomId)
    requires Indexed(st) && room in st.rooms
    ensures Indexed(WithoutRoom(st, room)) && Codes(WithoutRoom(st, room).rooms) == Codes(st.rooms) - {room}
  {
    hide Indexed;
    OpenIndexes(st);
    CloseIndexes(WithoutRoom(st, room));
  }

  /** Changing only who is in a room. */
  function WithMembers(rooms: RoomStates, room: RoomId, members: set<PeerId>): RoomStates
    requires room in rooms
  {
    rooms[room := rooms[room].(members := members)]
  }

  lemma MembersIndexes(rooms: RoomStates, roomsByCode: CodeMap, hosts: Hosts, room: RoomId, members: set<PeerId>)
    requires CodeIndex(rooms, roomsByCode) && HostIndex(rooms, hosts) && room in rooms
    ensures var rooms' := WithMembers(rooms, room, members);
            CodeIndex(rooms', roomsByCode) && HostIndex(rooms', hosts) && Codes(rooms') == Codes(rooms)
  {
  }

  lemma AddPeerIndexes(rooms: RoomStates, peers: Peers, virtualIps: IpMap, peer: PeerId, p: Peer)
    requires IpIndex(peers, virtualIps) && MemberIndex(rooms, peers)
    requires peer !in peers && p.ip !in virtualIps && p.room in rooms
    ensures IpIndex(peers[peer := p], virtualIps[p.ip := peer])
    ensures MemberIndex(WithMembers(rooms, p.room, rooms[p.room].members + {peer}), peers[peer := p])
  {
  }

  lemma DropPeerIndexes(rooms: RoomStates, peers: Peers, virtualIps: IpMap, peer: PeerId)
    requires IpIndex(peers, virtualIps) && MemberIndex(rooms, peers)
    requires peer in peers && peers[peer].room in rooms
    ensures IpIndex(peers - {peer}, virtualIps - {peers[peer].ip})
    ensures var room := peers[peer].room;
            MemberIndex(WithMembers(rooms, room, rooms[room].members - {peer}), peers - {peer})
  {
  }

  lemma RoomMembers(st: Store, room: RoomId)
    requires Indexed(st) && room in st.rooms
    ensures st.rooms[room].members == Members(st.peers, room)
    ensures st.rooms[room].hostSessions == HostSessions(st.hosts, room)
  {
    hide Indexed;
    OpenIndexes(st);
  }

  function WithoutPeer(st: Store, peer: PeerId): Store
    requires peer in st.peers && st.peers[peer].room in st.rooms
  {
    var p := st.peers[peer];
    st.(peers := st.peers - {peer}, virtualIps := st.virtualIps - {p.ip},
        rooms := WithMembers(st.rooms, p.room, st.rooms[p.room].members - {peer}))
  }

  lemma DropPeerStore(st: Store, peer: PeerId)
    requires Indexed(st) && peer in st.peers && st.peers[peer].room in st.rooms
    ensures Indexed(WithoutPeer(st, peer)) && Codes(WithoutPeer(st, peer).rooms) == Codes(st.rooms)
  {
    hide Indexed;
    OpenIndexes(st);
    var room := st.peers[peer].room;
    DropPeerIndexes(st.rooms, st.peers, st.virtualIps, peer);
    MembersIndexes(st.rooms, st.roomsByCode, st.hosts, room, st.rooms[room].members - {peer});
    CloseIndexes(WithoutPeer(st, peer));
  }

  function WithPeer(st: Store, peer: PeerId, p: Peer): Store
    requires p.room in st.rooms
  {
    st.(peers := st.peers[peer := p], virtualIps := st.virtualIps[p.ip := peer],
        rooms := WithMembers(st.rooms, p.room, st.rooms[p.room].members + {peer}))
  }

  lemma AddPeerStore(st: Store, peer: PeerId, p: Peer)
    requires Indexed(st) && peer !in st.peers && p.ip !in st.virtualIps && p.room in st.rooms
    ensures Indexed(WithPeer(st, peer, p)) && Codes(WithPeer(st, peer, p).rooms) == Codes(st.rooms)
  {
    hide Indexed;
    OpenIndexes(st);
    AddPeerIndexes(st.rooms, st.peers, st.virtualIps, peer, p);
    MembersIndexes(st.rooms, st.roomsByCode, st.hosts, p.room, st.rooms[p.room].members + {peer});
    CloseIndexes(WithPeer(st, peer, p));
  }

  lemma TouchPeerStore(st: Store, peer: PeerId, p: Peer)
    requires Indexed(st) && IsMember(st.peers, p.room, peer, p.ip)
    ensures Indexed(st.(peers := st.peers[peer := p]))
  {
    hide Indexed;
    OpenIndexes(st);
    assert forall r :: Members(st.peers[peer := p], r) == Members(st.peers, r);
    CloseIndexes(st.(peers := st.peers[peer := p]));
  }

  lemma IpAnswers(st: Store, ip: VirtualIp)
    requires Indexed(st)
    ensures ip in st.virtualIps <==> IpTaken(st.peers, ip)
    ensures PeerWithIp(st.peers, ip) == if ip in st.virtualIps then Some(st.virtualIps[ip]) else None
  {
    hide Indexed;
    OpenIndexes(st);
    if ip in st.virtualIps {
      assert HasIp(st.peers, st.virtualIps[ip], ip);
    }
  }

  function WithSessions(rooms: RoomStates, room: RoomId, sessions: set<HostSessionId>): RoomStates
    requires room in rooms
  {
    rooms[room := rooms[room].(hostSessions := sessions)]
  }

  lemma SessionsIndexes(rooms: RoomStates, roomsByCode: CodeMap, peers: Peers, room: RoomId, sessions: set<HostSessionId>)
    requires CodeIndex(rooms, roomsByCode) && MemberIndex(rooms, peers) && room in rooms
    ensures var rooms' := WithSessions(rooms, room, sessions);
            CodeIndex(rooms', roomsByCode) && MemberIndex(rooms', peers) && Codes(rooms') == Codes(rooms)
  {
  }

  lemma DropHostIndexes(rooms: RoomStates, hosts: Hosts, hostByPeer: HostByPeer, id: HostSessionId)
    requires HostIndex(rooms, hosts) && HostByPeerIndex(hosts, hostByPeer) && id in hosts && hosts[id].room in rooms
    ensures var h := hosts[id];
            && HostIndex(WithSessions(rooms, h.room, rooms[h.room].hostSessions - {id}), hosts - {id})
            && HostByPeerIndex(hosts - {id}, hostByPeer - {(h.room, h.peer)})
  {
  }

  lemma AddHostIndexes(rooms: RoomStates, hosts: Hosts, hostByPeer: HostByPeer, id: HostSessionId, h: Host)
    requires HostIndex(rooms, hosts) && HostByPeerIndex(hosts, hostByPeer) && id !in hosts && h.room in rooms
    requires (h.room, h.peer) !in hostByPeer
    ensures HostIndex(WithSessions(rooms, h.room, rooms[h.room].hostSessions + {id}), hosts[id := h])
    ensures HostByPeerIndex(hosts[id := h], hostByPeer[(h.room, h.peer) := id])
  {
  }

  function WithHost(st: Store, id: HostSessionId, h: Host): Store
    requires h.room in st.rooms
  {
    st.(hosts := st.hosts[id := h], hostByPeer := st.hostByPeer[(h.room, h.peer) := id],
        rooms := WithSessions(st.rooms, h.room, st.rooms[h.room].hostSessions + {id}))
  }

  lemma AddHostStore(st: Store, id: HostSessionId, h: Host)
    requires Indexed(st) && id !in st.hosts && h.room in st.rooms && (h.room, h.peer) !in st.hostByPeer
    ensures Indexed(WithHost(st, id, h)) && Codes(WithHost(st, id, h).rooms) == Codes(st.rooms)
  {
    hide Indexed;
    OpenIndexes(st);
    AddHostIndexes(st.rooms, st.hosts, st.hostByPeer, id, h);
    SessionsIndexes(st.rooms, st.roomsByCode, st.peers, h.room, st.rooms[h.room].hostSessions + {id});
    CloseIndexes(WithHost(st, id, h));
  }

  lemma TouchHostStore(st: Store, id: HostSessionId, h: Host)
    requires Indexed(st) && id in st.hosts && SameHost(st.hosts[id], h)
    ensures Indexed(st.(hosts := st.hosts[id := h]))
  {
    hide Indexed;
    OpenIndexes(st);
    assert forall r :: HostSessions(st.hosts[id := h], r) == HostSessions(st.hosts, r);
    forall k | k in st.hostByPeer
      ensures st.hostByPeer[k] in SessionsOf(st.hosts[id := h], k.0, k.1)
    {
      assert st.hostByPeer[k] in SessionsOf(st.hosts, k.0, k.1);
    }
    CloseIndexes(st.(hosts := st.hosts[id := h]));
  }

  /** The index entry of a room and peer is all of their host sessions. */
  lemma HostByPeerAnswers(st: Store, room: RoomId, peer: PeerId)
    requires Indexed(st)
    ensures SessionsOf(st.hosts, room, peer) == if (room, peer) in st.hostByPeer then {st.hostByPeer[(room, peer)]} else {}
  {
    hide Indexed;
    OpenIndexes(st);
  }

  lemma HostHasRoom(cfg: RouterConfig, t: Tables, id: HostSessionId)
    requires Inv(cfg, t) && id in t.hosts
    ensures t.hosts[id].room in t.rooms
  {
    hide Inv;
    InvRoutes(cfg, t);
    InvPeers(cfg, t);
    assert IsMember(t.peers, t.hosts[id].room, t.hosts[id].peer, t.hosts[id].ip);
  }

  function WithoutHost(st: Store, id: HostSessionId): Store
    requires id in st.hosts && st.hosts[id].room in st.rooms
  {
    var h := st.hosts[id];
    st.(hosts := st.hosts - {id}, hostByPeer := st.hostByPeer - {(h.room, h.peer)},
        rooms := WithSessions(st.rooms, h.room, st.rooms[h.room].hostSessions - {id}))
  }

  lemma DropHostStore(st: Store, id: HostSessionId)
    requires Indexed(st) && id in st.hosts && st.hosts[id].room in st.rooms
    ensures Indexed(WithoutHost(st, id)) && Codes(WithoutHost(st, id).rooms) == Codes(st.rooms)
  {
    hide Indexed;
    OpenIndexes(st);
    var room := st.hosts[id].room;
    DropHostIndexes(st.rooms, st.hosts, st.hostByPeer, id);
    SessionsIndexes(st.rooms, st.roomsByCode, st.peers, room, st.rooms[room].hostSessions - {id});
    CloseIndexes(WithoutHost(st, id));
  }

  /** The sessions `remove_host` does not retain: the program matches on room and host peer. */
  function HostedBy(gameplay: Sessions, h: Host): set<GameplaySessionId> {
    set g | g in gameplay && gameplay[g].hostPeer == h.peer && gameplay[g].room == h.room
  }

  /** Matching room and host peer finds exactly the sessions created from that host session. */
  lemma SessionsMatchedByHost(cfg: RouterConfig, t: Tables, id: HostSessionId)
    requires Inv(cfg, t) && id in t.hosts
    ensures HostedBy(t.gameplay, t.hosts[id]) == SessionsFrom(t.gameplay, t.origin, {id})
  {
    hide Inv;
    InvRoutes(cfg, t);
    forall g | g in t.gameplay
      ensures t.origin[g] == id <==> t.gameplay[g].hostPeer == t.hosts[id].peer && t.gameplay[g].room == t.hosts[id].room
    {
      assert CameFrom(t.hosts, t.gameplay[g], t.origin[g]);
    }
  }

  function TargetsIn(hosts: Hosts, ids: set<HostSessionId>, now: Time): set<DiscoveryTarget> {
    set h | h in ids && h in hosts && hosts[h].expiresAt > now :: DiscoveryTarget(h, hosts[h].peer, hosts[h].ip)
  }

  /** With the indexed host session gone, the room and peer have none. */
  lemma NoneLeft(cfg: RouterConfig, t: Tables, room: RoomId, peer: PeerId)
    requires Inv(cfg, t)
    ensures SessionsOf(WithoutHosts(t, SessionsOf(t.hosts, room, peer)).hosts, room, peer) == {}
    ensures SessionsOf(t.hosts, room, peer) == {} ==> WithoutHosts(t, SessionsOf(t.hosts, room, peer)) == t
  {
    hide Inv;
  }

  lemma ListsOneMore<T(!new)>(list: seq<T>, elements: set<T>, x: T)
    requires Lists(list, elements) && x !in elements
    ensures Lists(list + [x], elements + {x})
  {
  }
}
