/** Rebuilding the router from the database after a restart (server/src/state.rs). */
module Restore {
  import opened Protocol
  import opened RouterTables
  import opened RouterInvariant

  type WireGuardKey = string

  datatype PersistedRoom = PersistedRoom(room: RoomId, code: RoomCode)
  datatype PersistedPeer = PersistedPeer(room: RoomId, peer: PeerId, ip: VirtualIp, key: WireGuardKey)

  function RestoreRooms(cfg: RouterConfig, t: Tables, rooms: seq<PersistedRoom>): Step<()> {
    if rooms == [] then Step(t, Ok(()))
    else
      var before, last := RestoreRooms(cfg, t, rooms[..|rooms| - 1]), rooms[|rooms| - 1];
      if before.result.Err? then before else CreateRoom(cfg, before.tables, last.room, last.code)
  }

  /** `clock` gives the time at which each peer is put back. */
  function RestorePeers(cfg: RouterConfig, t: Tables, peers: seq<PersistedPeer>, clock: nat -> Time): Step<()> {
    if peers == [] then Step(t, Ok(()))
    else
      var n := |peers| - 1;
      var before, last := RestorePeers(cfg, t, peers[..n], clock), peers[n];
      if before.result.Err? then before else JoinRoom(cfg, before.tables, last.room, last.peer, last.ip, clock(n))
  }

  function RestoreAll(cfg: RouterConfig, t: Tables, rooms: seq<PersistedRoom>, peers: seq<PersistedPeer>, clock: nat -> Time): Step<()> {
    var withRooms := RestoreRooms(cfg, t, rooms);
    if withRooms.result.Err? then withRooms else RestorePeers(cfg, withRooms.tables, peers, clock)
  }

  // The first failure ends it.

  lemma {:induction false} RoomsFailureSticks(cfg: RouterConfig, t: Tables, rooms: seq<PersistedRoom>, n: nat)
    requires n <= |rooms| && RestoreRooms(cfg, t, rooms[..n]).result.Err?
    ensures RestoreRooms(cfg, t, rooms) == RestoreRooms(cfg, t, rooms[..n])
  {
    hide CreateRoom;
    if n < |rooms| {
      var front := rooms[..|rooms| - 1];
      assert front[..n] == rooms[..n];
      RoomsFailureSticks(cfg, t, front, n);
    } else {
      assert rooms[..n] == rooms;
    }
  }

  lemma {:induction false} PeersFailureSticks(cfg: RouterConfig, t: Tables, peers: seq<PersistedPeer>, clock: nat -> Time, n: nat)
    requires n <= |peers| && RestorePeers(cfg, t, peers[..n], clock).result.Err?
    ensures RestorePeers(cfg, t, peers, clock) == RestorePeers(cfg, t, peers[..n], clock)
  {
    hide JoinRoom;
    if n < |peers| {
      var front := peers[..|peers| - 1];
      assert front[..n] == peers[..n];
      PeersFailureSticks(cfg, t, front, clock, n);
    } else {
      assert peers[..n] == peers;
    }
  }

  // ---------------------------------------------------------------- when it succeeds

  predicate RoomsConsistent(cfg: RouterConfig, rooms: seq<PersistedRoom>) {
    && |rooms| <= cfg.maxRooms
    && forall i, j :: 0 <= i < j < |rooms| ==> rooms[i].room != rooms[j].room && rooms[i].code != rooms[j].code
  }

  function RoomCount(peers: seq<PersistedPeer>, room: RoomId): nat {
    if peers == [] then 0
    else RoomCount(peers[..|peers| - 1], room) + (if peers[|peers| - 1].room == room then 1 else 0)
  }

  predicate HasRoom(rooms: seq<PersistedRoom>, room: RoomId) {
    exists i :: 0 <= i < |rooms| && rooms[i].room == room
  }

  ghost predicate PeersConsistent(cfg: RouterConfig, rooms: seq<PersistedRoom>, peers: seq<PersistedPeer>) {
    && |peers| <= cfg.maxTotalPeers
    && (forall i, j :: 0 <= i < j < |peers| ==> peers[i].peer != peers[j].peer && peers[i].ip != peers[j].ip)
    && (forall i :: 0 <= i < |peers| ==> HasRoom(rooms, peers[i].room))
    && (forall r :: HasRoom(rooms, r) ==> RoomCount(peers, r) <= cfg.maxPeersPerRoom)
  }

  /** The tables hold exactly the rooms of the snapshot. */
  ghost predicate SameRooms(t: Rooms, rooms: seq<PersistedRoom>) {
    && |t| == |rooms|
    && (forall r :: r in t ==> PersistedRoom(r, t[r]) in rooms)
    && (forall i :: 0 <= i < |rooms| ==> rooms[i].room in t && t[rooms[i].room] == rooms[i].code)
  }

  predicate IsRestored(p: Peer, snapshot: PersistedPeer, now: Time) {
    p == Peer(snapshot.room, snapshot.ip, now, None, 1)
  }

  predicate ComesFrom(peers: seq<PersistedPeer>, clock: nat -> Time, i: int, peer: PeerId, p: Peer) {
    0 <= i < |peers| && peers[i].peer == peer && IsRestored(p, peers[i], clock(i))
  }

  /** The tables hold exactly the peers of the snapshot, connected, each with epoch 1. */
  ghost predicate SamePeers(t: Peers, peers: seq<PersistedPeer>, clock: nat -> Time) {
    && |t| == |peers|
    && NobodyElse(t, peers, clock)
    && Everybody(t, peers, clock)
    && SameCounts(t, peers)
  }

  ghost predicate NobodyElse(t: Peers, peers: seq<PersistedPeer>, clock: nat -> Time) {
    forall p :: p in t ==> exists i :: ComesFrom(peers, clock, i, p, t[p])
  }

  ghost predicate Everybody(t: Peers, peers: seq<PersistedPeer>, clock: nat -> Time) {
    forall i :: 0 <= i < |peers| ==> peers[i].peer in t && IsRestored(t[peers[i].peer], peers[i], clock(i))
  }

  ghost predicate SameCounts(t: Peers, peers: seq<PersistedPeer>) {
    forall r :: |Members(t, r)| == RoomCount(peers, r)
  }

  lemma RoomsConsistentStep(cfg: RouterConfig, rooms: seq<PersistedRoom>)
    requires rooms != []
    ensures var n := |rooms| - 1;
            RoomsConsistent(cfg, rooms)
            <==> RoomsConsistent(cfg, rooms[..n]) && n < cfg.maxRooms
                 && forall i :: 0 <= i < n ==> rooms[i].room != rooms[n].room && rooms[i].code != rooms[n].code
  {
  }

  lemma AddedRoomIsSame(t: Rooms, rooms: seq<PersistedRoom>, room: RoomId, code: RoomCode)
    requires SameRooms(t, rooms) && room !in t
    ensures SameRooms(t[room := code], rooms + [PersistedRoom(room, code)])
  {
  }

  lemma NoRooms(cfg: RouterConfig)
    ensures RoomsConsistent(cfg, []) && SameRooms(map[], [])
  {
  }

  lemma {:induction false} RoomsRestoredExactly(cfg: RouterConfig, rooms: seq<PersistedRoom>)
    ensures var step := RestoreRooms(cfg, EMPTY, rooms);
            && (step.result.Ok? <==> RoomsConsistent(cfg, rooms))
            && step.tables == EMPTY.(rooms := step.tables.rooms)
            && (step.result.Ok? ==> SameRooms(step.tables.rooms, rooms))
  {
    hide CreateRoom, RoomsConsistent, SameRooms;
    if rooms == [] {
      NoRooms(cfg);
    } else {
      var n := |rooms| - 1;
      var t := RestoreRooms(cfg, EMPTY, rooms[..n]).tables;
      RoomsRestoredExactly(cfg, rooms[..n]);
      RoomsConsistentStep(cfg, rooms);
      assert forall i :: 0 <= i < n ==> rooms[..n][i] == rooms[i];
      if RoomsConsistent(cfg, rooms[..n]) {
        RoomAddedExactly(cfg, t, rooms[..n], rooms[n]);
        assert rooms[..n] + [rooms[n]] == rooms;
      }
    }
  }

  lemma RoomAddedExactly(cfg: RouterConfig, t: Tables, rooms: seq<PersistedRoom>, last: PersistedRoom)
    requires SameRooms(t.rooms, rooms)
    ensures var step := CreateRoom(cfg, t, last.room, last.code);
            && (step.result.Ok? <==> |rooms| < cfg.maxRooms
                                     && forall i :: 0 <= i < |rooms| ==> rooms[i].room != last.room && rooms[i].code != last.code)
            && step.tables == t.(rooms := step.tables.rooms)
            && (step.result.Ok? ==> SameRooms(step.tables.rooms, rooms + [last]))
  {
    if CreateRoom(cfg, t, last.room, last.code).result.Ok? {
      AddedRoomIsSame(t.rooms, rooms, last.room, last.code);
    }
  }

  lemma PeersConsistentStep(cfg: RouterConfig, rooms: seq<PersistedRoom>, peers: seq<PersistedPeer>)
    requires peers != []
    ensures var n := |peers| - 1;
            var last := peers[n];
            PeersConsistent(cfg, rooms, peers)
            <==> PeersConsistent(cfg, rooms, peers[..n]) && n < cfg.maxTotalPeers && HasRoom(rooms, last.room)
                 && RoomCount(peers[..n], last.room) < cfg.maxPeersPerRoom
                 && forall i :: 0 <= i < n ==> peers[i].peer != last.peer && peers[i].ip != last.ip
  {
    var n := |peers| - 1;
    assert forall i :: 0 <= i < n ==> peers[..n][i] == peers[i];
    assert forall r :: RoomCount(peers, r) == RoomCount(peers[..n], r) + (if peers[n].room == r then 1 else 0);
  }

  lemma AddedPeerIsSame(t: Peers, peers: seq<PersistedPeer>, clock: nat -> Time, last: PersistedPeer)
    requires SamePeers(t, peers, clock) && last.peer !in t
    ensures SamePeers(t[last.peer := Peer(last.room, last.ip, clock(|peers|), None, 1)], peers + [last], clock)
  {
    var p := Peer(last.room, last.ip, clock(|peers|), None, 1);
    assert |t[last.peer := p]| == |t| + 1;
    NobodyElseAdded(t, peers, clock, last);
    AddedCounts(t, peers, last, p);
  }

  lemma NobodyElseAdded(t: Peers, peers: seq<PersistedPeer>, clock: nat -> Time, last: PersistedPeer)
    requires NobodyElse(t, peers, clock) && last.peer !in t
    ensures NobodyElse(t[last.peer := Peer(last.room, last.ip, clock(|peers|), None, 1)], peers + [last], clock)
  {
    var p := Peer(last.room, last.ip, clock(|peers|), None, 1);
    forall q | q in t
      ensures exists i :: ComesFrom(peers + [last], clock, i, q, t[q])
    {
      var i :| ComesFrom(peers, clock, i, q, t[q]);
      assert ComesFrom(peers + [last], clock, i, q, t[q]);
    }
    assert ComesFrom(peers + [last], clock, |peers|, last.peer, p);
  }

  lemma AddedCounts(t: Peers, peers: seq<PersistedPeer>, last: PersistedPeer, p: Peer)
    requires SameCounts(t, peers) && last.peer !in t && p.room == last.room
    ensures SameCounts(t[last.peer := p], peers + [last])
  {
    forall r
      ensures |Members(t[last.peer := p], r)| == RoomCount(peers + [last], r)
    {
      AddedMembers(t, last.peer, p, r);
      assert (peers + [last])[..|peers|] == peers;
    }
  }

  lemma PeerAddedExactly(cfg: RouterConfig, t: Tables, rooms: seq<PersistedRoom>, peers: seq<PersistedPeer>, last: PersistedPeer,
                         clock: nat -> Time)
    requires SameRooms(t.rooms, rooms) && SamePeers(t.peers, peers, clock)
    ensures var step := JoinRoom(cfg, t, last.room, last.peer, last.ip, clock(|peers|));
            && (step.result.Ok? <==> HasRoom(rooms, last.room) && RoomCount(peers, last.room) < cfg.maxPeersPerRoom
                                     && |peers| < cfg.maxTotalPeers
                                     && forall i :: 0 <= i < |peers| ==> peers[i].peer != last.peer && peers[i].ip != last.ip)
            && step.tables == t.(peers := step.tables.peers)
            && (step.result.Ok? ==> SamePeers(step.tables.peers, peers + [last], clock))
  {
    hide IpTaken, NobodyElse, Everybody;
    assert HasRoom(rooms, last.room) <==> last.room in t.rooms;
    SnapshotPeers(t.peers, peers, clock, last.peer);
    SnapshotIps(t.peers, peers, clock, last.ip);
    assert SameCounts(t.peers, peers);
    if JoinRoom(cfg, t, last.room, last.peer, last.ip, clock(|peers|)).result.Ok? {
      AddedPeerIsSame(t.peers, peers, clock, last);
    }
  }

  lemma SnapshotPeers(t: Peers, peers: seq<PersistedPeer>, clock: nat -> Time, peer: PeerId)
    requires NobodyElse(t, peers, clock) && Everybody(t, peers, clock)
    ensures peer in t <==> exists i :: 0 <= i < |peers| && peers[i].peer == peer
  {
  }

  lemma SnapshotIps(t: Peers, peers: seq<PersistedPeer>, clock: nat -> Time, ip: VirtualIp)
    requires NobodyElse(t, peers, clock) && Everybody(t, peers, clock)
    ensures IpTaken(t, ip) <==> exists i :: 0 <= i < |peers| && peers[i].ip == ip
  {
  }

  lemma NobodyRestored(cfg: RouterConfig, rooms: seq<PersistedRoom>, clock: nat -> Time)
    ensures SamePeers(map[], [], clock) && PeersConsistent(cfg, rooms, [])
  {
  }

  lemma {:induction false} PeersRestoredExactly(cfg: RouterConfig, t: Tables, rooms: seq<PersistedRoom>, peers: seq<PersistedPeer>,
                                                clock: nat -> Time)
    requires SameRooms(t.rooms, rooms) && t == EMPTY.(rooms := t.rooms)
    ensures var step := RestorePeers(cfg, t, peers, clock);
            && (step.result.Ok? <==> PeersConsistent(cfg, rooms, peers))
            && step.tables == t.(peers := step.tables.peers)
            && (step.result.Ok? ==> SamePeers(step.tables.peers, peers, clock))
  {
    hide JoinRoom, PeersConsistent, SamePeers;
    if peers == [] {
      NobodyRestored(cfg, rooms, clock);
    } else {
      var n := |peers| - 1;
      PeersRestoredExactly(cfg, t, rooms, peers[..n], clock);
      PeersConsistentStep(cfg, rooms, peers);
      if PeersConsistent(cfg, rooms, peers[..n]) {
        PeerAddedExactly(cfg, RestorePeers(cfg, t, peers[..n], clock).tables, rooms, peers[..n], peers[n], clock);
        assert peers[..n] + [peers[n]] == peers;
      }
    }
  }

  /** A restart succeeds exactly for a consistent snapshot within the limits. The router is then a valid
      one that holds the rooms and peers of the snapshot, every epoch at 1, and no routes at all. */
  lemma RestoredExactly(cfg: RouterConfig, rooms: seq<PersistedRoom>, peers: seq<PersistedPeer>, clock: nat -> Time)
    ensures var step := RestoreAll(cfg, EMPTY, rooms, peers, clock);
            && (step.result.Ok? <==> RoomsConsistent(cfg, rooms) && PeersConsistent(cfg, rooms, peers))
            && (step.result.Ok? ==> SameRooms(step.tables.rooms, rooms) && SamePeers(step.tables.peers, peers, clock))
            && step.tables == EMPTY.(rooms := step.tables.rooms, peers := step.tables.peers)
            && Inv(cfg, step.tables)
  {
    hide Inv, CreateRoom, JoinRoom, SameRooms, SamePeers, RoomsConsistent, PeersConsistent;
    RoomsRestoredExactly(cfg, rooms);
    var withRooms := RestoreRooms(cfg, EMPTY, rooms);
    EmptyOk(cfg);
    RestoreRoomsOk(cfg, EMPTY, rooms);
    if withRooms.result.Ok? {
      PeersRestoredExactly(cfg, withRooms.tables, rooms, peers, clock);
      RestorePeersOk(cfg, withRooms.tables, peers, clock);
    }
  }

  lemma {:induction false} RestoreRoomsOk(cfg: RouterConfig, t: Tables, rooms: seq<PersistedRoom>)
    requires Inv(cfg, t)
    ensures Inv(cfg, RestoreRooms(cfg, t, rooms).tables)
  {
    hide Inv, CreateRoom;
    if rooms != [] {
      var n := |rooms| - 1;
      RestoreRoomsOk(cfg, t, rooms[..n]);
      CreateRoomOk(cfg, RestoreRooms(cfg, t, rooms[..n]).tables, rooms[n].room, rooms[n].code);
    }
  }

  lemma {:induction false} RestorePeersOk(cfg: RouterConfig, t: Tables, peers: seq<PersistedPeer>, clock: nat -> Time)
    requires Inv(cfg, t)
    ensures Inv(cfg, RestorePeers(cfg, t, peers, clock).tables)
  {
    hide Inv, JoinRoom;
    if peers != [] {
      var n := |peers| - 1;
      RestorePeersOk(cfg, t, peers[..n], clock);
      JoinRoomOk(cfg, RestorePeers(cfg, t, peers[..n], clock).tables, peers[n].room, peers[n].peer, peers[n].ip, clock(n));
    }
  }

  /** How many of the peers come back: those before the first that is refused. */
  function PutBack(cfg: RouterConfig, t: Tables, peers: seq<PersistedPeer>, clock: nat -> Time): (n: nat)
    ensures n <= |peers| && RestorePeers(cfg, t, peers[..n], clock).result.Ok?
    ensures n < |peers| ==> RestorePeers(cfg, t, peers[..n + 1], clock).result.Err?
  {
    if RestorePeers(cfg, t, peers, clock).result.Ok? then
      assert peers[..|peers|] == peers;
      |peers|
    else
      PutBackStep(cfg, t, peers, clock);
      var front := peers[..|peers| - 1];
      var n := PutBack(cfg, t, front, clock);
      assert peers[..n] == front[..n] && (n < |front| ==> peers[..n + 1] == front[..n + 1]);
      assert n == |front| ==> peers[..n + 1] == peers;
      n
  }

  lemma PutBackStep(cfg: RouterConfig, t: Tables, peers: seq<PersistedPeer>, clock: nat -> Time)
    requires RestorePeers(cfg, t, peers, clock).result.Err?
    ensures peers != []
  {
  }

  /** There is only one such number. */
  lemma PutBackIs(cfg: RouterConfig, t: Tables, peers: seq<PersistedPeer>, clock: nat -> Time, i: nat)
    requires i <= |peers| && RestorePeers(cfg, t, peers[..i], clock).result.Ok?
    requires i < |peers| ==> RestorePeers(cfg, t, peers[..i + 1], clock).result.Err?
    ensures PutBack(cfg, t, peers, clock) == i
  {
    hide RestorePeers;
    var n := PutBack(cfg, t, peers, clock);
    if n < i {
      assert peers[..i][..n + 1] == peers[..n + 1];
      PeersFailureSticks(cfg, t, peers[..i], clock, n + 1);
    } else if i < n {
      assert peers[..n][..i + 1] == peers[..i + 1];
      PeersFailureSticks(cfg, t, peers[..n], clock, i + 1);
    }
  }

  /** The key table after the peers have been put back. */
  function KeysAfter(keys: map<PeerId, WireGuardKey>, peers: seq<PersistedPeer>): map<PeerId, WireGuardKey> {
    if peers == [] then keys
    else KeysAfter(keys, peers[..|peers| - 1])[peers[|peers| - 1].peer := peers[|peers| - 1].key]
  }

  lemma NoPeers(cfg: RouterConfig, t: Tables, clock: nat -> Time, keys: map<PeerId, WireGuardKey>)
    ensures RestorePeers(cfg, t, [], clock) == Step(t, Ok(())) && KeysAfter(keys, []) == keys
  {
  }

  lemma OnePeerMore(cfg: RouterConfig, t: Tables, peers: seq<PersistedPeer>, clock: nat -> Time, i: nat,
                    keys: map<PeerId, WireGuardKey>)
    requires i < |peers| && RestorePeers(cfg, t, peers[..i], clock).result.Ok?
    ensures RestorePeers(cfg, t, peers[..i + 1], clock)
            == JoinRoom(cfg, RestorePeers(cfg, t, peers[..i], clock).tables, peers[i].room, peers[i].peer, peers[i].ip, clock(i))
    ensures KeysAfter(keys, peers[..i + 1]) == KeysAfter(keys, peers[..i])[peers[i].peer := peers[i].key]
  {
    hide JoinRoom;
    assert peers[..i + 1][..i] == peers[..i];
  }

  ghost predicate SameKeys(keys: map<PeerId, WireGuardKey>, peers: seq<PersistedPeer>) {
    && (forall i :: 0 <= i < |peers| ==> peers[i].peer in keys && keys[peers[i].peer] == peers[i].key)
    && (forall p :: p in keys ==> HasPeer(peers, p))
  }

  predicate HasPeer(peers: seq<PersistedPeer>, p: PeerId) {
    exists i :: 0 <= i < |peers| && peers[i].peer == p
  }

  lemma AddedKeyIsSame(keys: map<PeerId, WireGuardKey>, peers: seq<PersistedPeer>, last: PersistedPeer)
    requires SameKeys(keys, peers) && !HasPeer(peers, last.peer)
    ensures SameKeys(keys[last.peer := last.key], peers + [last])
  {
    var more := peers + [last];
    assert more[|peers|].peer == last.peer;
    forall p | HasPeer(peers, p)
      ensures HasPeer(more, p)
    {
      var i :| 0 <= i < |peers| && peers[i].peer == p;
      assert more[i].peer == p;
    }
  }

  /** Every restored peer has its own key back, and there are no other keys. */
  lemma {:induction false} KeysRestoredExactly(peers: seq<PersistedPeer>)
    requires forall i, j :: 0 <= i < j < |peers| ==> peers[i].peer != peers[j].peer
    ensures SameKeys(KeysAfter(map[], peers), peers)
  {
    hide SameKeys;
    if peers == [] {
      NoKeys();
    } else {
      var n := |peers| - 1;
      KeysRestoredExactly(peers[..n]);
      AddedKeyIsSame(KeysAfter(map[], peers[..n]), peers[..n], peers[n]);
      assert peers[..n] + [peers[n]] == peers;
    }
  }

  lemma NoKeys()
    ensures SameKeys(map[], [])
  {
  }
}
