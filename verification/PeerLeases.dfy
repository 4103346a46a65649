/** What becomes of one peer over whole runs: when it may be dropped, when it must be, and its epochs. */
module PeerLeases {
  import opened Protocol
  import opened RouterTables
  import opened RouterInvariant
  import opened RouterRuns

  function Lookup(peers: Peers, peer: PeerId): Option<Peer> {
    if peer in peers then Some(peers[peer]) else None
  }

  /** What an operation makes of one member, seen from that member's record alone. */
  function PeerAfter(cfg: RouterConfig, p: Peer, op: Op, peer: PeerId): Option<Peer> {
    match op
    case LeaveOp(room, q) => if q == peer && room == p.room then None else Some(p)
    case SeenOp(q, now) => Some(if q == peer && p.disconnectedAt.None? then p.(lastSeen := now) else p)
    case ResumeOp(room, q, now) => Some(if q == peer && room == p.room && !GraceOver(cfg, p, now) then Resumed(p, now) else p)
    case SweepOp(now) => SweptPeer(cfg, p, now)
    case _ => Some(p)
  }

  function Resumed(p: Peer, now: Time): Peer {
    p.(lastSeen := now, disconnectedAt := None, epoch := if p.disconnectedAt.Some? then SaturatingSucc(p.epoch) else p.epoch)
  }

  lemma OtherOpsKeepPeers(cfg: RouterConfig, t: Tables, op: Op)
    requires !TouchesPeers(op)
    ensures Apply(cfg, t, op).peers == t.peers
  {
    hide Apply;
    if op.RegisterOp? {
      RegisterFrame(cfg, t, op);
    } else if op.HeartbeatOp? || op.DiscoverOp? || op.SelectOp? || op.RouteOp? {
      RouteFrame(cfg, t, op);
    } else {
      OtherRemovalsKeepPeers(cfg, t, op);
    }
  }

  lemma OtherRemovalsKeepPeers(cfg: RouterConfig, t: Tables, op: Op)
    requires op.CreateRoomOp? || op.RemoveRoomOp? || op.UnregisterOp? || op.DropSessionOp?
    ensures Apply(cfg, t, op).peers == t.peers
  {
    hide CodeTaken, Members, HostSessions, SessionsFrom;
  }

  lemma SweepEvolves(cfg: RouterConfig, t: Tables, now: Time, peer: PeerId)
    requires peer in t.peers
    ensures Lookup(Swept(cfg, t, now).peers, peer) == SweptPeer(cfg, t.peers[peer], now)
  {
    hide SweptPeer;
  }

  lemma LeaveEvolves(cfg: RouterConfig, t: Tables, room: RoomId, q: PeerId, peer: PeerId)
    requires peer in t.peers && t.peers[peer].room in t.rooms
    ensures Lookup(LeaveRoom(t, room, q).tables.peers, peer)
            == if q == peer && room == t.peers[peer].room then None else Some(t.peers[peer])
  {
    hide WithoutRoutesOf;
    assert WithoutRoutesOf(t, {q}).(peers := t.peers - {q}).peers == t.peers - {q};
  }

  lemma JoinEvolves(cfg: RouterConfig, t: Tables, room: RoomId, q: PeerId, ip: VirtualIp, now: Time, peer: PeerId)
    requires peer in t.peers
    ensures Lookup(JoinRoom(cfg, t, room, q, ip, now).tables.peers, peer) == Some(t.peers[peer])
  {
    hide IpTaken, Members;
  }

  lemma SeenEvolves(t: Tables, q: PeerId, now: Time, peer: PeerId)
    requires peer in t.peers
    ensures Lookup(MarkPeerSeen(t, q, now).tables.peers, peer)
            == Some(if q == peer && t.peers[peer].disconnectedAt.None? then t.peers[peer].(lastSeen := now) else t.peers[peer])
  {
  }

  lemma ResumeEvolves(cfg: RouterConfig, t: Tables, room: RoomId, q: PeerId, now: Time, peer: PeerId)
    requires peer in t.peers
    ensures var p := t.peers[peer];
            Lookup(ResumePeer(cfg, t, room, q, now).tables.peers, peer)
            == Some(if q == peer && room == p.room && !GraceOver(cfg, p, now) then Resumed(p, now) else p)
  {
  }

  /** A member's lease depends on its own record and on nobody else: no other peer, room, host session
      or route has any influence on it. */
  lemma PeerEvolvesAlone(cfg: RouterConfig, t: Tables, op: Op, peer: PeerId)
    requires Inv(cfg, t) && peer in t.peers
    ensures Lookup(Apply(cfg, t, op).peers, peer) == PeerAfter(cfg, t.peers[peer], op, peer)
  {
    hide Inv, Swept, LeaveRoom, JoinRoom, SweptPeer, MarkPeerSeen, ResumePeer, Resumed, GraceOver;
    PeerLeaseOk(cfg, t, peer);
    match op {
      case JoinOp(room, q, ip, now) => JoinEvolves(cfg, t, room, q, ip, now, peer);
      case LeaveOp(room, q) => LeaveEvolves(cfg, t, room, q, peer);
      case SweepOp(now) => SweepEvolves(cfg, t, now, peer);
      case SeenOp(q, now) => SeenEvolves(t, q, now, peer);
      case ResumeOp(room, q, now) => ResumeEvolves(cfg, t, room, q, now, peer);
      case _ => OtherOpsKeepPeers(cfg, t, op);
    }
  }

  function PeerAfterAll(cfg: RouterConfig, p: Peer, ops: seq<Op>, peer: PeerId): Option<Peer> {
    if ops == [] then Some(p)
    else
      var before := PeerAfterAll(cfg, p, ops[..|ops| - 1], peer);
      if before.None? then None else PeerAfter(cfg, before.value, ops[|ops| - 1], peer)
  }

  predicate Rejoins(op: Op, peer: PeerId) {
    op.JoinOp? && op.peer == peer
  }

  lemma NobodyElseAddsPeer(cfg: RouterConfig, t: Tables, op: Op, peer: PeerId)
    requires peer !in t.peers && !Rejoins(op, peer)
    ensures peer !in Apply(cfg, t, op).peers
  {
    if !TouchesPeers(op) {
      OtherOpsKeepPeers(cfg, t, op);
    }
  }

  lemma {:induction false} PeerRunsAlone(cfg: RouterConfig, t: Tables, ops: seq<Op>, peer: PeerId)
    requires Inv(cfg, t) && FreshRun(cfg, t, ops) && peer in t.peers && forall op :: op in ops ==> !Rejoins(op, peer)
    ensures Lookup(Run(cfg, t, ops).peers, peer) == PeerAfterAll(cfg, t.peers[peer], ops, peer)
  {
    hide Inv;
    if ops != [] {
      var n := |ops| - 1;
      var s := Run(cfg, t, ops[..n]);
      FreshPrefix(cfg, t, ops, n);
      PeerRunsAlone(cfg, t, ops[..n], peer);
      RunOk(cfg, t, ops[..n]);
      if peer in s.peers {
        PeerEvolvesAlone(cfg, s, ops[n], peer);
      } else {
        NobodyElseAddsPeer(cfg, s, ops[n], peer);
      }
    }
  }

  // ---------------------------------------------------------------- not before the deadline

  /** Still the same membership: same room, same address, and no earlier epoch. */
  predicate Holds(p: Peer, q: Peer) {
    q.room == p.room && q.ip == p.ip && p.epoch <= q.epoch
  }

  /** The only two ways out: the peer leaves its room, or a sweep finds its lease and its grace both over. */
  predicate MayGo(cfg: RouterConfig, p: Peer, op: Op, peer: PeerId) {
    || op == LeaveOp(p.room, peer)
    || (op.SweepOp? && p.lastSeen + cfg.peerTtl + cfg.peerGraceTtl <= op.now)
  }

  lemma StepHolds(cfg: RouterConfig, p: Peer, op: Op, peer: PeerId)
    requires LeaseOk(cfg, p)
    ensures match PeerAfter(cfg, p, op, peer)
            case Some(q) => Holds(p, q)
            case None => MayGo(cfg, p, op, peer)
  {
  }

  ghost predicate ReleasedAt(cfg: RouterConfig, t: Tables, ops: seq<Op>, k: int, peer: PeerId) {
    && 0 <= k < |ops|
    && peer in Run(cfg, t, ops[..k]).peers && peer !in Run(cfg, t, ops[..k + 1]).peers
    && MayGo(cfg, Run(cfg, t, ops[..k]).peers[peer], ops[k], peer)
  }

  /** Over any run a member keeps its room, its address and its epoch order, unless at some step it left
      or was swept no earlier than its last activity plus lease plus grace. */
  lemma {:induction false} NeverEvictedEarly(cfg: RouterConfig, t: Tables, ops: seq<Op>, peer: PeerId)
    requires Inv(cfg, t) && FreshRun(cfg, t, ops) && peer in t.peers
    ensures || (peer in Run(cfg, t, ops).peers && Holds(t.peers[peer], Run(cfg, t, ops).peers[peer]))
            || exists k :: ReleasedAt(cfg, t, ops, k, peer)
  {
    hide Inv, Apply;
    if ops != [] {
      var n := |ops| - 1;
      FreshPrefix(cfg, t, ops, n);
      NeverEvictedEarly(cfg, t, ops[..n], peer);
      if k :| ReleasedAt(cfg, t, ops[..n], k, peer) {
        assert ops[..n][..k] == ops[..k] && ops[..n][..k + 1] == ops[..k + 1];
        assert ReleasedAt(cfg, t, ops, k, peer);
      } else {
        LastStepHolds(cfg, t, ops, peer);
      }
    }
  }

  lemma LastStepHolds(cfg: RouterConfig, t: Tables, ops: seq<Op>, peer: PeerId)
    requires Inv(cfg, t) && FreshRun(cfg, t, ops) && peer in t.peers && ops != []
    requires var s := Run(cfg, t, ops[..|ops| - 1]);
             peer in s.peers && Holds(t.peers[peer], s.peers[peer])
    ensures || (peer in Run(cfg, t, ops).peers && Holds(t.peers[peer], Run(cfg, t, ops).peers[peer]))
            || ReleasedAt(cfg, t, ops, |ops| - 1, peer)
  {
    hide Inv;
    var n := |ops| - 1;
    var s := Run(cfg, t, ops[..n]);
    FreshPrefix(cfg, t, ops, n);
    RunOk(cfg, t, ops[..n]);
    PeerEvolvesAlone(cfg, s, ops[n], peer);
    PeerLeaseOk(cfg, s, peer);
    StepHolds(cfg, s.peers[peer], ops[n], peer);
    assert ops[..n + 1] == ops;
  }

  /** As long as a peer is in the tables, suspended or not, nobody is granted its address. */
  lemma AddressReserved(cfg: RouterConfig, t: Tables, peer: PeerId, room: RoomId, other: PeerId, now: Time)
    requires peer in t.peers
    ensures var step := JoinRoom(cfg, t, room, other, t.peers[peer].ip, now);
            step.result.Err? && step.tables == t
  {
  }

  // ---------------------------------------------------------------- not after the deadline

  /** No activity and no resume of `peer`, and no joining again. */
  predicate Silent(op: Op, peer: PeerId) {
    !((op.SeenOp? || op.ResumeOp? || op.JoinOp?) && op.peer == peer)
  }

  function SweepTimes(ops: seq<Op>): seq<Time> {
    if ops == [] then []
    else SweepTimes(ops[..|ops| - 1]) + (if ops[|ops| - 1].SweepOp? then [ops[|ops| - 1].now] else [])
  }

  /** One member under a series of sweeps. */
  function SweptOften(cfg: RouterConfig, p: Option<Peer>, times: seq<Time>): Option<Peer> {
    if times == [] then p
    else
      var before := SweptOften(cfg, p, times[..|times| - 1]);
      if before.None? then None else SweptPeer(cfg, before.value, times[|times| - 1])
  }

  lemma SilentStep(cfg: RouterConfig, p: Peer, op: Op, peer: PeerId)
    requires Silent(op, peer) && PeerAfter(cfg, p, op, peer).Some?
    ensures PeerAfter(cfg, p, op, peer) == if op.SweepOp? then SweptPeer(cfg, p, op.now) else Some(p)
  {
  }

  lemma {:induction false} SilentPeerIsOnlySwept(cfg: RouterConfig, p: Peer, ops: seq<Op>, peer: PeerId)
    requires forall op :: op in ops ==> Silent(op, peer)
    ensures PeerAfterAll(cfg, p, ops, peer).Some? ==>
              SweptOften(cfg, Some(p), SweepTimes(ops)) == PeerAfterAll(cfg, p, ops, peer)
  {
    hide PeerAfter, SweptPeer;
    if ops != [] && PeerAfterAll(cfg, p, ops, peer).Some? {
      var n := |ops| - 1;
      SilentPeerIsOnlySwept(cfg, p, ops[..n], peer);
      var times := SweepTimes(ops);
      SilentStep(cfg, PeerAfterAll(cfg, p, ops[..n], peer).value, ops[n], peer);
      if ops[n].SweepOp? {
        assert times[..|times| - 1] == SweepTimes(ops[..n]);
      } else {
        assert times == SweepTimes(ops[..n]);
      }
    }
  }

  /** Sweeping starts within `d` of `from` and goes on at most `d` apart until `until`. */
  predicate Regular(d: nat, from: Time, times: seq<Time>, until: Time)
    decreases |times|
  {
    if times == [] then from <= until <= from + d
    else from <= times[0] <= from + d && Regular(d, times[0], times[1..], until)
  }

  /** `SweptOften`, taking the first sweep first. */
  lemma {:induction false} SweptFirst(cfg: RouterConfig, p: Peer, times: seq<Time>)
    requires times != []
    ensures SweptOften(cfg, Some(p), times) == SweptOften(cfg, SweptPeer(cfg, p, times[0]), times[1..])
    decreases |times|
  {
    var n := |times| - 1;
    if n > 0 {
      SweptFirst(cfg, p, times[..n]);
      assert times[..n][1..] == times[1..][..n - 1] && times[1..][n - 1] == times[n];
    } else {
      assert times[..0] == [] && times[1..] == [];
    }
  }

  lemma {:induction false} GoneStaysGone(cfg: RouterConfig, times: seq<Time>)
    ensures SweptOften(cfg, None, times) == None
    decreases |times|
  {
    if times != [] {
      GoneStaysGone(cfg, times[..|times| - 1]);
    }
  }

  lemma {:induction false} SuspendedPeerGoes(cfg: RouterConfig, p: Peer, d: nat, from: Time, times: seq<Time>, now: Time)
    requires p.disconnectedAt.Some? && Regular(d, from, times, now)
    requires from < p.disconnectedAt.value + cfg.peerGraceTtl
    requires p.disconnectedAt.value + cfg.peerGraceTtl + d <= now
    ensures SweptOften(cfg, Some(p), times) == None
    decreases |times|
  {
    SweptFirst(cfg, p, times);
    if GraceOver(cfg, p, times[0]) {
      GoneStaysGone(cfg, times[1..]);
    } else {
      SuspendedPeerGoes(cfg, p, d, times[0], times[1..], now);
    }
  }

  lemma {:induction false} ConnectedPeerGoes(cfg: RouterConfig, p: Peer, d: nat, from: Time, times: seq<Time>, now: Time)
    requires p.disconnectedAt.None? && 0 < d && Regular(d, from, times, now)
    requires from <= p.lastSeen + cfg.peerTtl
    requires p.lastSeen + cfg.peerTtl + cfg.peerGraceTtl + 2 * d <= now
    ensures SweptOften(cfg, Some(p), times) == None
    decreases |times|
  {
    SweptFirst(cfg, p, times);
    var next := SweptPeer(cfg, p, times[0]);
    if next.None? {
      GoneStaysGone(cfg, times[1..]);
    } else if next.value.disconnectedAt.Some? {
      SuspendedPeerGoes(cfg, next.value, d, times[0], times[1..], now);
    } else {
      ConnectedPeerGoes(cfg, p, d, times[0], times[1..], now);
    }
  }

  /** No host session, request or gameplay session involves the peer. */
  ghost predicate OwnsNothing(t: Tables, peer: PeerId) {
    && (forall h :: h in t.hosts ==> t.hosts[h].peer != peer)
    && (forall d :: d in t.discoveries ==> t.discoveries[d].client != peer)
    && (forall g :: g in t.gameplay ==> t.gameplay[g].client != peer && t.gameplay[g].hostPeer != peer)
  }

  /** Nothing in any table mentions the peer. */
  ghost predicate GoneEverywhere(t: Tables, peer: PeerId) {
    peer !in t.peers && OwnsNothing(t, peer)
  }

  lemma UnknownPeerIsGoneEverywhere(cfg: RouterConfig, t: Tables, peer: PeerId)
    requires Inv(cfg, t) && peer !in t.peers
    ensures GoneEverywhere(t, peer)
  {
    hide Inv;
    InvRoutes(cfg, t);
    RoutesUsePeers(t);
    OriginHostPeer(cfg, t);
  }

  /** A peer that falls silent is gone from every table by its last activity plus lease plus grace plus
      two sweep periods, whatever everybody else does meanwhile. */
  lemma GoneByDeadline(cfg: RouterConfig, t: Tables, ops: seq<Op>, peer: PeerId, d: nat, now: Time)
    requires Inv(cfg, t) && FreshRun(cfg, t, ops) && peer in t.peers && t.peers[peer].disconnectedAt.None?
    requires forall op :: op in ops ==> Silent(op, peer)
    requires 0 < d && Regular(d, t.peers[peer].lastSeen, SweepTimes(ops), now)
    requires t.peers[peer].lastSeen + cfg.peerTtl + cfg.peerGraceTtl + 2 * d <= now
    ensures GoneEverywhere(Run(cfg, t, ops), peer)
  {
    hide Inv;
    var p := t.peers[peer];
    PeerRunsAlone(cfg, t, ops, peer);
    SilentPeerIsOnlySwept(cfg, p, ops, peer);
    ConnectedPeerGoes(cfg, p, d, p.lastSeen, SweepTimes(ops), now);
    RunOk(cfg, t, ops);
    UnknownPeerIsGoneEverywhere(cfg, Run(cfg, t, ops), peer);
  }
}
