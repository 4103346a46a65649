/** Whole runs of the router: any sequence of operations, at any times, from any caller. */
module RouterRuns {
  import opened Protocol
  import opened RouterTables
  import opened RouterInvariant

  datatype Op =
    | CreateRoomOp(room: RoomId, code: RoomCode)
    | RemoveRoomOp(room: RoomId)
    | JoinOp(room: RoomId, peer: PeerId, ip: VirtualIp, now: Time)
    | LeaveOp(room: RoomId, peer: PeerId)
    | SeenOp(peer: PeerId, now: Time)
    | ResumeOp(room: RoomId, peer: PeerId, now: Time)
    | RegisterOp(room: RoomId, peer: PeerId, newHost: HostSessionId, now: Time)
    | HeartbeatOp(host: HostSessionId, now: Time)
    | UnregisterOp(host: HostSessionId)
    | DiscoverOp(room: RoomId, peer: PeerId, request: DiscoveryRequestId, port: U16, now: Time)
    | SelectOp(room: RoomId, peer: PeerId, host: HostSessionId, newSession: GameplaySessionId, now: Time)
    | RouteOp(session: GameplaySessionId, peer: PeerId, now: Time)
    | DropSessionOp(session: GameplaySessionId)
    | SweepOp(now: Time)

  ghost function Apply(cfg: RouterConfig, t: Tables, op: Op): Tables {
    match op
    case CreateRoomOp(room, code) => CreateRoom(cfg, t, room, code).tables
    case RemoveRoomOp(room) => RemoveEmptyRoom(t, room).tables
    case JoinOp(room, peer, ip, now) => JoinRoom(cfg, t, room, peer, ip, now).tables
    case LeaveOp(room, peer) => LeaveRoom(t, room, peer).tables
    case SeenOp(peer, now) => MarkPeerSeen(t, peer, now).tables
    case ResumeOp(room, peer, now) => ResumePeer(cfg, t, room, peer, now).tables
    case RegisterOp(room, peer, newHost, now) => RegisterHost(cfg, t, room, peer, newHost, now).tables
    case HeartbeatOp(host, now) => HeartbeatHost(cfg, t, host, now).tables
    case UnregisterOp(host) => UnregisterHost(t, host).tables
    case DiscoverOp(room, peer, request, port, now) => BeginDiscovery(cfg, t, room, peer, request, port, now).tables
    case SelectOp(room, peer, host, newSession, now) => SelectHost(cfg, t, room, peer, host, newSession, now).tables
    case RouteOp(session, peer, now) => RouteGameplay(cfg, t, session, peer, now).tables
    case DropSessionOp(session) => RemoveGameplaySession(t, session).tables
    case SweepOp(now) => Swept(cfg, t, now)
  }

  /** Host session ids are drawn fresh. */
  predicate DrawsFresh(t: Tables, op: Op) {
    op.RegisterOp? ==> op.newHost !in t.hosts
  }

  ghost function Run(cfg: RouterConfig, t: Tables, ops: seq<Op>): Tables {
    if ops == [] then t else Apply(cfg, Run(cfg, t, ops[..|ops| - 1]), ops[|ops| - 1])
  }

  ghost predicate FreshRun(cfg: RouterConfig, t: Tables, ops: seq<Op>) {
    forall i :: 0 <= i < |ops| ==> DrawsFresh(Run(cfg, t, ops[..i]), ops[i])
  }

  // ---------------------------------------------------------------- what an operation leaves alone

  predicate Removes(op: Op) {
    op.LeaveOp? || op.UnregisterOp? || op.DropSessionOp? || op.SweepOp?
  }

  predicate TouchesPeers(op: Op) {
    op.JoinOp? || op.LeaveOp? || op.SeenOp? || op.ResumeOp? || op.SweepOp?
  }

  /** The routes that are left are among those there were, unchanged. */
  ghost predicate OnlyDrops(t: Tables, t': Tables) {
    && (forall h :: h in t'.hosts ==> h in t.hosts && t'.hosts[h] == t.hosts[h])
    && (forall d :: d in t'.discoveries ==> d in t.discoveries && t'.discoveries[d] == t.discoveries[d])
    && OnlyDropsSessions(t, t')
  }

  ghost predicate OnlyDropsSessions(t: Tables, t': Tables) {
    && (forall g :: g in t'.gameplay ==> g in t.gameplay && t'.gameplay[g] == t.gameplay[g])
    && (forall g :: g in t'.origin ==> g in t.origin && t'.origin[g] == t.origin[g])
    && (t.origin.Keys == t.gameplay.Keys ==> t'.origin.Keys == t'.gameplay.Keys)
  }

  lemma DropOnlyDrops(t: Tables, hosts: set<HostSessionId>, discoveries: set<DiscoveryRequestId>, sessions: set<GameplaySessionId>)
    ensures OnlyDrops(t, Drop(t, hosts, discoveries, sessions))
  {
  }

  lemma LeaveOnlyDrops(t: Tables, room: RoomId, peer: PeerId)
    ensures OnlyDrops(t, LeaveRoom(t, room, peer).tables)
  {
    hide Drop, OnlyDrops;
    DropOnlyDrops(t, HostsBy(t.hosts, {peer}), DiscoveriesBy(t.discoveries, {peer}), SessionsBy(t.gameplay, {peer}));
    OtherPeersOnlyDrops(t, WithoutRoutesOf(t, {peer}), t.peers - {peer});
    DropOnlyDrops(t, {}, {}, {});
    DropNothing(t);
  }

  lemma OtherPeersOnlyDrops(t: Tables, t': Tables, peers: Peers)
    requires OnlyDrops(t, t')
    ensures OnlyDrops(t, t'.(peers := peers))
  {
  }

  lemma UnregisterOnlyDrops(t: Tables, host: HostSessionId)
    ensures OnlyDrops(t, UnregisterHost(t, host).tables)
  {
    hide Drop, OnlyDrops;
    DropOnlyDrops(t, {host}, {}, SessionsFrom(t.gameplay, t.origin, {host}));
    DropOnlyDrops(t, {}, {}, {});
    DropNothing(t);
  }

  lemma DropSessionOnlyDrops(t: Tables, session: GameplaySessionId)
    ensures OnlyDrops(t, RemoveGameplaySession(t, session).tables)
  {
  }

  lemma SweptOnlyDrops(cfg: RouterConfig, t: Tables, now: Time)
    ensures OnlyDrops(t, Swept(cfg, t, now))
  {
    hide Drop, OnlyDrops, LostHosts, LostDiscoveries, LostSessions, SweptPeers;
    DropOnlyDrops(t, LostHosts(cfg, t, now), LostDiscoveries(cfg, t, now), LostSessions(cfg, t, now));
    OtherPeersOnlyDrops(t, Drop(t, LostHosts(cfg, t, now), LostDiscoveries(cfg, t, now), LostSessions(cfg, t, now)), SweptPeers(cfg, t.peers, now));
  }

  lemma RegisterShape(cfg: RouterConfig, t: Tables, room: RoomId, peer: PeerId, newHost: HostSessionId, now: Time)
    ensures var t' := RegisterHost(cfg, t, room, peer, newHost, now).tables;
            t' == t.(hosts := t'.hosts) || t' == WithoutHosts(t, SessionsOf(t.hosts, room, peer)).(hosts := t'.hosts)
  {
    hide WithoutHosts, SessionsOf, HostSessions, LiveSession, MemberState;
  }

  lemma RegisterOnlyDrops(cfg: RouterConfig, t: Tables, room: RoomId, peer: PeerId, newHost: HostSessionId, now: Time)
    ensures var t' := RegisterHost(cfg, t, room, peer, newHost, now).tables;
            t'.discoveries == t.discoveries && t'.peers == t.peers && t'.rooms == t.rooms && OnlyDropsSessions(t, t')
  {
    hide RegisterHost;
    RegisterShape(cfg, t, room, peer, newHost, now);
  }

  lemma RegisterFrame(cfg: RouterConfig, t: Tables, op: Op)
    requires op.RegisterOp?
    ensures var t' := Apply(cfg, t, op);
            t'.discoveries == t.discoveries && t'.peers == t.peers && t'.rooms == t.rooms && OnlyDropsSessions(t, t')
  {
    hide RegisterHost, OnlyDropsSessions;
    RegisterOnlyDrops(cfg, t, op.room, op.peer, op.newHost, op.now);
  }

  /** Operations on rooms and peers alone. */
  predicate OnMembership(op: Op) {
    op.CreateRoomOp? || op.RemoveRoomOp? || op.JoinOp? || op.SeenOp? || op.ResumeOp?
  }

  lemma CreateFrame(cfg: RouterConfig, t: Tables, room: RoomId, code: RoomCode)
    ensures SameRoutes(t, CreateRoom(cfg, t, room, code).tables)
  {
    hide CodeTaken;
  }

  lemma RemoveFrame(t: Tables, room: RoomId)
    ensures SameRoutes(t, RemoveEmptyRoom(t, room).tables)
  {
    hide Members, HostSessions;
  }

  lemma JoinFrame(cfg: RouterConfig, t: Tables, room: RoomId, peer: PeerId, ip: VirtualIp, now: Time)
    ensures SameRoutes(t, JoinRoom(cfg, t, room, peer, ip, now).tables)
  {
    hide IpTaken, Members;
  }

  lemma SeenFrame(t: Tables, peer: PeerId, now: Time)
    ensures SameRoutes(t, MarkPeerSeen(t, peer, now).tables)
  {
  }

  lemma ResumeFrame(cfg: RouterConfig, t: Tables, room: RoomId, peer: PeerId, now: Time)
    ensures SameRoutes(t, ResumePeer(cfg, t, room, peer, now).tables)
  {
  }

  lemma MembershipFrame(cfg: RouterConfig, t: Tables, op: Op)
    requires OnMembership(op)
    ensures SameRoutes(t, Apply(cfg, t, op))
  {
    hide SameRoutes, CreateRoom, RemoveEmptyRoom, JoinRoom, MarkPeerSeen, ResumePeer;
    match op {
      case CreateRoomOp(room, code) => CreateFrame(cfg, t, room, code);
      case RemoveRoomOp(room) => RemoveFrame(t, room);
      case JoinOp(room, peer, ip, now) => JoinFrame(cfg, t, room, peer, ip, now);
      case SeenOp(peer, now) => SeenFrame(t, peer, now);
      case ResumeOp(room, peer, now) => ResumeFrame(cfg, t, room, peer, now);
    }
  }

  lemma RemovalFrame(cfg: RouterConfig, t: Tables, op: Op)
    requires Removes(op)
    ensures OnlyDrops(t, Apply(cfg, t, op))
  {
    hide OnlyDrops, LeaveRoom, UnregisterHost, RemoveGameplaySession, Swept;
    match op {
      case LeaveOp(room, peer) => LeaveOnlyDrops(t, room, peer);
      case UnregisterOp(host) => UnregisterOnlyDrops(t, host);
      case DropSessionOp(session) => DropSessionOnlyDrops(t, session);
      case SweepOp(now) => SweptOnlyDrops(cfg, t, now);
    }
  }

  lemma RouteFrame(cfg: RouterConfig, t: Tables, op: Op)
    requires op.HeartbeatOp? || op.DiscoverOp? || op.SelectOp? || op.RouteOp?
    ensures var t' := Apply(cfg, t, op);
            match op
            case HeartbeatOp(_, _) => t' == t.(hosts := t'.hosts)
            case DiscoverOp(_, _, _, _, _) => t' == t.(discoveries := t'.discoveries)
            case SelectOp(_, _, _, _, _) => t' == t.(gameplay := t'.gameplay, origin := t'.origin)
            case _ => t' == t.(gameplay := t'.gameplay)
  {
    hide MemberState, LiveTargets;
  }

  // ---------------------------------------------------------------- safety

  lemma ApplyOk(cfg: RouterConfig, t: Tables, op: Op)
    requires Inv(cfg, t) && DrawsFresh(t, op)
    ensures Inv(cfg, Apply(cfg, t, op))
  {
    hide Inv;
    match op {
      case CreateRoomOp(room, code) => CreateRoomOk(cfg, t, room, code);
      case RemoveRoomOp(room) => RemoveEmptyRoomOk(cfg, t, room);
      case JoinOp(room, peer, ip, now) => JoinRoomOk(cfg, t, room, peer, ip, now);
      case LeaveOp(room, peer) => LeaveRoomOk(cfg, t, room, peer);
      case SeenOp(peer, now) => MarkPeerSeenOk(cfg, t, peer, now);
      case ResumeOp(room, peer, now) => ResumePeerOk(cfg, t, room, peer, now);
      case RegisterOp(room, peer, newHost, now) => RegisterHostOk(cfg, t, room, peer, newHost, now);
      case HeartbeatOp(host, now) => HeartbeatHostOk(cfg, t, host, now);
      case UnregisterOp(host) => WithoutHostsOk(cfg, t, {host});
      case DiscoverOp(room, peer, request, port, now) => BeginDiscoveryOk(cfg, t, room, peer, request, port, now);
      case SelectOp(room, peer, host, newSession, now) => SelectHostOk(cfg, t, room, peer, host, newSession, now);
      case RouteOp(session, peer, now) => RouteGameplayOk(cfg, t, session, peer, now);
      case DropSessionOp(session) => RemoveGameplaySessionOk(cfg, t, session);
      case SweepOp(now) => SweptOk(cfg, t, now);
    }
  }

  lemma FreshPrefix(cfg: RouterConfig, t: Tables, ops: seq<Op>, n: nat)
    requires n <= |ops| && FreshRun(cfg, t, ops)
    ensures FreshRun(cfg, t, ops[..n])
  {
    forall i | 0 <= i < n
      ensures DrawsFresh(Run(cfg, t, ops[..n][..i]), ops[..n][i])
    {
      assert ops[..n][..i] == ops[..i];
    }
  }

  /** Whatever is done to it, in whatever order, the router keeps its invariant. */
  lemma {:induction false} RunOk(cfg: RouterConfig, t: Tables, ops: seq<Op>)
    requires Inv(cfg, t) && FreshRun(cfg, t, ops)
    ensures Inv(cfg, Run(cfg, t, ops))
  {
    hide Inv;
    if ops != [] {
      var n := |ops| - 1;
      FreshPrefix(cfg, t, ops, n);
      RunOk(cfg, t, ops[..n]);
      ApplyOk(cfg, Run(cfg, t, ops[..n]), ops[n]);
    }
  }

  lemma ReachableOk(cfg: RouterConfig, ops: seq<Op>)
    requires FreshRun(cfg, EMPTY, ops)
    ensures Inv(cfg, Run(cfg, EMPTY, ops))
  {
    hide Inv;
    EmptyOk(cfg);
    RunOk(cfg, EMPTY, ops);
  }

  /** None of the five configured limits is ever exceeded. */
  lemma LimitsHoldForever(cfg: RouterConfig, ops: seq<Op>)
    requires FreshRun(cfg, EMPTY, ops)
    ensures var t := Run(cfg, EMPTY, ops);
            && |t.rooms| <= cfg.maxRooms && |t.peers| <= cfg.maxTotalPeers && |t.gameplay| <= cfg.maxGameplaySessions
            && forall r :: r in t.rooms ==>
                 |Members(t.peers, r)| <= cfg.maxPeersPerRoom && |HostSessions(t.hosts, r)| <= cfg.maxHostsPerRoom
  {
    hide Apply;
    ReachableOk(cfg, ops);
    Open(cfg, Run(cfg, EMPTY, ops));
  }

  /** A gameplay session does not store the host session it was created from, yet that session is the one
      and only one its host peer has, and both ends are members under the stored addresses. */
  lemma GameplayProvenance(cfg: RouterConfig, ops: seq<Op>, g: GameplaySessionId)
    requires FreshRun(cfg, EMPTY, ops) && g in Run(cfg, EMPTY, ops).gameplay
    ensures var t := Run(cfg, EMPTY, ops);
            var s := t.gameplay[g];
            && g in t.origin && SessionsOf(t.hosts, s.room, s.hostPeer) == {t.origin[g]}
            && IsMember(t.peers, s.room, s.client, s.clientIp) && IsMember(t.peers, s.room, s.hostPeer, s.hostIp)
  {
    hide Inv, Apply;
    var t := Run(cfg, EMPTY, ops);
    ReachableOk(cfg, ops);
    InvRoutes(cfg, t);
    assert CameFrom(t.hosts, t.gameplay[g], t.origin[g]);
    var host := t.hosts[t.origin[g]];
    assert IsMember(t.peers, host.room, host.peer, host.ip);
  }

  /** Session `g` is the one it was: same ends, same provenance. Only its lease may have moved. */
  predicate SameSession(t: Tables, t': Tables, g: GameplaySessionId) {
    && g in t.gameplay && g in t.origin && g in t'.gameplay && g in t'.origin
    && t'.origin[g] == t.origin[g]
    && t'.gameplay[g] == t.gameplay[g].(lastActivity := t'.gameplay[g].lastActivity, expiresAt := t'.gameplay[g].expiresAt)
  }

  lemma RouteKeepsSession(cfg: RouterConfig, t: Tables, op: Op, g: GameplaySessionId)
    requires t.origin.Keys == t.gameplay.Keys && op.RouteOp? && g in Apply(cfg, t, op).gameplay
    ensures SameSession(t, Apply(cfg, t, op), g)
  {
  }

  predicate Selects(cfg: RouterConfig, t: Tables, op: Op, g: GameplaySessionId) {
    op.SelectOp? && op.newSession == g && SelectHost(cfg, t, op.room, op.peer, op.host, g, op.now).result.Ok?
  }

  lemma SelectMakesSession(cfg: RouterConfig, t: Tables, op: Op, g: GameplaySessionId)
    requires t.origin.Keys == t.gameplay.Keys && op.SelectOp? && g in Apply(cfg, t, op).gameplay
    ensures var t' := Apply(cfg, t, op);
            if Selects(cfg, t, op, g) then g in t'.origin && t'.origin[g] == op.host else SameSession(t, t', g)
  {
  }

  /** The recorded provenance is the host session selected at creation: no later step rewrites it. */
  lemma OriginIsTheSelectedHost(cfg: RouterConfig, t: Tables, op: Op, g: GameplaySessionId)
    requires Inv(cfg, t) && g in Apply(cfg, t, op).gameplay
    ensures var t' := Apply(cfg, t, op);
            if Selects(cfg, t, op, g) then g in t'.origin && t'.origin[g] == op.host else SameSession(t, t', g)
  {
    hide Inv, Apply, SelectHost;
    OriginHostPeer(cfg, t);
    match op {
      case RegisterOp(_, _, _, _) => RegisterFrame(cfg, t, op);
      case SelectOp(_, _, _, _, _) => SelectMakesSession(cfg, t, op, g);
      case RouteOp(_, _, _) => RouteKeepsSession(cfg, t, op, g);
      case _ => OthersKeepSessions(cfg, t, op, g);
    }
  }

  lemma OthersKeepSessions(cfg: RouterConfig, t: Tables, op: Op, g: GameplaySessionId)
    requires t.origin.Keys == t.gameplay.Keys && g in Apply(cfg, t, op).gameplay
    requires !op.RegisterOp? && !op.SelectOp? && !op.RouteOp?
    ensures SameSession(t, Apply(cfg, t, op), g)
  {
    hide Apply;
    if Removes(op) {
      RemovalFrame(cfg, t, op);
    } else if OnMembership(op) {
      MembershipFrame(cfg, t, op);
    } else {
      RouteFrame(cfg, t, op);
    }
  }

  /** The tables after the first `i` operations of a run from the empty router. */
  ghost function StateAt(cfg: RouterConfig, ops: seq<Op>, i: nat): Tables
    requires i <= |ops|
  {
    Run(cfg, EMPTY, ops[..i])
  }

  lemma StateAtEnds(cfg: RouterConfig, ops: seq<Op>)
    requires ops != []
    ensures StateAt(cfg, ops, |ops|) == Run(cfg, EMPTY, ops)
    ensures StateAt(cfg, ops, |ops| - 1) == Run(cfg, EMPTY, ops[..|ops| - 1])
    ensures StateAt(cfg, ops, |ops|) == Apply(cfg, StateAt(cfg, ops, |ops| - 1), ops[|ops| - 1])
  {
    hide Apply;
    assert ops[..|ops|] == ops;
  }

  /** The tables have had a property after every step since step `i`. */
  ghost predicate HeldSince(cfg: RouterConfig, ops: seq<Op>, i: nat, holds: Tables -> bool) {
    forall j :: i < j <= |ops| ==> holds(StateAt(cfg, ops, j))
  }

  lemma HeldOneStepMore(cfg: RouterConfig, ops: seq<Op>, i: nat, holds: Tables -> bool)
    requires ops != [] && i < |ops|
    requires HeldSince(cfg, ops[..|ops| - 1], i, holds) && holds(StateAt(cfg, ops, |ops|))
    ensures HeldSince(cfg, ops, i, holds)
    ensures i < |ops| - 1 ==> StateAt(cfg, ops[..|ops| - 1], i) == StateAt(cfg, ops, i) && holds(StateAt(cfg, ops, |ops| - 1))
  {
    hide Run;
    var front := ops[..|ops| - 1];
    forall j | i <= j < |ops|
      ensures StateAt(cfg, front, j) == StateAt(cfg, ops, j)
    {
      assert front[..j] == ops[..j];
    }
  }

  /** Step `i` of a run selected a host for session `g`, and from then on both have been there. */
  ghost predicate SelectedAt(cfg: RouterConfig, ops: seq<Op>, i: nat, g: GameplaySessionId) {
    && i < |ops| && Selects(cfg, StateAt(cfg, ops, i), ops[i], g)
    && HeldSince(cfg, ops, i, t => RunsFrom(t, g, ops[i].host))
  }

  /** Session `g` is there, and so is the host session it came from. */
  predicate RunsFrom(t: Tables, g: GameplaySessionId, host: HostSessionId) {
    g in t.gameplay && g in t.origin && t.origin[g] == host && host in t.hosts
  }

  /** Every gameplay session was selected once, for a host session that has been registered ever since. */
  lemma {:induction false} SelectedHostNeverLeft(cfg: RouterConfig, ops: seq<Op>, g: GameplaySessionId)
    requires FreshRun(cfg, EMPTY, ops) && g in Run(cfg, EMPTY, ops).gameplay
    ensures exists i: nat :: SelectedAt(cfg, ops, i, g)
  {
    hide Apply, StateAt;
    if ops != [] {
      var n := |ops| - 1;
      StateAtEnds(cfg, ops);
      LastStep(cfg, ops, g);
      if Selects(cfg, StateAt(cfg, ops, n), ops[n], g) {
        assert SelectedAt(cfg, ops, n, g);
      } else {
        FreshPrefix(cfg, EMPTY, ops, n);
        SelectedHostNeverLeft(cfg, ops[..n], g);
        var i: nat :| SelectedAt(cfg, ops[..n], i, g);
        SelectedEarlier(cfg, ops, i, g);
      }
    }
  }

  lemma LastStep(cfg: RouterConfig, ops: seq<Op>, g: GameplaySessionId)
    requires ops != [] && FreshRun(cfg, EMPTY, ops) && g in Run(cfg, EMPTY, ops).gameplay
    ensures var n := |ops| - 1;
            var t, t' := StateAt(cfg, ops, n), StateAt(cfg, ops, n + 1);
            && g in t'.gameplay && g in t'.origin && t'.origin[g] in t'.hosts
            && (if Selects(cfg, t, ops[n], g) then t'.origin[g] == ops[n].host
                else g in t.gameplay && g in t.origin && t.origin[g] == t'.origin[g])
  {
    hide Apply;
    var n := |ops| - 1;
    StateAtEnds(cfg, ops);
    FreshPrefix(cfg, EMPTY, ops, n);
    ReachableOk(cfg, ops[..n]);
    ReachableOk(cfg, ops);
    OriginHostPeer(cfg, Run(cfg, EMPTY, ops));
    OriginIsTheSelectedHost(cfg, Run(cfg, EMPTY, ops[..n]), ops[n], g);
  }

  lemma SelectedEarlier(cfg: RouterConfig, ops: seq<Op>, i: nat, g: GameplaySessionId)
    requires ops != [] && SelectedAt(cfg, ops[..|ops| - 1], i, g)
    requires var t, t' := StateAt(cfg, ops, |ops| - 1), StateAt(cfg, ops, |ops|);
             && g in t'.gameplay && g in t'.origin && t'.origin[g] in t'.hosts && g in t.origin && t'.origin[g] == t.origin[g]
    ensures SelectedAt(cfg, ops, i, g)
  {
    hide Run;
    var front := ops[..|ops| - 1];
    assert front[..|front|] == front == ops[..|front|];
    assert RunsFrom(StateAt(cfg, front, |front|), g, ops[i].host);
    HeldOneStepMore(cfg, ops, i, t => RunsFrom(t, g, ops[i].host));
  }
}
