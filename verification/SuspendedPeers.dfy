/** What a suspended peer can own: nothing right after the sweep, and from then on exactly what the control
    plane lets it register, request or select. */
module SuspendedPeers {
  import opened Protocol
  import opened Codec
  import opened RouterTables
  import opened RouterInvariant
  import opened RouterRuns
  import opened PeerLeases
  import opened Conservation
  import opened Relay
  import opened ConnectionEpochs

  /** What a sweep has just suspended owns nothing. */
  lemma FreshlySuspendedOwnNothing(cfg: RouterConfig, t: Tables, now: Time, peer: PeerId)
    requires Inv(cfg, t) && peer in t.peers && Stale(cfg, t.peers[peer], now)
    ensures OwnsNothing(Swept(cfg, t, now), peer)
  {
    hide Inv;
    OriginHostPeer(cfg, t);
  }

  /** The three operations by which a peer comes by a route. */
  predicate Acquires(op: Op, peer: PeerId) {
    (op.RegisterOp? || op.DiscoverOp? || op.SelectOp?) && op.peer == peer
  }

  ghost predicate Succeeds(cfg: RouterConfig, t: Tables, op: Op) {
    match op
    case RegisterOp(room, peer, newHost, now) => RegisterHost(cfg, t, room, peer, newHost, now).result.Ok?
    case DiscoverOp(room, peer, request, port, now) => BeginDiscovery(cfg, t, room, peer, request, port, now).result.Ok?
    case SelectOp(room, peer, host, newSession, now) => SelectHost(cfg, t, room, peer, host, newSession, now).result.Ok?
    case _ => false
  }

  ghost predicate GetsRoute(cfg: RouterConfig, t: Tables, op: Op, peer: PeerId) {
    Acquires(op, peer) && Succeeds(cfg, t, op)
  }

  lemma DroppingHostsGivesNothing(t: Tables, gone: set<HostSessionId>, peer: PeerId)
    requires OwnsNothing(t, peer)
    ensures OwnsNothing(WithoutHosts(t, gone), peer)
  {
  }

  lemma RefreshingGivesNothing(cfg: RouterConfig, t: Tables, host: HostSessionId, now: Time, peer: PeerId)
    requires OwnsNothing(t, peer) && host in t.hosts
    ensures OwnsNothing(Refresh(cfg, t, host, now), peer)
  {
  }

  lemma AddingHostGives(t: Tables, newHost: HostSessionId, host: Host, peer: PeerId)
    requires OwnsNothing(t, peer)
    ensures OwnsNothing(t.(hosts := t.hosts[newHost := host]), peer) <==> host.peer != peer
  {
    assert newHost in t.hosts[newHost := host];
  }

  lemma RegisterGives(cfg: RouterConfig, t: Tables, room: RoomId, q: PeerId, newHost: HostSessionId, now: Time, peer: PeerId)
    requires OwnsNothing(t, peer)
    ensures var step := RegisterHost(cfg, t, room, q, newHost, now);
            OwnsNothing(step.tables, peer) <==> !(q == peer && step.result.Ok?)
  {
    var step := RegisterHost(cfg, t, room, q, newHost, now);
    if MemberState(t, room, q).Ok? {
      if exists h :: LiveSession(t, h, room, q, now) {
        var h := step.result.value;
        assert t.hosts[h].peer == q != peer;
        hide OwnsNothing;
        RefreshingGivesNothing(cfg, t, h, now, peer);
      } else {
        hide OwnsNothing;
        var t1 := WithoutHosts(t, SessionsOf(t.hosts, room, q));
        DroppingHostsGivesNothing(t, SessionsOf(t.hosts, room, q), peer);
        if step.result.Ok? {
          AddingHostGives(t1, newHost, step.tables.hosts[newHost], peer);
        }
      }
    }
  }

  lemma DiscoverGives(cfg: RouterConfig, t: Tables, room: RoomId, q: PeerId, request: DiscoveryRequestId, port: U16, now: Time, peer: PeerId)
    requires OwnsNothing(t, peer)
    ensures var step := BeginDiscovery(cfg, t, room, q, request, port, now);
            OwnsNothing(step.tables, peer) <==> !(q == peer && step.result.Ok?)
  {
    var step := BeginDiscovery(cfg, t, room, q, request, port, now);
    if step.result.Ok? {
      assert request in step.tables.discoveries && step.tables.discoveries[request].client == q;
    }
  }

  lemma SelectGives(cfg: RouterConfig, t: Tables, room: RoomId, q: PeerId, host: HostSessionId, newSession: GameplaySessionId, now: Time,
                    peer: PeerId)
    requires OwnsNothing(t, peer)
    ensures var step := SelectHost(cfg, t, room, q, host, newSession, now);
            OwnsNothing(step.tables, peer) <==> !(q == peer && step.result.Ok?)
  {
    var step := SelectHost(cfg, t, room, q, host, newSession, now);
    if step.result.Ok? {
      assert newSession in step.tables.gameplay && step.tables.gameplay[newSession].client == q;
    }
  }

  lemma RenewalGivesNothing(cfg: RouterConfig, t: Tables, op: Op, peer: PeerId)
    requires OwnsNothing(t, peer) && (op.HeartbeatOp? || op.RouteOp?)
    ensures OwnsNothing(Apply(cfg, t, op), peer)
  {
  }

  lemma OthersGiveNothing(cfg: RouterConfig, t: Tables, op: Op, peer: PeerId)
    requires OwnsNothing(t, peer) && !op.RegisterOp? && !op.DiscoverOp? && !op.SelectOp?
    ensures OwnsNothing(Apply(cfg, t, op), peer)
  {
    hide Apply;
    if Removes(op) {
      RemovalFrame(cfg, t, op);
    } else if OnMembership(op) {
      MembershipFrame(cfg, t, op);
    } else {
      RenewalGivesNothing(cfg, t, op, peer);
    }
  }

  /** A peer without routes gets one by a step exactly when the step is its own successful registration,
      request or selection. */
  lemma RouteGainedExactly(cfg: RouterConfig, t: Tables, op: Op, peer: PeerId)
    requires OwnsNothing(t, peer)
    ensures OwnsNothing(Apply(cfg, t, op), peer) <==> !GetsRoute(cfg, t, op, peer)
  {
    hide RegisterHost, BeginDiscovery, SelectHost, OwnsNothing;
    match op {
      case RegisterOp(room, q, newHost, now) => RegisterGives(cfg, t, room, q, newHost, now, peer);
      case DiscoverOp(room, q, request, port, now) => DiscoverGives(cfg, t, room, q, request, port, now, peer);
      case SelectOp(room, q, host, newSession, now) => SelectGives(cfg, t, room, q, host, newSession, now, peer);
      case _ => OthersGiveNothing(cfg, t, op, peer);
    }
  }

  /** At the start of the run and after each of its steps. */
  ghost predicate OwnsNothingThroughout(cfg: RouterConfig, t: Tables, ops: seq<Op>, peer: PeerId) {
    OwnsNothing(Run(cfg, t, ops), peer) && (ops != [] ==> OwnsNothingThroughout(cfg, t, ops[..|ops| - 1], peer))
  }

  ghost predicate NeverGetsRoute(cfg: RouterConfig, t: Tables, ops: seq<Op>, peer: PeerId) {
    ops != [] ==>
      var before := ops[..|ops| - 1];
      NeverGetsRoute(cfg, t, before, peer) && !GetsRoute(cfg, Run(cfg, t, before), ops[|ops| - 1], peer)
  }

  /** Over whole runs: a peer that owns nothing goes on owning nothing if and only if none of the steps is
      its own successful registration, request or selection, whatever the others do. */
  lemma {:induction false} OwnsNothingExactly(cfg: RouterConfig, t: Tables, ops: seq<Op>, peer: PeerId)
    requires OwnsNothing(t, peer)
    ensures OwnsNothingThroughout(cfg, t, ops, peer) <==> NeverGetsRoute(cfg, t, ops, peer)
  {
    hide Apply, OwnsNothing, GetsRoute;
    if ops != [] {
      var n := |ops| - 1;
      OwnsNothingExactly(cfg, t, ops[..n], peer);
      if OwnsNothing(Run(cfg, t, ops[..n]), peer) {
        RouteGainedExactly(cfg, Run(cfg, t, ops[..n]), ops[n], peer);
      }
    }
  }

  lemma {:induction false} UnnamedNeverGetsRoute(cfg: RouterConfig, t: Tables, ops: seq<Op>, peer: PeerId)
    requires forall op :: op in ops ==> !Acquires(op, peer)
    ensures NeverGetsRoute(cfg, t, ops, peer)
  {
    hide Run, Acquires, Succeeds;
    if ops != [] {
      UnnamedNeverGetsRoute(cfg, t, ops[..|ops| - 1], peer);
    }
  }

  /** After the sweep that suspends it a peer owns nothing for as long as no registration, request or
      selection names it. */
  lemma SuspendedStaysWithoutRoutes(cfg: RouterConfig, t: Tables, now: Time, ops: seq<Op>, peer: PeerId)
    requires Inv(cfg, t) && peer in t.peers && Stale(cfg, t.peers[peer], now)
    requires forall op :: op in ops ==> !Acquires(op, peer)
    ensures OwnsNothing(Run(cfg, Swept(cfg, t, now), ops), peer)
  {
    hide Inv, Run, Swept, OwnsNothing;
    FreshlySuspendedOwnNothing(cfg, t, now, peer);
    UnnamedNeverGetsRoute(cfg, Swept(cfg, t, now), ops, peer);
    OwnsNothingExactly(cfg, Swept(cfg, t, now), ops, peer);
  }

  // ---------------------------------------------------------------- what suspension does not prevent

  /** The control plane asks only for membership. A suspended member may register if and only if it has a
      host session or its room has space, and then owns one while it stays suspended. */
  lemma SuspendedPeerMayHost(cfg: RouterConfig, t: Tables, peer: PeerId, newId: HostSessionId, now: Time)
    requires Inv(cfg, t) && peer in t.peers && t.peers[peer].disconnectedAt.Some?
    ensures var room := t.peers[peer].room;
            var step := RegisterHost(cfg, t, room, peer, newId, now);
            && (step.result.Ok? <==> SessionsOf(t.hosts, room, peer) != {} || |HostSessions(t.hosts, room)| < cfg.maxHostsPerRoom)
            && (step.result.Ok? ==> step.result.value in step.tables.hosts && step.tables.hosts[step.result.value].peer == peer)
            && step.tables.peers == t.peers
  {
    hide Inv;
    RegisterSucceedsExactly(cfg, t, t.peers[peer].room, peer, newId, now);
  }

  /** It may select any live host of its room while there are gameplay sessions left, and then is the client
      of one while it stays suspended. */
  lemma SuspendedPeerMaySelect(cfg: RouterConfig, t: Tables, peer: PeerId, host: HostSessionId, newId: GameplaySessionId, now: Time)
    requires Inv(cfg, t) && peer in t.peers && t.peers[peer].disconnectedAt.Some?
    ensures var room := t.peers[peer].room;
            var step := SelectHost(cfg, t, room, peer, host, newId, now);
            && (step.result.Ok? <==> host in t.hosts && t.hosts[host].room == room && now < t.hosts[host].expiresAt
                                     && |t.gameplay| < cfg.maxGameplaySessions)
            && (step.result.Ok? ==> newId in step.tables.gameplay && step.tables.gameplay[newId].client == peer)
            && step.tables.peers == t.peers
  {
    hide Inv;
    PeerLeaseOk(cfg, t, peer);
  }

  /** The relay itself gives a suspended peer nothing: whatever comes from its address is refused and leaves
      the router as it was. */
  lemma SuspendedPeerIsRefused(sc: ServerConfig, s: ServerState, peer: PeerId, source: SocketAddr, packet: seq<Byte>,
                               arrival: Time, now: Time)
    requires Inv(sc.router, s.tables) && peer in s.tables.peers && s.tables.peers[peer].disconnectedAt.Some?
    requires source.V4? && source.ip == s.tables.peers[peer].ip
    ensures var handled := Handle(sc, s, source, packet, arrival, now);
            handled.result.Err? && handled.state.tables == s.tables && handled.state.tracker == s.tracker
  {
    hide Inv, Decode, Forward, Passes;
    HolderOf(sc.router, s.tables, peer);
  }
}
