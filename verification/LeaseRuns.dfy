/** Where the leases of live routes come from: a recent registration, heartbeat, selection or datagram. */
module LeaseRuns {
  import opened Protocol
  import opened RouterTables
  import opened RouterRuns

  // ---------------------------------------------------------------- host sessions

  ghost predicate Renews(cfg: RouterConfig, t: Tables, op: Op, h: HostSessionId) {
    || (op.RegisterOp? && RegisterHost(cfg, t, op.room, op.peer, op.newHost, op.now).result == Ok(h))
    || (op.HeartbeatOp? && op.host == h && HeartbeatHost(cfg, t, h, op.now).result.Ok?)
  }

  predicate HostLeaseFrom(cfg: RouterConfig, t: Tables, h: HostSessionId, at: Time) {
    h in t.hosts && t.hosts[h].lastHeartbeat == at && t.hosts[h].expiresAt == at + cfg.hostTtl
  }

  lemma RegisterStep(cfg: RouterConfig, t: Tables, room: RoomId, peer: PeerId, newHost: HostSessionId, now: Time, h: HostSessionId)
    requires h in RegisterHost(cfg, t, room, peer, newHost, now).tables.hosts
    ensures var step := RegisterHost(cfg, t, room, peer, newHost, now);
            if step.result == Ok(h) then HostLeaseFrom(cfg, step.tables, h, now)
            else h in t.hosts && step.tables.hosts[h] == t.hosts[h]
  {
  }

  lemma HeartbeatStep(cfg: RouterConfig, t: Tables, host: HostSessionId, now: Time, h: HostSessionId)
    requires h in HeartbeatHost(cfg, t, host, now).tables.hosts
    ensures var step := HeartbeatHost(cfg, t, host, now);
            if host == h && step.result.Ok? then HostLeaseFrom(cfg, step.tables, h, now)
            else h in t.hosts && step.tables.hosts[h] == t.hosts[h]
  {
  }

  lemma OtherOpsKeepHosts(cfg: RouterConfig, t: Tables, op: Op, h: HostSessionId)
    requires !op.RegisterOp? && !op.HeartbeatOp? && h in Apply(cfg, t, op).hosts
    ensures h in t.hosts && Apply(cfg, t, op).hosts[h] == t.hosts[h]
  {
    hide Apply;
    if Removes(op) {
      RemovalFrame(cfg, t, op);
    } else if OnMembership(op) {
      MembershipFrame(cfg, t, op);
    } else {
      RouteFrame(cfg, t, op);
    }
  }

  /** A step renews a host session's lease, from its own time on, or leaves the session exactly as it was. */
  lemma HostStep(cfg: RouterConfig, t: Tables, op: Op, h: HostSessionId)
    requires h in Apply(cfg, t, op).hosts
    ensures var t' := Apply(cfg, t, op);
            if Renews(cfg, t, op, h) then HostLeaseFrom(cfg, t', h, op.now)
            else h in t.hosts && t'.hosts[h] == t.hosts[h]
  {
    hide RegisterHost, HeartbeatHost;
    match op {
      case RegisterOp(room, peer, newHost, now) => RegisterStep(cfg, t, room, peer, newHost, now, h);
      case HeartbeatOp(host, now) => HeartbeatStep(cfg, t, host, now, h);
      case _ => OtherOpsKeepHosts(cfg, t, op, h);
    }
  }

  ghost predicate RenewedAt(cfg: RouterConfig, ops: seq<Op>, i: nat, h: HostSessionId) {
    && i < |ops| && Renews(cfg, StateAt(cfg, ops, i), ops[i], h)
    && HeldSince(cfg, ops, i, t => HostLeaseFrom(cfg, t, h, ops[i].now))
  }

  /** Every host session was registered or renewed at some step, and its lease still runs from there. */
  lemma {:induction false} HostWasRenewed(cfg: RouterConfig, ops: seq<Op>, h: HostSessionId)
    requires h in Run(cfg, EMPTY, ops).hosts
    ensures exists i: nat :: RenewedAt(cfg, ops, i, h)
  {
    hide Apply, StateAt, Renews;
    if ops != [] {
      var n := |ops| - 1;
      StateAtEnds(cfg, ops);
      HostStep(cfg, StateAt(cfg, ops, n), ops[n], h);
      if Renews(cfg, StateAt(cfg, ops, n), ops[n], h) {
        assert RenewedAt(cfg, ops, n, h);
      } else {
        HostWasRenewed(cfg, ops[..n], h);
        var i: nat :| RenewedAt(cfg, ops[..n], i, h);
        RenewedEarlier(cfg, ops, i, h);
      }
    }
  }

  lemma RenewedEarlier(cfg: RouterConfig, ops: seq<Op>, i: nat, h: HostSessionId)
    requires ops != [] && RenewedAt(cfg, ops[..|ops| - 1], i, h)
    requires var t, t' := StateAt(cfg, ops, |ops| - 1), StateAt(cfg, ops, |ops|);
             h in t.hosts && h in t'.hosts && t'.hosts[h] == t.hosts[h]
    ensures RenewedAt(cfg, ops, i, h)
  {
    hide Run, RegisterHost, HeartbeatHost;
    var front := ops[..|ops| - 1];
    assert front[..|front|] == front == ops[..|front|];
    assert HostLeaseFrom(cfg, StateAt(cfg, front, |front|), h, ops[i].now);
    HeldOneStepMore(cfg, ops, i, t => HostLeaseFrom(cfg, t, h, ops[i].now));
  }

  /** Every host that a fan-out reaches has registered or sent a heartbeat less than a lease ago. */
  lemma FanoutReachesRecentHosts(cfg: RouterConfig, ops: seq<Op>, room: RoomId, now: Time, target: DiscoveryTarget)
    requires target in LiveTargets(Run(cfg, EMPTY, ops).hosts, room, now)
    ensures exists i: nat :: RenewedAt(cfg, ops, i, target.host) && now < ops[i].now + cfg.hostTtl
  {
    hide Apply, StateAt, RegisterHost, HeartbeatHost;
    HostWasRenewed(cfg, ops, target.host);
    var i: nat :| RenewedAt(cfg, ops, i, target.host);
    StateAtEnds(cfg, ops);
    assert HostLeaseFrom(cfg, StateAt(cfg, ops, |ops|), target.host, ops[i].now);
  }

  // ---------------------------------------------------------------- gameplay sessions

  predicate Uses(cfg: RouterConfig, t: Tables, op: Op, g: GameplaySessionId) {
    || Selects(cfg, t, op, g)
    || (op.RouteOp? && op.session == g && RouteGameplay(cfg, t, g, op.peer, op.now).result.Ok?)
  }

  predicate SessionLeaseFrom(cfg: RouterConfig, t: Tables, g: GameplaySessionId, at: Time) {
    g in t.gameplay && t.gameplay[g].lastActivity == at && t.gameplay[g].expiresAt == at + cfg.gameplayIdleTtl
  }

  lemma SelectStep(cfg: RouterConfig, t: Tables, room: RoomId, peer: PeerId, host: HostSessionId, newSession: GameplaySessionId,
                   now: Time, g: GameplaySessionId)
    requires g in SelectHost(cfg, t, room, peer, host, newSession, now).tables.gameplay
    ensures var step := SelectHost(cfg, t, room, peer, host, newSession, now);
            if newSession == g && step.result.Ok? then SessionLeaseFrom(cfg, step.tables, g, now)
            else g in t.gameplay && step.tables.gameplay[g] == t.gameplay[g]
  {
  }

  lemma RouteStep(cfg: RouterConfig, t: Tables, session: GameplaySessionId, peer: PeerId, now: Time, g: GameplaySessionId)
    requires g in RouteGameplay(cfg, t, session, peer, now).tables.gameplay
    ensures var step := RouteGameplay(cfg, t, session, peer, now);
            if session == g && step.result.Ok? then SessionLeaseFrom(cfg, step.tables, g, now)
            else g in t.gameplay && step.tables.gameplay[g] == t.gameplay[g]
  {
  }

  lemma OtherOpsKeepGameplay(cfg: RouterConfig, t: Tables, op: Op, g: GameplaySessionId)
    requires !op.SelectOp? && !op.RouteOp? && !op.RegisterOp? && g in Apply(cfg, t, op).gameplay
    ensures g in t.gameplay && Apply(cfg, t, op).gameplay[g] == t.gameplay[g]
  {
    hide Apply;
    if Removes(op) {
      RemovalFrame(cfg, t, op);
    } else if OnMembership(op) {
      MembershipFrame(cfg, t, op);
    } else {
      RouteFrame(cfg, t, op);
    }
  }

  /** A step creates or uses a session, which renews its lease, or leaves it exactly as it was. */
  lemma SessionStep(cfg: RouterConfig, t: Tables, op: Op, g: GameplaySessionId)
    requires g in Apply(cfg, t, op).gameplay
    ensures var t' := Apply(cfg, t, op);
            if Uses(cfg, t, op, g) then SessionLeaseFrom(cfg, t', g, op.now)
            else g in t.gameplay && t'.gameplay[g] == t.gameplay[g]
  {
    hide SelectHost, RouteGameplay, RegisterHost;
    match op {
      case SelectOp(room, peer, host, newSession, now) => SelectStep(cfg, t, room, peer, host, newSession, now, g);
      case RouteOp(session, peer, now) => RouteStep(cfg, t, session, peer, now, g);
      case RegisterOp(_, _, _, _) => RegisterFrame(cfg, t, op);
      case _ => OtherOpsKeepGameplay(cfg, t, op, g);
    }
  }

  ghost predicate UsedAt(cfg: RouterConfig, ops: seq<Op>, i: nat, g: GameplaySessionId) {
    && i < |ops| && Uses(cfg, StateAt(cfg, ops, i), ops[i], g)
    && HeldSince(cfg, ops, i, t => SessionLeaseFrom(cfg, t, g, ops[i].now))
  }

  /** Every gameplay session was created or carried a datagram at some step, and its lease still runs from there. */
  lemma {:induction false} SessionWasUsed(cfg: RouterConfig, ops: seq<Op>, g: GameplaySessionId)
    requires g in Run(cfg, EMPTY, ops).gameplay
    ensures exists i: nat :: UsedAt(cfg, ops, i, g)
  {
    hide Apply, StateAt, Uses;
    if ops != [] {
      var n := |ops| - 1;
      StateAtEnds(cfg, ops);
      SessionStep(cfg, StateAt(cfg, ops, n), ops[n], g);
      if Uses(cfg, StateAt(cfg, ops, n), ops[n], g) {
        assert UsedAt(cfg, ops, n, g);
      } else {
        SessionWasUsed(cfg, ops[..n], g);
        var i: nat :| UsedAt(cfg, ops[..n], i, g);
        UsedEarlier(cfg, ops, i, g);
      }
    }
  }

  lemma UsedEarlier(cfg: RouterConfig, ops: seq<Op>, i: nat, g: GameplaySessionId)
    requires ops != [] && UsedAt(cfg, ops[..|ops| - 1], i, g)
    requires var t, t' := StateAt(cfg, ops, |ops| - 1), StateAt(cfg, ops, |ops|);
             g in t.gameplay && g in t'.gameplay && t'.gameplay[g] == t.gameplay[g]
    ensures UsedAt(cfg, ops, i, g)
  {
    hide Run, SelectHost, RouteGameplay;
    var front := ops[..|ops| - 1];
    assert front[..|front|] == front == ops[..|front|];
    assert SessionLeaseFrom(cfg, StateAt(cfg, front, |front|), g, ops[i].now);
    HeldOneStepMore(cfg, ops, i, t => SessionLeaseFrom(cfg, t, g, ops[i].now));
  }

  /** A datagram is routed only in a session that was created, or carried one, less than an idle lease ago. */
  lemma RoutedOnlyWhenRecent(cfg: RouterConfig, ops: seq<Op>, g: GameplaySessionId, source: PeerId, now: Time)
    requires RouteGameplay(cfg, Run(cfg, EMPTY, ops), g, source, now).result.Ok?
    ensures exists i: nat :: UsedAt(cfg, ops, i, g) && now < ops[i].now + cfg.gameplayIdleTtl
  {
    hide Apply, StateAt, SelectHost;
    SessionWasUsed(cfg, ops, g);
    var i: nat :| UsedAt(cfg, ops, i, g);
    StateAtEnds(cfg, ops);
    assert SessionLeaseFrom(cfg, StateAt(cfg, ops, |ops|), g, ops[i].now);
  }
}
