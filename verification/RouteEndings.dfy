/** Why routes end. A game, a host session or a discovery request that is there stays there until one of a
    few things happens to it, each stated on the tables alone. */
module RouteEndings {
  import opened Protocol
  import opened RouterTables
  import opened RouterInvariant
  import opened RouterRuns
  import opened RouterAnswers

  // ---------------------------------------------------------------- what ends them

  /** The peer has no host session in that room whose lease still runs, and asks for a new one. */
  predicate Replaces(t: Tables, op: Op, room: RoomId, peer: PeerId) {
    op.RegisterOp? && op.room == room && op.peer == peer && NoLiveSession(t, room, peer, op.now)
  }

  predicate SweptAway(cfg: RouterConfig, t: Tables, op: Op, expiresAt: Time, peer: PeerId) {
    op.SweepOp? && (expiresAt <= op.now || !PeerInTime(cfg, t, peer, op.now))
  }

  predicate EndsHost(cfg: RouterConfig, t: Tables, op: Op, h: HostSessionId)
    requires h in t.hosts
  {
    var host := t.hosts[h];
    || op == UnregisterOp(h)
    || op == LeaveOp(host.room, host.peer)
    || Replaces(t, op, host.room, host.peer)
    || SweptAway(cfg, t, op, host.expiresAt, host.peer)
  }

  predicate EndsRequest(cfg: RouterConfig, t: Tables, op: Op, d: DiscoveryRequestId)
    requires d in t.discoveries
  {
    var request := t.discoveries[d];
    op == LeaveOp(request.room, request.client) || SweptAway(cfg, t, op, request.expiresAt, request.client)
  }

  /** A game ends by itself, with its client, or with the host session it runs on. */
  predicate EndsGame(cfg: RouterConfig, t: Tables, op: Op, g: GameplaySessionId)
    requires g in t.gameplay
  {
    var game := t.gameplay[g];
    || op == DropSessionOp(g)
    || op == LeaveOp(game.room, game.client)
    || SweptAway(cfg, t, op, game.expiresAt, game.client)
    || exists h :: h in t.hosts && Owns(t, game.room, game.hostPeer, h) && EndsHost(cfg, t, op, h)
  }

  // ---------------------------------------------------------------- registering

  /** Registering ends the member's own expired host session and nothing else. */
  lemma RegisterEndsHost(cfg: RouterConfig, t: Tables, op: Op, h: HostSessionId)
    requires Inv(cfg, t) && op.RegisterOp? && DrawsFresh(t, op) && h in t.hosts
    ensures h !in Apply(cfg, t, op).hosts <==> Replaces(t, op, t.hosts[h].room, t.hosts[h].peer)
  {
    hide Inv, RegisterHost;
    HostOwner(cfg, t, h);
    RegisterRefuses(cfg, t, op.room, op.peer, op.newHost, op.now);
    if RegisterHost(cfg, t, op.room, op.peer, op.newHost, op.now).result.Ok? {
      RegisterAccepts(cfg, t, op);
    }
  }

  lemma RegisterAccepts(cfg: RouterConfig, t: Tables, op: Op)
    requires Inv(cfg, t) && op.RegisterOp? && DrawsFresh(t, op)
    requires RegisterHost(cfg, t, op.room, op.peer, op.newHost, op.now).result.Ok?
    ensures IsIn(t, op.room, op.peer)
    ensures var t' := Apply(cfg, t, op);
            if NoLiveSession(t, op.room, op.peer, op.now) then
              && (forall k :: k in t'.hosts <==> k == op.newHost || (k in t.hosts && t.hosts[k].peer != op.peer))
              && (forall g :: g in t'.gameplay <==> g in t.gameplay && t.gameplay[g].hostPeer != op.peer)
            else t'.hosts.Keys == t.hosts.Keys && t'.gameplay == t.gameplay
  {
    hide Inv, RegisterHost;
    RegisterRefuses(cfg, t, op.room, op.peer, op.newHost, op.now);
    if NoLiveSession(t, op.room, op.peer, op.now) {
      RegisterReplacesExpired(cfg, t, op.room, op.peer, op.newHost, op.now);
    } else {
      var h :| h in t.hosts && Owns(t, op.room, op.peer, h) && t.hosts[h].expiresAt > op.now;
      RegisterKeepsLiveSession(cfg, t, op.room, op.peer, h, op.newHost, op.now);
    }
  }

  /** No registration ends a game whose host session is live. */
  lemma RegisterEndsGame(cfg: RouterConfig, t: Tables, op: Op, g: GameplaySessionId)
    requires Inv(cfg, t) && op.RegisterOp? && DrawsFresh(t, op) && g in t.gameplay
    ensures g !in Apply(cfg, t, op).gameplay <==> Replaces(t, op, t.gameplay[g].room, t.gameplay[g].hostPeer)
  {
    hide Inv, RegisterHost;
    var h := GameHost(cfg, t, g);
    RegisterRefuses(cfg, t, op.room, op.peer, op.newHost, op.now);
    if RegisterHost(cfg, t, op.room, op.peer, op.newHost, op.now).result.Ok? {
      RegisterAccepts(cfg, t, op);
    }
  }

  // ---------------------------------------------------------------- every operation

  lemma HostEnds(cfg: RouterConfig, t: Tables, op: Op, h: HostSessionId)
    requires Inv(cfg, t) && DrawsFresh(t, op) && h in t.hosts
    ensures h !in Apply(cfg, t, op).hosts <==> EndsHost(cfg, t, op, h)
  {
    hide Inv, RegisterHost, LeaveRoom, UnregisterHost, RemoveGameplaySession, Swept, NoLiveSession, PeerInTime;
    hide CreateRoom, RemoveEmptyRoom, JoinRoom, MarkPeerSeen, ResumePeer, HeartbeatHost, BeginDiscovery, SelectHost, RouteGameplay;
    match op {
      case RegisterOp(_, _, _, _) => RegisterEndsHost(cfg, t, op, h);
      case LeaveOp(room, peer) =>
        HostOwner(cfg, t, h);
        LeaveAnswers(t, room, peer);
        if IsIn(t, room, peer) {
          LeavingTakes(t, room, peer);
        }
      case UnregisterOp(host) => UnregisterAnswers(cfg, t, host);
      case DropSessionOp(session) => RemoveGameAnswers(t, session);
      case SweepOp(now) => SweepLeavesHosts(cfg, t, now, h);
      case _ => NothingEnds(cfg, t, op);
    }
  }

  lemma RequestEnds(cfg: RouterConfig, t: Tables, op: Op, d: DiscoveryRequestId)
    requires Inv(cfg, t) && d in t.discoveries
    ensures d !in Apply(cfg, t, op).discoveries <==> EndsRequest(cfg, t, op, d)
  {
    hide Inv, RegisterHost, LeaveRoom, UnregisterHost, RemoveGameplaySession, Swept, PeerInTime;
    hide CreateRoom, RemoveEmptyRoom, JoinRoom, MarkPeerSeen, ResumePeer, HeartbeatHost, BeginDiscovery, SelectHost, RouteGameplay;
    match op {
      case RegisterOp(_, _, _, _) => RegisterFrame(cfg, t, op);
      case LeaveOp(room, peer) =>
        RequestOwner(cfg, t, d);
        LeaveAnswers(t, room, peer);
        if IsIn(t, room, peer) {
          LeavingTakes(t, room, peer);
        }
      case UnregisterOp(host) => UnregisterAnswers(cfg, t, host);
      case DropSessionOp(session) => RemoveGameAnswers(t, session);
      case SweepOp(now) => SweepLeavesRequests(cfg, t, now, d);
      case _ => NothingEnds(cfg, t, op);
    }
  }

  /** What ends a game, told through the one host session it runs on. */
  lemma GameEndings(cfg: RouterConfig, t: Tables, op: Op, g: GameplaySessionId) returns (h: HostSessionId)
    requires Inv(cfg, t) && g in t.gameplay
    ensures h in t.hosts && t.hosts[h].peer == t.gameplay[g].hostPeer && t.hosts[h].room == t.gameplay[g].room
    ensures forall k :: k in t.hosts && t.hosts[k].peer == t.gameplay[g].hostPeer ==> k == h
    ensures EndsGame(cfg, t, op, g)
            <==> || op == DropSessionOp(g) || op == LeaveOp(t.gameplay[g].room, t.gameplay[g].client)
                 || SweptAway(cfg, t, op, t.gameplay[g].expiresAt, t.gameplay[g].client)
                 || EndsHost(cfg, t, op, h)
  {
    hide Inv, EndsHost, SweptAway;
    h := GameHost(cfg, t, g);
  }

  lemma LeaveEndsGame(cfg: RouterConfig, t: Tables, op: Op, g: GameplaySessionId)
    requires Inv(cfg, t) && op.LeaveOp? && g in t.gameplay
    ensures g !in LeaveRoom(t, op.room, op.peer).tables.gameplay <==> EndsGame(cfg, t, op, g)
  {
    hide Inv, LeaveRoom, EndsGame;
    var h := GameEndings(cfg, t, op, g);
    h := GameHost(cfg, t, g);
    LeaveAnswers(t, op.room, op.peer);
    if IsIn(t, op.room, op.peer) {
      LeavingTakes(t, op.room, op.peer);
    }
  }

  lemma UnregisterEndsGame(cfg: RouterConfig, t: Tables, op: Op, g: GameplaySessionId)
    requires Inv(cfg, t) && op.UnregisterOp? && g in t.gameplay
    ensures g !in UnregisterHost(t, op.host).tables.gameplay <==> EndsGame(cfg, t, op, g)
  {
    hide Inv, UnregisterHost, EndsGame;
    var h := GameEndings(cfg, t, op, g);
    UnregisterAnswers(cfg, t, op.host);
  }

  lemma DropEndsGame(cfg: RouterConfig, t: Tables, op: Op, g: GameplaySessionId)
    requires Inv(cfg, t) && op.DropSessionOp? && g in t.gameplay
    ensures g !in RemoveGameplaySession(t, op.session).tables.gameplay <==> EndsGame(cfg, t, op, g)
  {
    hide Inv;
    RemoveGameAnswers(t, op.session);
  }

  lemma OthersEndNoGame(cfg: RouterConfig, t: Tables, op: Op, g: GameplaySessionId)
    requires !Removes(op) && !op.RegisterOp? && g in t.gameplay
    ensures !EndsGame(cfg, t, op, g)
  {
  }

  lemma SweepEndsGame(cfg: RouterConfig, t: Tables, op: Op, g: GameplaySessionId)
    requires Inv(cfg, t) && op.SweepOp? && g in t.gameplay
    ensures g !in Swept(cfg, t, op.now).gameplay <==> EndsGame(cfg, t, op, g)
  {
    hide Inv, Swept, EndsGame, PeerInTime;
    var h := GameEndings(cfg, t, op, g);
    SweepLeavesGames(cfg, t, op.now, g);
  }

  lemma GameEnds(cfg: RouterConfig, t: Tables, op: Op, g: GameplaySessionId)
    requires Inv(cfg, t) && DrawsFresh(t, op) && g in t.gameplay
    ensures g !in Apply(cfg, t, op).gameplay <==> EndsGame(cfg, t, op, g)
  {
    hide Inv, RegisterHost, LeaveRoom, UnregisterHost, RemoveGameplaySession, Swept, NoLiveSession, PeerInTime, EndsGame;
    hide CreateRoom, RemoveEmptyRoom, JoinRoom, MarkPeerSeen, ResumePeer, HeartbeatHost, BeginDiscovery, SelectHost, RouteGameplay;
    match op {
      case RegisterOp(_, _, _, _) =>
        var h := GameEndings(cfg, t, op, g);
        RegisterEndsGame(cfg, t, op, g);
      case LeaveOp(_, _) => LeaveEndsGame(cfg, t, op, g);
      case UnregisterOp(_) => UnregisterEndsGame(cfg, t, op, g);
      case DropSessionOp(session) => DropEndsGame(cfg, t, op, g);
      case SweepOp(_) => SweepEndsGame(cfg, t, op, g);
      case _ =>
        NothingEnds(cfg, t, op);
        OthersEndNoGame(cfg, t, op, g);
    }
  }

  /** The operations that only add and renew. */
  lemma NothingEnds(cfg: RouterConfig, t: Tables, op: Op)
    requires !Removes(op) && !op.RegisterOp?
    ensures var t' := Apply(cfg, t, op);
            && (forall h :: h in t.hosts ==> h in t'.hosts)
            && (forall d :: d in t.discoveries ==> d in t'.discoveries)
            && (forall g :: g in t.gameplay ==> g in t'.gameplay)
  {
    hide CodeTaken, Members, HostSessions, IpTaken, SessionsOf, LiveTargets, SaturatingSucc;
  }

  // ---------------------------------------------------------------- over runs

  lemma StepOfRun(cfg: RouterConfig, t: Tables, ops: seq<Op>, i: nat)
    requires Inv(cfg, t) && FreshRun(cfg, t, ops) && i < |ops|
    ensures Inv(cfg, Run(cfg, t, ops[..i])) && DrawsFresh(Run(cfg, t, ops[..i]), ops[i])
    ensures Run(cfg, t, ops[..i + 1]) == Apply(cfg, Run(cfg, t, ops[..i]), ops[i])
  {
    hide Inv, Apply;
    FreshPrefix(cfg, t, ops, i);
    RunOk(cfg, t, ops[..i]);
    assert ops[..i + 1][..i] == ops[..i];
  }

  ghost predicate HostEndedAt(cfg: RouterConfig, t: Tables, ops: seq<Op>, i: nat, h: HostSessionId) {
    i < |ops| && h in Run(cfg, t, ops[..i]).hosts && EndsHost(cfg, Run(cfg, t, ops[..i]), ops[i], h)
  }

  ghost predicate RequestEndedAt(cfg: RouterConfig, t: Tables, ops: seq<Op>, i: nat, d: DiscoveryRequestId) {
    i < |ops| && d in Run(cfg, t, ops[..i]).discoveries && EndsRequest(cfg, Run(cfg, t, ops[..i]), ops[i], d)
  }

  ghost predicate GameEndedAt(cfg: RouterConfig, t: Tables, ops: seq<Op>, i: nat, g: GameplaySessionId) {
    i < |ops| && g in Run(cfg, t, ops[..i]).gameplay && EndsGame(cfg, Run(cfg, t, ops[..i]), ops[i], g)
  }

  /** At every step of every run, a host session goes exactly when one of its endings comes. */
  lemma HostEndsExactly(cfg: RouterConfig, t: Tables, ops: seq<Op>, i: nat, h: HostSessionId)
    requires Inv(cfg, t) && FreshRun(cfg, t, ops) && i < |ops| && h in Run(cfg, t, ops[..i]).hosts
    ensures h !in Run(cfg, t, ops[..i + 1]).hosts <==> HostEndedAt(cfg, t, ops, i, h)
  {
    hide Inv, Run, Apply;
    StepOfRun(cfg, t, ops, i);
    HostEnds(cfg, Run(cfg, t, ops[..i]), ops[i], h);
  }

  lemma RequestEndsExactly(cfg: RouterConfig, t: Tables, ops: seq<Op>, i: nat, d: DiscoveryRequestId)
    requires Inv(cfg, t) && FreshRun(cfg, t, ops) && i < |ops| && d in Run(cfg, t, ops[..i]).discoveries
    ensures d !in Run(cfg, t, ops[..i + 1]).discoveries <==> RequestEndedAt(cfg, t, ops, i, d)
  {
    hide Inv, Run, Apply;
    StepOfRun(cfg, t, ops, i);
    RequestEnds(cfg, Run(cfg, t, ops[..i]), ops[i], d);
  }

  lemma GameEndsExactly(cfg: RouterConfig, t: Tables, ops: seq<Op>, i: nat, g: GameplaySessionId)
    requires Inv(cfg, t) && FreshRun(cfg, t, ops) && i < |ops| && g in Run(cfg, t, ops[..i]).gameplay
    ensures g !in Run(cfg, t, ops[..i + 1]).gameplay <==> GameEndedAt(cfg, t, ops, i, g)
  {
    hide Inv, Run, Apply;
    StepOfRun(cfg, t, ops, i);
    GameEnds(cfg, Run(cfg, t, ops[..i]), ops[i], g);
  }

  /** In no run does a registration, by whomever, end a game while the host session it runs on is live. */
  lemma RegistrationsSpareLiveGames(cfg: RouterConfig, ops: seq<Op>, i: nat, g: GameplaySessionId, h: HostSessionId)
    requires FreshRun(cfg, EMPTY, ops) && i < |ops| && ops[i].RegisterOp? && g in StateAt(cfg, ops, i).gameplay
    requires var t := StateAt(cfg, ops, i);
             Owns(t, t.gameplay[g].room, t.gameplay[g].hostPeer, h) && ops[i].now < t.hosts[h].expiresAt
    ensures var t, t' := StateAt(cfg, ops, i), StateAt(cfg, ops, i + 1);
            && g in t'.gameplay && t'.gameplay[g] == t.gameplay[g] && h in t'.hosts
  {
    hide Inv, Run, Apply, RegisterHost;
    EmptyOk(cfg);
    StepOfRun(cfg, EMPTY, ops, i);
    var t, op := StateAt(cfg, ops, i), ops[i];
    GameEnds(cfg, t, op, g);
    HostEnds(cfg, t, op, h);
    RegisterFrame(cfg, t, op);
  }

  /** A game that is gone ended at some step by one of its endings. */
  lemma {:induction false} GamesEndForAReason(cfg: RouterConfig, t: Tables, ops: seq<Op>, g: GameplaySessionId)
    requires Inv(cfg, t) && FreshRun(cfg, t, ops) && g in t.gameplay && g !in Run(cfg, t, ops).gameplay
    ensures exists i: nat :: GameEndedAt(cfg, t, ops, i, g)
  {
    hide Inv, Apply, EndsGame;
    var n := |ops| - 1;
    assert ops[..n + 1] == ops;
    if g in Run(cfg, t, ops[..n]).gameplay {
      GameEndsExactly(cfg, t, ops, n, g);
    } else {
      FreshPrefix(cfg, t, ops, n);
      GamesEndForAReason(cfg, t, ops[..n], g);
      var i: nat :| GameEndedAt(cfg, t, ops[..n], i, g);
      assert ops[..n][..i] == ops[..i];
      assert GameEndedAt(cfg, t, ops, i, g);
    }
  }
}
