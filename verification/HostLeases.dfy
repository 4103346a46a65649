/** Who keeps a host session or a game, and how: by heartbeats and datagrams that come in time, and by no
    other means. */
module HostLeases {
  import opened Protocol
  import opened RouterTables
  import opened RouterInvariant
  import opened RouterRuns
  import opened PeerLeases
  import opened LeaseRuns
  import opened RouterAnswers
  import opened RouteEndings

  // ---------------------------------------------------------------- what renews a host session

  predicate Live(t: Tables, h: HostSessionId, now: Time) {
    h in t.hosts && now < t.hosts[h].expiresAt
  }

  /** A step renews a host session that is there exactly if it is a heartbeat for it, or its owner registers
      once more, and the lease still runs. */
  lemma RenewedExactly(cfg: RouterConfig, t: Tables, op: Op, h: HostSessionId)
    requires Inv(cfg, t) && DrawsFresh(t, op) && h in t.hosts
    ensures Renews(cfg, t, op, h)
            <==> || (op.HeartbeatOp? && op.host == h && Live(t, h, op.now))
                 || (op.RegisterOp? && Owns(t, op.room, op.peer, h) && Live(t, h, op.now))
  {
    hide Inv, RegisterHost, HeartbeatHost;
    if op.HeartbeatOp? {
      HeartbeatAnswers(cfg, t, op.host, op.now);
    } else if op.RegisterOp? {
      HostOwner(cfg, t, h);
      RegisterRenews(cfg, t, op, h);
    }
  }

  lemma RegisterRenews(cfg: RouterConfig, t: Tables, op: Op, h: HostSessionId)
    requires Inv(cfg, t) && op.RegisterOp? && DrawsFresh(t, op) && h in t.hosts
    ensures RegisterHost(cfg, t, op.room, op.peer, op.newHost, op.now).result == Ok(h)
            <==> Owns(t, op.room, op.peer, h) && Live(t, h, op.now)
  {
    hide Inv, RegisterHost;
    HostOwner(cfg, t, h);
    if RegisterHost(cfg, t, op.room, op.peer, op.newHost, op.now).result.Ok? {
      RegisterRefuses(cfg, t, op.room, op.peer, op.newHost, op.now);
      if NoLiveSession(t, op.room, op.peer, op.now) {
        RegisterReplacesExpired(cfg, t, op.room, op.peer, op.newHost, op.now);
      } else {
        var k :| k in t.hosts && Owns(t, op.room, op.peer, k) && t.hosts[k].expiresAt > op.now;
        RegisterKeepsLiveSession(cfg, t, op.room, op.peer, k, op.newHost, op.now);
      }
    } else if Owns(t, op.room, op.peer, h) {
      RegisterRefuses(cfg, t, op.room, op.peer, op.newHost, op.now);
    }
  }

  // ---------------------------------------------------------------- an expired session stays expired

  predicate NotBefore(op: Op, time: Time) {
    op.HeartbeatOp? || op.RegisterOp? ==> time <= op.now
  }

  predicate DrawsAnother(op: Op, h: HostSessionId) {
    op.RegisterOp? ==> op.newHost != h
  }

  /** Whoever tries, once its lease is over a host session is never renewed: it stays as it is until it goes. */
  lemma {:induction false} ExpiredStaysExpired(cfg: RouterConfig, t: Tables, ops: seq<Op>, h: HostSessionId)
    requires Inv(cfg, t) && FreshRun(cfg, t, ops) && h in t.hosts
    requires forall op :: op in ops ==> NotBefore(op, t.hosts[h].expiresAt) && DrawsAnother(op, h)
    ensures h in Run(cfg, t, ops).hosts ==> Run(cfg, t, ops).hosts[h] == t.hosts[h]
  {
    hide Inv, Apply;
    if ops != [] {
      var n := |ops| - 1;
      var s := Run(cfg, t, ops[..n]);
      FreshPrefix(cfg, t, ops, n);
      ExpiredStaysExpired(cfg, t, ops[..n], h);
      RunOk(cfg, t, ops[..n]);
      assert ops[n] in ops;
      if h in s.hosts {
        ExpiredStep(cfg, s, ops[n], h);
      } else {
        GoneHostStaysGone(cfg, s, ops[n], h);
      }
    }
  }

  lemma ExpiredStep(cfg: RouterConfig, t: Tables, op: Op, h: HostSessionId)
    requires Inv(cfg, t) && DrawsFresh(t, op) && h in t.hosts && NotBefore(op, t.hosts[h].expiresAt)
    ensures h in Apply(cfg, t, op).hosts ==> Apply(cfg, t, op).hosts[h] == t.hosts[h]
  {
    hide Inv, Apply, Renews;
    RenewedExactly(cfg, t, op, h);
    if h in Apply(cfg, t, op).hosts {
      HostStep(cfg, t, op, h);
    }
  }

  lemma GoneHostStaysGone(cfg: RouterConfig, t: Tables, op: Op, h: HostSessionId)
    requires Inv(cfg, t) && DrawsFresh(t, op) && h !in t.hosts && DrawsAnother(op, h)
    ensures h !in Apply(cfg, t, op).hosts
  {
    hide Inv, Apply, RegisterHost, HeartbeatHost;
    if h in Apply(cfg, t, op).hosts {
      HostStep(cfg, t, op, h);
      if op.HeartbeatOp? {
        HeartbeatAnswers(cfg, t, op.host, op.now);
      } else {
        RegisterGivesOwnOrNew(cfg, t, op);
      }
    }
  }

  lemma RegisterGivesOwnOrNew(cfg: RouterConfig, t: Tables, op: Op)
    requires op.RegisterOp?
    ensures var result := RegisterHost(cfg, t, op.room, op.peer, op.newHost, op.now).result;
            result.Ok? ==> result.value == op.newHost || result.value in t.hosts
  {
    hide MemberState, WithoutHosts, HostSessions;
  }

  // ---------------------------------------------------------------- steady heartbeats

  /** A heartbeat for host session `h`, or its owner registering again. */
  predicate IsBeat(op: Op, room: RoomId, peer: PeerId, h: HostSessionId) {
    (op.HeartbeatOp? && op.host == h) || (op.RegisterOp? && op.room == room && op.peer == peer)
  }

  /** Activity of the peer: a datagram, or a resume. */
  predicate IsActivity(op: Op, room: RoomId, peer: PeerId) {
    (op.SeenOp? && op.peer == peer) || (op.ResumeOp? && op.room == room && op.peer == peer)
  }

  /** When the last heartbeat came, `at` if none did. */
  function LastBeat(at: Time, ops: seq<Op>, room: RoomId, peer: PeerId, h: HostSessionId): Time {
    if ops == [] then at
    else if IsBeat(ops[|ops| - 1], room, peer, h) then ops[|ops| - 1].now
    else LastBeat(at, ops[..|ops| - 1], room, peer, h)
  }

  function LastActive(at: Time, ops: seq<Op>, room: RoomId, peer: PeerId): Time {
    if ops == [] then at
    else if IsActivity(ops[|ops| - 1], room, peer) then ops[|ops| - 1].now
    else LastActive(at, ops[..|ops| - 1], room, peer)
  }

  /** The peer stays in its room, and every sweep comes less than a peer lease after its last activity. */
  predicate StaysActive(cfg: RouterConfig, at: Time, ops: seq<Op>, room: RoomId, peer: PeerId) {
    ops != [] ==>
      var before, last := ops[..|ops| - 1], ops[|ops| - 1];
      && StaysActive(cfg, at, before, room, peer)
      && last != LeaveOp(room, peer)
      && (last.SweepOp? ==> last.now < LastActive(at, before, room, peer) + cfg.peerTtl)
  }

  /** Nobody unregisters the session, and every heartbeat and sweep comes less than a host lease after the
      heartbeat before. */
  predicate BeatsSteadily(cfg: RouterConfig, at: Time, ops: seq<Op>, room: RoomId, peer: PeerId, h: HostSessionId) {
    ops != [] ==>
      var before, last := ops[..|ops| - 1], ops[|ops| - 1];
      && BeatsSteadily(cfg, at, before, room, peer, h)
      && last != UnregisterOp(h)
      && (IsBeat(last, room, peer, h) || last.SweepOp? ==> last.now < LastBeat(at, before, room, peer, h) + cfg.hostTtl)
  }

  predicate ConnectedSince(t: Tables, room: RoomId, peer: PeerId, at: Time) {
    IsIn(t, room, peer) && t.peers[peer].disconnectedAt.None? && t.peers[peer].lastSeen == at
  }

  predicate HostedSince(cfg: RouterConfig, t: Tables, room: RoomId, peer: PeerId, h: HostSessionId, at: Time) {
    Owns(t, room, peer, h) && t.hosts[h].expiresAt == at + cfg.hostTtl
  }

  lemma ActiveStep(cfg: RouterConfig, t: Tables, op: Op, room: RoomId, peer: PeerId, at: Time)
    requires Inv(cfg, t) && DrawsFresh(t, op) && ConnectedSince(t, room, peer, at)
    requires op != LeaveOp(room, peer) && (op.SweepOp? ==> op.now < at + cfg.peerTtl)
    ensures ConnectedSince(Apply(cfg, t, op), room, peer, if IsActivity(op, room, peer) then op.now else at)
  {
    hide Inv, Apply;
    PeerEvolvesAlone(cfg, t, op, peer);
    ApplyOk(cfg, t, op);
    assert PeerAfter(cfg, t.peers[peer], op, peer)
           == Some(if IsActivity(op, room, peer) then t.peers[peer].(lastSeen := op.now) else t.peers[peer]);
    PeerLeaseOk(cfg, Apply(cfg, t, op), peer);
  }

  /** A member stays connected as long as it is active in time. */
  lemma {:induction false} ActiveMemberStays(cfg: RouterConfig, t: Tables, ops: seq<Op>, room: RoomId, peer: PeerId, at: Time)
    requires Inv(cfg, t) && FreshRun(cfg, t, ops) && ConnectedSince(t, room, peer, at) && StaysActive(cfg, at, ops, room, peer)
    ensures ConnectedSince(Run(cfg, t, ops), room, peer, LastActive(at, ops, room, peer))
  {
    hide Inv, Apply;
    if ops != [] {
      var n := |ops| - 1;
      FreshPrefix(cfg, t, ops, n);
      ActiveMemberStays(cfg, t, ops[..n], room, peer, at);
      RunOk(cfg, t, ops[..n]);
      ActiveStep(cfg, Run(cfg, t, ops[..n]), ops[n], room, peer, LastActive(at, ops[..n], room, peer));
    }
  }

  lemma BeatStep(cfg: RouterConfig, t: Tables, op: Op, room: RoomId, peer: PeerId, h: HostSessionId, active: Time, beat: Time)
    requires Inv(cfg, t) && DrawsFresh(t, op) && ConnectedSince(t, room, peer, active) && HostedSince(cfg, t, room, peer, h, beat)
    requires op != LeaveOp(room, peer) && (op.SweepOp? ==> op.now < active + cfg.peerTtl)
    requires op != UnregisterOp(h) && (IsBeat(op, room, peer, h) || op.SweepOp? ==> op.now < beat + cfg.hostTtl)
    ensures HostedSince(cfg, Apply(cfg, t, op), room, peer, h, if IsBeat(op, room, peer, h) then op.now else beat)
  {
    hide Inv, Apply, Renews;
    assert !EndsHost(cfg, t, op, h);
    HostEnds(cfg, t, op, h);
    RenewedExactly(cfg, t, op, h);
    HostStep(cfg, t, op, h);
    SameOwner(cfg, t, op, room, peer, h);
  }

  /** While it is there, a host session belongs to the member it was registered for. */
  lemma SameOwner(cfg: RouterConfig, t: Tables, op: Op, room: RoomId, peer: PeerId, h: HostSessionId)
    requires Inv(cfg, t) && DrawsFresh(t, op) && Owns(t, room, peer, h) && h in Apply(cfg, t, op).hosts
    ensures Owns(Apply(cfg, t, op), room, peer, h)
  {
    hide Inv, RegisterHost, HeartbeatHost;
    match op {
      case RegisterOp(_, _, _, _) =>
        RegisterRefuses(cfg, t, op.room, op.peer, op.newHost, op.now);
        if RegisterHost(cfg, t, op.room, op.peer, op.newHost, op.now).result.Ok? {
          RegisterKeepsOthers(cfg, t, op, h);
        }
      case HeartbeatOp(host, now) => HeartbeatAnswers(cfg, t, host, now);
      case _ => OtherOpsKeepHosts(cfg, t, op, h);
    }
  }

  lemma RegisterKeepsOthers(cfg: RouterConfig, t: Tables, op: Op, h: HostSessionId)
    requires Inv(cfg, t) && op.RegisterOp? && DrawsFresh(t, op) && h in t.hosts && h in Apply(cfg, t, op).hosts
    requires RegisterHost(cfg, t, op.room, op.peer, op.newHost, op.now).result.Ok?
    ensures SameHost(Apply(cfg, t, op).hosts[h], t.hosts[h])
  {
    hide Inv, RegisterHost;
    RegisterRefuses(cfg, t, op.room, op.peer, op.newHost, op.now);
    if NoLiveSession(t, op.room, op.peer, op.now) {
      RegisterReplacesExpired(cfg, t, op.room, op.peer, op.newHost, op.now);
    } else {
      var k :| k in t.hosts && Owns(t, op.room, op.peer, k) && t.hosts[k].expiresAt > op.now;
      RegisterKeepsLiveSession(cfg, t, op.room, op.peer, k, op.newHost, op.now);
    }
  }

  /** A connected member that sends its heartbeats less than a lease apart keeps its host session, through
      every sweep and whatever else happens. */
  lemma {:induction false} SteadyHostStays(cfg: RouterConfig, t: Tables, ops: seq<Op>, room: RoomId, peer: PeerId, h: HostSessionId,
                                           active: Time, beat: Time)
    requires Inv(cfg, t) && FreshRun(cfg, t, ops)
    requires ConnectedSince(t, room, peer, active) && HostedSince(cfg, t, room, peer, h, beat)
    requires StaysActive(cfg, active, ops, room, peer) && BeatsSteadily(cfg, beat, ops, room, peer, h)
    ensures HostedSince(cfg, Run(cfg, t, ops), room, peer, h, LastBeat(beat, ops, room, peer, h))
  {
    hide Inv, Apply, ConnectedSince, HostedSince;
    if ops != [] {
      var n := |ops| - 1;
      FreshPrefix(cfg, t, ops, n);
      SteadyHostStays(cfg, t, ops[..n], room, peer, h, active, beat);
      ActiveMemberStays(cfg, t, ops[..n], room, peer, active);
      RunOk(cfg, t, ops[..n]);
      BeatStep(cfg, Run(cfg, t, ops[..n]), ops[n], room, peer, h, LastActive(active, ops[..n], room, peer),
               LastBeat(beat, ops[..n], room, peer, h));
    }
  }

  // ---------------------------------------------------------------- games in use

  /** A datagram of game `g` from one of its ends. */
  predicate IsPlay(op: Op, g: GameplaySessionId, client: PeerId, hostPeer: PeerId) {
    op.RouteOp? && op.session == g && (op.peer == client || op.peer == hostPeer)
  }

  function LastPlay(at: Time, ops: seq<Op>, g: GameplaySessionId, client: PeerId, hostPeer: PeerId): Time {
    if ops == [] then at
    else if IsPlay(ops[|ops| - 1], g, client, hostPeer) then ops[|ops| - 1].now
    else LastPlay(at, ops[..|ops| - 1], g, client, hostPeer)
  }

  /** Nobody removes the game or draws its id again, and every datagram and sweep comes less than an idle
      lease after the datagram before. */
  predicate PlaysSteadily(cfg: RouterConfig, at: Time, ops: seq<Op>, g: GameplaySessionId, client: PeerId, hostPeer: PeerId) {
    ops != [] ==>
      var before, last := ops[..|ops| - 1], ops[|ops| - 1];
      && PlaysSteadily(cfg, at, before, g, client, hostPeer)
      && last != DropSessionOp(g) && (last.SelectOp? ==> last.newSession != g)
      && (IsPlay(last, g, client, hostPeer) || last.SweepOp? ==>
            last.now < LastPlay(at, before, g, client, hostPeer) + cfg.gameplayIdleTtl)
  }

  predicate PlayedSince(cfg: RouterConfig, t: Tables, room: RoomId, g: GameplaySessionId, client: PeerId, hostPeer: PeerId, at: Time) {
    && g in t.gameplay && t.gameplay[g].room == room && t.gameplay[g].client == client && t.gameplay[g].hostPeer == hostPeer
    && t.gameplay[g].expiresAt == at + cfg.gameplayIdleTtl
  }

  ghost predicate OutlivesStep(cfg: RouterConfig, t: Tables, op: Op, h: HostSessionId) {
    h in Apply(cfg, t, op).hosts
  }

  lemma PlayStep(cfg: RouterConfig, t: Tables, op: Op, room: RoomId, client: PeerId, hostPeer: PeerId, h: HostSessionId,
                 g: GameplaySessionId, active: Time, play: Time)
    requires Inv(cfg, t) && DrawsFresh(t, op) && ConnectedSince(t, room, client, active)
    requires Owns(t, room, hostPeer, h) && OutlivesStep(cfg, t, op, h) && PlayedSince(cfg, t, room, g, client, hostPeer, play)
    requires op != LeaveOp(room, client) && (op.SweepOp? ==> op.now < active + cfg.peerTtl)
    requires op != DropSessionOp(g) && (op.SelectOp? ==> op.newSession != g)
    requires IsPlay(op, g, client, hostPeer) || op.SweepOp? ==> op.now < play + cfg.gameplayIdleTtl
    ensures PlayedSince(cfg, Apply(cfg, t, op), room, g, client, hostPeer, if IsPlay(op, g, client, hostPeer) then op.now else play)
  {
    hide Inv, Apply, EndsHost, RouteGameplay, SelectHost;
    HostEnds(cfg, t, op, h);
    var k := GameEndings(cfg, t, op, g);
    GameEnds(cfg, t, op, g);
    SessionStep(cfg, t, op, g);
    OriginIsTheSelectedHost(cfg, t, op, g);
    if op.RouteOp? {
      RouteAnswers(cfg, t, op.session, op.peer, op.now);
    }
  }

  /** The game between a connected client and a connected, steadily renewed host goes on as long as either of
      the two sends datagrams in time. */
  lemma {:induction false} GameInUseStays(cfg: RouterConfig, t: Tables, ops: seq<Op>, room: RoomId, client: PeerId, hostPeer: PeerId,
                                          h: HostSessionId, g: GameplaySessionId, clientActive: Time, hostActive: Time, beat: Time, play: Time)
    requires Inv(cfg, t) && FreshRun(cfg, t, ops)
    requires ConnectedSince(t, room, client, clientActive) && ConnectedSince(t, room, hostPeer, hostActive)
    requires HostedSince(cfg, t, room, hostPeer, h, beat) && PlayedSince(cfg, t, room, g, client, hostPeer, play)
    requires StaysActive(cfg, clientActive, ops, room, client) && StaysActive(cfg, hostActive, ops, room, hostPeer)
    requires BeatsSteadily(cfg, beat, ops, room, hostPeer, h) && PlaysSteadily(cfg, play, ops, g, client, hostPeer)
    ensures PlayedSince(cfg, Run(cfg, t, ops), room, g, client, hostPeer, LastPlay(play, ops, g, client, hostPeer))
  {
    hide Inv, Apply, ConnectedSince, PlayedSince;
    if ops != [] {
      var n := |ops| - 1;
      FreshPrefix(cfg, t, ops, n);
      GameInUseStays(cfg, t, ops[..n], room, client, hostPeer, h, g, clientActive, hostActive, beat, play);
      ActiveMemberStays(cfg, t, ops[..n], room, client, clientActive);
      SteadyHostStays(cfg, t, ops[..n], room, hostPeer, h, hostActive, beat);
      SteadyHostStays(cfg, t, ops, room, hostPeer, h, hostActive, beat);
      RunOk(cfg, t, ops[..n]);
      PlayStep(cfg, Run(cfg, t, ops[..n]), ops[n], room, client, hostPeer, h, g, LastActive(clientActive, ops[..n], room, client),
               LastPlay(play, ops[..n], g, client, hostPeer));
    }
  }
}
