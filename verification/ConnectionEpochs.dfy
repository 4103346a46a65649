/** Connection epochs over runs of the server: an epoch that a resume has retired is never accepted again. */
module ConnectionEpochs {
  import opened Protocol
  import opened Codec
  import opened RouterTables
  import opened RouterInvariant
  import opened RouterRuns
  import opened PeerLeases
  import opened RateLimiter
  import opened Relay
  import opened ServerRuns

  lemma ForwardKeepsPeers(sc: ServerConfig, t: Tables, tracker: Tracker, peer: PeerId, envelope: RelayEnvelope, now: Time)
    ensures Forward(sc, t, tracker, peer, envelope, now).tables.peers == t.peers
  {
    hide ActionDatagrams, Dispatch, Disposition, TrackerAfter;
    match envelope.message {
      case DiscoveryRequest(request, port, payload) => DispatchedDiscovery(sc.router, t, peer, request, port, payload, now);
      case DiscoveryResponse(request, host, port, payload) => DispatchedResponse(sc.router, t, host, request, port, payload, now);
      case GameplayPacket(session, port, payload) => DispatchedGameplay(sc.router, t, session, peer, port, payload, now);
      case _ =>
    }
  }

  /** A datagram changes nothing about who is a member, nor any epoch. */
  lemma HandleKeepsMembers(sc: ServerConfig, s: ServerState, source: SocketAddr, packet: seq<Byte>, arrival: Time, now: Time)
    ensures var peers := Handle(sc, s, source, packet, arrival, now).state.tables.peers;
            && peers.Keys == s.tables.peers.Keys
            && forall p :: p in peers ==> Holds(s.tables.peers[p], peers[p]) && peers[p].epoch == s.tables.peers[p].epoch
  {
    hide Decode, Forward, Passes, EntriesAfter;
    var envelope := Decode(packet);
    if envelope.Ok? && source.V4? && PeerWithIp(s.tables.peers, source.ip).Some? {
      var peer := PeerWithIp(s.tables.peers, source.ip).value;
      ForwardKeepsPeers(sc, MarkPeerSeen(s.tables, peer, now).tables, s.tracker, peer, envelope.value, now);
    }
  }

  /** Event `k` takes the peer out of the tables: it leaves, or a sweep finds lease and grace both over. */
  ghost predicate ReleasedBy(sc: ServerConfig, s: ServerState, events: seq<ServerEvent>, k: int, peer: PeerId) {
    && 0 <= k < |events| && events[k].Control?
    && peer in ServerRun(sc, s, events[..k]).tables.peers && peer !in ServerRun(sc, s, events[..k + 1]).tables.peers
    && MayGo(sc.router, ServerRun(sc, s, events[..k]).tables.peers[peer], events[k].op, peer)
  }

  ghost predicate StillHolds(sc: ServerConfig, s: ServerState, events: seq<ServerEvent>, peer: PeerId)
    requires peer in s.tables.peers
  {
    var t := ServerRun(sc, s, events).tables;
    peer in t.peers && Holds(s.tables.peers[peer], t.peers[peer])
  }

  /** Until it is released, a member keeps its room and address, and its epoch never goes back. */
  lemma {:induction false} MembershipLasts(sc: ServerConfig, s: ServerState, events: seq<ServerEvent>, peer: PeerId)
    requires Inv(sc.router, s.tables) && FreshEvents(sc, s, events) && peer in s.tables.peers
    ensures StillHolds(sc, s, events, peer) || exists k :: ReleasedBy(sc, s, events, k, peer)
  {
    hide Inv, Handle, Apply;
    if events != [] {
      var n := |events| - 1;
      FreshEventsPrefix(sc, s, events, n);
      MembershipLasts(sc, s, events[..n], peer);
      if k :| ReleasedBy(sc, s, events[..n], k, peer) {
        assert events[..n][..k] == events[..k] && events[..n][..k + 1] == events[..k + 1];
        assert ReleasedBy(sc, s, events, k, peer);
      } else {
        LastEventHolds(sc, s, events, peer);
      }
    }
  }

  lemma LastEventHolds(sc: ServerConfig, s: ServerState, events: seq<ServerEvent>, peer: PeerId)
    requires Inv(sc.router, s.tables) && FreshEvents(sc, s, events) && peer in s.tables.peers && events != []
    requires StillHolds(sc, s, events[..|events| - 1], peer)
    ensures StillHolds(sc, s, events, peer) || ReleasedBy(sc, s, events, |events| - 1, peer)
  {
    hide Inv, Handle, Apply;
    var n := |events| - 1;
    var before := ServerRun(sc, s, events[..n]);
    assert events[..n + 1] == events;
    match events[n] {
      case Datagram(source, packet, arrival, now) =>
        HandleKeepsMembers(sc, before, source, packet, arrival, now);
      case Control(op) =>
        FreshEventsPrefix(sc, s, events, n);
        ServerRunOk(sc, s, events[..n]);
        PeerEvolvesAlone(sc.router, before.tables, op, peer);
        PeerLeaseOk(sc.router, before.tables, peer);
        StepHolds(sc.router, before.tables.peers[peer], op, peer);
    }
  }

  // ---------------------------------------------------------------- what is accepted

  function EpochIn(packet: seq<Byte>): U64
    requires Decode(packet).Ok?
  {
    Decode(packet).value.meta.connectionEpoch
  }

  /** A datagram that gets an answer is well formed, from a member's address, and of epoch 0 or that member's. */
  lemma AcceptedEpochIsCurrent(sc: ServerConfig, s: ServerState, source: SocketAddr, packet: seq<Byte>, arrival: Time, now: Time)
    requires Handle(sc, s, source, packet, arrival, now).result.Ok?
    ensures Decode(packet).Ok? && source.V4? && PeerWithIp(s.tables.peers, source.ip).Some?
    ensures EpochIn(packet) == 0 || EpochIn(packet) == s.tables.peers[PeerWithIp(s.tables.peers, source.ip).value].epoch
  {
  }

  lemma HolderOf(cfg: RouterConfig, t: Tables, peer: PeerId)
    requires Inv(cfg, t) && peer in t.peers
    ensures PeerWithIp(t.peers, t.peers[peer].ip) == Some(peer)
  {
    hide Inv;
    InvPeers(cfg, t);
    assert HasIp(t.peers, peer, t.peers[peer].ip);
    var found := PeerWithIp(t.peers, t.peers[peer].ip);
    assert HasIp(t.peers, found.value, t.peers[peer].ip);
  }

  /** Of two datagrams accepted from one member's address, the later has no smaller non-zero epoch. */
  lemma AcceptedEpochsRise(sc: ServerConfig, s: ServerState, events: seq<ServerEvent>, peer: PeerId, source: SocketAddr,
                           first: seq<Byte>, second: seq<Byte>, at: (Time, Time), later: (Time, Time))
    requires Inv(sc.router, s.tables) && FreshEvents(sc, s, events) && peer in s.tables.peers
    requires source.V4? && source.ip == s.tables.peers[peer].ip
    requires Handle(sc, s, source, first, at.0, at.1).result.Ok?
    requires Handle(sc, ServerRun(sc, s, events), source, second, later.0, later.1).result.Ok?
    requires !exists k :: ReleasedBy(sc, s, events, k, peer)
    ensures Decode(first).Ok? && Decode(second).Ok? && (EpochIn(second) == 0 || EpochIn(first) <= EpochIn(second))
  {
    hide Inv, Handle, Apply, Decode;
    MembershipLasts(sc, s, events, peer);
    ServerRunOk(sc, s, events);
    HolderOf(sc.router, s.tables, peer);
    HolderOf(sc.router, ServerRun(sc, s, events).tables, peer);
    AcceptedEpochIsCurrent(sc, s, source, first, at.0, at.1);
    AcceptedEpochIsCurrent(sc, ServerRun(sc, s, events), source, second, later.0, later.1);
  }

  /** A resume of a suspended member succeeds within its grace and moves its epoch on, short of the last one. */
  lemma ResumeMovesEpoch(cfg: RouterConfig, t: Tables, peer: PeerId, now: Time)
    requires Inv(cfg, t) && peer in t.peers && t.peers[peer].disconnectedAt.Some?
    ensures var p := t.peers[peer];
            var step := ResumePeer(cfg, t, p.room, peer, now);
            && (step.result.Ok? <==> now < p.disconnectedAt.value + cfg.peerGraceTtl)
            && (step.result.Ok? ==> peer in step.tables.peers && IsMember(step.tables.peers, p.room, peer, p.ip)
                                    && step.tables.peers[peer].disconnectedAt.None?
                                    && (p.epoch < U64_MAX ==> p.epoch < step.tables.peers[peer].epoch))
  {
    hide Inv;
  }

  /** A successful resume answers with a later epoch if and only if the peer was suspended, short of the
      last epoch; a peer that is still connected keeps the one it has. */
  lemma ResumeRaisesEpochExactly(cfg: RouterConfig, t: Tables, room: RoomId, peer: PeerId, now: Time)
    requires peer in t.peers && ResumePeer(cfg, t, room, peer, now).result.Ok?
    ensures var p, answer := t.peers[peer], ResumePeer(cfg, t, room, peer, now).result.value.epoch;
            && (p.epoch < answer <==> p.disconnectedAt.Some? && p.epoch < U64_MAX)
            && p.epoch <= answer
            && (p.disconnectedAt.None? ==> answer == p.epoch)
  {
  }

  /** After a suspended member has resumed, nothing tagged with its earlier non-zero epochs is accepted
      from its address, for as long as its membership lasts. */
  lemma RetiredEpochsAreRefused(sc: ServerConfig, s: ServerState, peer: PeerId, resumedAt: Time, events: seq<ServerEvent>,
                                source: SocketAddr, packet: seq<Byte>, arrival: Time, now: Time)
    requires Inv(sc.router, s.tables) && peer in s.tables.peers && s.tables.peers[peer].disconnectedAt.Some?
    requires ResumePeer(sc.router, s.tables, s.tables.peers[peer].room, peer, resumedAt).result.Ok?
    requires var s1 := Next(sc, s, Control(ResumeOp(s.tables.peers[peer].room, peer, resumedAt)));
             FreshEvents(sc, s1, events) && !exists k :: ReleasedBy(sc, s1, events, k, peer)
    requires source.V4? && source.ip == s.tables.peers[peer].ip
    requires Decode(packet).Ok? && 0 < EpochIn(packet) <= s.tables.peers[peer].epoch < U64_MAX
    ensures var s1 := Next(sc, s, Control(ResumeOp(s.tables.peers[peer].room, peer, resumedAt)));
            Handle(sc, ServerRun(sc, s1, events), source, packet, arrival, now).result.Err?
  {
    hide Inv;
    var op := ResumeOp(s.tables.peers[peer].room, peer, resumedAt);
    var s1 := Next(sc, s, Control(op));
    assert s1.tables == ResumePeer(sc.router, s.tables, op.room, peer, resumedAt).tables;
    hide Handle, Apply, Decode;
    ResumePeerOk(sc.router, s.tables, op.room, peer, resumedAt);
    ResumeMovesEpoch(sc.router, s.tables, peer, resumedAt);
    MembershipLasts(sc, s1, events, peer);
    ServerRunOk(sc, s1, events);
    HolderOf(sc.router, ServerRun(sc, s1, events).tables, peer);
    if Handle(sc, ServerRun(sc, s1, events), source, packet, arrival, now).result.Ok? {
      AcceptedEpochIsCurrent(sc, ServerRun(sc, s1, events), source, packet, arrival, now);
    }
  }
}
