/** The deadline for silent peers, on the server as a whole: datagrams, control plane and ticks together. */
module SilentPeers {
  import opened Protocol
  import opened RouterTables
  import opened RouterInvariant
  import opened RouterRuns
  import opened PeerLeases
  import opened Relay
  import opened ServerRuns
  import opened ConnectionEpochs
  import opened ServerAsRouter

  /** Nothing arrives from the peer's address, and the control plane neither resumes nor re-admits it. */
  predicate Quiet(e: ServerEvent, peer: PeerId, ip: VirtualIp) {
    match e
    case Datagram(source, _, _, _) => source.V4? ==> source.ip != ip
    case Control(op) => Silent(op, peer)
  }

  /** If the peer is still there, it is still under its address. */
  predicate AtOrGone(peers: Peers, peer: PeerId, ip: VirtualIp) {
    peer in peers ==> peers[peer].ip == ip
  }

  lemma QuietStaysPut(sc: ServerConfig, s: ServerState, e: ServerEvent, peer: PeerId, ip: VirtualIp)
    requires Inv(sc.router, s.tables) && AtOrGone(s.tables.peers, peer, ip) && Quiet(e, peer, ip)
    ensures AtOrGone(Next(sc, s, e).tables.peers, peer, ip)
  {
    hide Inv, Handle, Apply;
    match e {
      case Datagram(source, packet, arrival, now) =>
        HandleKeepsMembers(sc, s, source, packet, arrival, now);
      case Control(op) =>
        if peer in s.tables.peers {
          PeerEvolvesAlone(sc.router, s.tables, op, peer);
          PeerLeaseOk(sc.router, s.tables, peer);
          StepHolds(sc.router, s.tables.peers[peer], op, peer);
        } else {
          NobodyElseAddsPeer(sc.router, s.tables, op, peer);
        }
    }
  }

  lemma QuietOps(sc: ServerConfig, s: ServerState, e: ServerEvent, peer: PeerId, ip: VirtualIp, op: Op)
    requires AtOrGone(s.tables.peers, peer, ip) && Quiet(e, peer, ip) && op in EventOps(sc, s, e)
    ensures Silent(op, peer) && (e.Datagram? ==> !op.SweepOp?)
  {
  }

  /** The times of the sweeps among the events. */
  function TickTimes(events: seq<ServerEvent>): seq<Time> {
    if events == [] then []
    else
      var last := events[|events| - 1];
      TickTimes(events[..|events| - 1]) + (if last.Control? && last.op.SweepOp? then [last.op.now] else [])
  }

  lemma {:induction false} SweepTimesInParts(first: seq<Op>, second: seq<Op>)
    ensures SweepTimes(first + second) == SweepTimes(first) + SweepTimes(second)
  {
    if second == [] {
      assert first + second == first;
    } else {
      var n := |second| - 1;
      SweepTimesInParts(first, second[..n]);
      assert (first + second)[..|first| + n] == first + second[..n];
    }
  }

  lemma {:induction false} NoSweeps(ops: seq<Op>)
    requires forall op :: op in ops ==> !op.SweepOp?
    ensures SweepTimes(ops) == []
  {
    if ops != [] {
      NoSweeps(ops[..|ops| - 1]);
    }
  }

  lemma EventSweepTimes(sc: ServerConfig, s: ServerState, e: ServerEvent, peer: PeerId, ip: VirtualIp)
    requires AtOrGone(s.tables.peers, peer, ip) && Quiet(e, peer, ip)
    ensures SweepTimes(EventOps(sc, s, e)) == if e.Control? && e.op.SweepOp? then [e.op.now] else []
  {
    var ops := EventOps(sc, s, e);
    if e.Control? {
      assert ops == [e.op] && ops[..0] == [];
      assert SweepTimes(ops[..0]) == [];
    } else {
      forall op | op in ops
        ensures !op.SweepOp?
      {
        QuietOps(sc, s, e, peer, ip, op);
      }
      NoSweeps(ops);
    }
  }

  lemma {:induction false} QuietRun(sc: ServerConfig, s: ServerState, events: seq<ServerEvent>, peer: PeerId, ip: VirtualIp)
    requires Inv(sc.router, s.tables) && FreshEvents(sc, s, events) && AtOrGone(s.tables.peers, peer, ip)
    requires forall i :: 0 <= i < |events| ==> Quiet(events[i], peer, ip)
    ensures AtOrGone(ServerRun(sc, s, events).tables.peers, peer, ip)
    ensures forall op :: op in ServerOps(sc, s, events) ==> Silent(op, peer)
    ensures SweepTimes(ServerOps(sc, s, events)) == TickTimes(events)
  {
    hide Inv, Next, EventOps, Silent;
    if events != [] {
      var n := |events| - 1;
      var before := ServerRun(sc, s, events[..n]);
      FreshEventsPrefix(sc, s, events, n);
      QuietRun(sc, s, events[..n], peer, ip);
      ServerRunOk(sc, s, events[..n]);
      QuietStaysPut(sc, before, events[n], peer, ip);
      forall op | op in EventOps(sc, before, events[n])
        ensures Silent(op, peer)
      {
        QuietOps(sc, before, events[n], peer, ip, op);
      }
      EventSweepTimes(sc, before, events[n], peer, ip);
      SweepTimesInParts(ServerOps(sc, s, events[..n]), EventOps(sc, before, events[n]));
    }
  }

  /** With sweeps at most `d` apart, a peer that goes quiet is gone from every table of the server by its
      last activity plus lease plus grace plus two sweep periods, whatever else arrives meanwhile. */
  lemma ServerForgetsQuietPeer(sc: ServerConfig, s: ServerState, events: seq<ServerEvent>, peer: PeerId, d: nat, now: Time)
    requires Inv(sc.router, s.tables) && FreshEvents(sc, s, events)
    requires peer in s.tables.peers && s.tables.peers[peer].disconnectedAt.None?
    requires forall i :: 0 <= i < |events| ==> Quiet(events[i], peer, s.tables.peers[peer].ip)
    requires 0 < d && Regular(d, s.tables.peers[peer].lastSeen, TickTimes(events), now)
    requires s.tables.peers[peer].lastSeen + sc.router.peerTtl + sc.router.peerGraceTtl + 2 * d <= now
    ensures GoneEverywhere(ServerRun(sc, s, events).tables, peer)
  {
    hide Inv, Run, ServerRun, ServerOps, FreshRun, FreshEvents;
    QuietRun(sc, s, events, peer, s.tables.peers[peer].ip);
    ServerRunIsRun(sc, s, events);
    GoneByDeadline(sc.router, s.tables, ServerOps(sc, s, events), peer, d, now);
  }
}
