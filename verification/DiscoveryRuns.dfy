/** Discovery over whole runs: a reply goes to the peer that asked, and a request comes back as a reply. */
module DiscoveryRuns {
  import opened Protocol
  import opened RouterTables
  import opened RouterInvariant
  import opened RouterRuns
  import opened Relay

  predicate Asks(cfg: RouterConfig, t: Tables, op: Op) {
    op.DiscoverOp? && BeginDiscovery(cfg, t, op.room, op.peer, op.request, op.port, op.now).result.Ok?
  }

  predicate Pending(cfg: RouterConfig, t: Tables, op: Op) {
    && op.DiscoverOp? && op.request in t.discoveries
    && t.discoveries[op.request] == Discovery(op.room, op.peer, op.port, op.now + cfg.discoveryTtl)
  }

  lemma OtherOpsKeepRequests(cfg: RouterConfig, t: Tables, op: Op, request: DiscoveryRequestId)
    requires !op.DiscoverOp? && request in Apply(cfg, t, op).discoveries
    ensures request in t.discoveries && Apply(cfg, t, op).discoveries[request] == t.discoveries[request]
  {
    hide Apply;
    if Removes(op) {
      RemovalFrame(cfg, t, op);
    } else if OnMembership(op) {
      MembershipFrame(cfg, t, op);
    } else if op.RegisterOp? {
      RegisterFrame(cfg, t, op);
    } else {
      RouteFrame(cfg, t, op);
    }
  }

  /** A pending request is the one it was before the step, or the step has just asked it. */
  lemma RequestStep(cfg: RouterConfig, t: Tables, op: Op, request: DiscoveryRequestId)
    requires request in Apply(cfg, t, op).discoveries
    ensures var t' := Apply(cfg, t, op);
            if Asks(cfg, t, op) && op.request == request then Pending(cfg, t', op)
            else request in t.discoveries && t'.discoveries[request] == t.discoveries[request]
  {
    if !op.DiscoverOp? {
      OtherOpsKeepRequests(cfg, t, op, request);
    }
  }

  /** While a request is cached nobody can take its id over: its room, client and port stay, only its lease moves. */
  lemma RequestKeepsItsOwner(cfg: RouterConfig, t: Tables, op: Op, request: DiscoveryRequestId)
    requires request in t.discoveries && request in Apply(cfg, t, op).discoveries
    ensures var d := t.discoveries[request];
            SameRequest(Apply(cfg, t, op).discoveries[request], d.room, d.client, d.port)
  {
    RequestStep(cfg, t, op, request);
    if Asks(cfg, t, op) && op.request == request {
      assert SameRequest(t.discoveries[request], op.room, op.peer, op.port);
    }
    hide Apply;
  }

  /** Step `i` of a run asked a request that has been pending ever since, unchanged. */
  ghost predicate AskedAt(cfg: RouterConfig, ops: seq<Op>, i: nat, request: DiscoveryRequestId) {
    && i < |ops| && Asks(cfg, StateAt(cfg, ops, i), ops[i]) && ops[i].request == request
    && HeldSince(cfg, ops, i, t => Pending(cfg, t, ops[i]))
  }

  lemma {:induction false} PendingWasAsked(cfg: RouterConfig, ops: seq<Op>, request: DiscoveryRequestId)
    requires request in Run(cfg, EMPTY, ops).discoveries
    ensures exists i: nat :: AskedAt(cfg, ops, i, request)
  {
    hide Apply, BeginDiscovery, StateAt;
    if ops != [] {
      var n := |ops| - 1;
      StateAtEnds(cfg, ops);
      RequestStep(cfg, StateAt(cfg, ops, n), ops[n], request);
      if Asks(cfg, StateAt(cfg, ops, n), ops[n]) && ops[n].request == request {
        assert AskedAt(cfg, ops, n, request);
      } else {
        PendingWasAsked(cfg, ops[..n], request);
        var i: nat :| AskedAt(cfg, ops[..n], i, request);
        AskedEarlier(cfg, ops, i, request);
      }
    }
  }

  lemma AskedEarlier(cfg: RouterConfig, ops: seq<Op>, i: nat, request: DiscoveryRequestId)
    requires ops != [] && AskedAt(cfg, ops[..|ops| - 1], i, request)
    requires var t, t' := StateAt(cfg, ops, |ops| - 1), StateAt(cfg, ops, |ops|);
             request in t.discoveries && request in t'.discoveries && t'.discoveries[request] == t.discoveries[request]
    ensures AskedAt(cfg, ops, i, request)
  {
    hide Run, BeginDiscovery;
    var front := ops[..|ops| - 1];
    assert front[..|front|] == front == ops[..|front|];
    assert Pending(cfg, StateAt(cfg, front, |front|), ops[i]);
    HeldOneStepMore(cfg, ops, i, t => Pending(cfg, t, ops[i]));
  }

  /** In every reachable state, a reply is routed only to a peer that asked that very request, in the room
      of the replying host, less than a lease ago. */
  lemma ReplyGoesToTheAsker(cfg: RouterConfig, ops: seq<Op>, request: DiscoveryRequestId, host: HostSessionId, now: Time)
    requires RouteDiscoveryResponse(Run(cfg, EMPTY, ops), request, host, now).Ok?
    ensures exists i: nat :: AskedAt(cfg, ops, i, request)
                        && RouteDiscoveryResponse(Run(cfg, EMPTY, ops), request, host, now) == Ok(ops[i].peer)
                        && ops[i].room == Run(cfg, EMPTY, ops).hosts[host].room
                        && now < ops[i].now + cfg.discoveryTtl
  {
    hide Apply, BeginDiscovery, StateAt;
    PendingWasAsked(cfg, ops, request);
    var i: nat :| AskedAt(cfg, ops, i, request);
    StateAtEnds(cfg, ops);
    assert Pending(cfg, StateAt(cfg, ops, |ops|), ops[i]);
  }

  // ---------------------------------------------------------------- there and back

  predicate NotRepeated(tracker: Tracker, peer: PeerId, envelope: RelayEnvelope) {
    Disposition(tracker, peer, envelope.meta.sequence) != Duplicate
  }

  /** The request id is new, or the same client's, for the same port. */
  predicate NotConflicting(t: Tables, client: PeerId, asks: RelayEnvelope)
    requires client in t.peers && asks.message.DiscoveryRequest?
  {
    asks.message.requestId in t.discoveries ==>
      SameRequest(t.discoveries[asks.message.requestId], t.peers[client].room, client, asks.message.port)
  }

  /** A request reaches every live host session of the room. */
  lemma RequestReachesHost(sc: ServerConfig, t: Tables, tracker: Tracker, client: PeerId, asks: RelayEnvelope, now: Time,
                           host: HostSessionId)
    requires Inv(sc.router, t) && client in t.peers && asks.message.DiscoveryRequest? && NotRepeated(tracker, client, asks)
    requires NotConflicting(t, client, asks) && IsDiscoveryPort(asks.message.port) && PayloadOk(sc.router, asks.message.payload)
    requires host in t.hosts && t.hosts[host].room == t.peers[client].room && now < t.hosts[host].expiresAt
    ensures var served := Forward(sc, t, tracker, client, asks, now);
            && served.result.Ok?
            && OutboundDatagram(V4(t.hosts[host].ip, sc.relayPort),
                                DiscoveryToHost(asks.message.requestId, t.peers[client].ip, asks.message.port, asks.message.payload),
                                asks.meta) in served.result.value
            && served.tables == t.(discoveries := t.discoveries[asks.message.requestId :=
                 Discovery(t.peers[client].room, client, asks.message.port, now + sc.router.discoveryTtl)])
  {
    hide Inv;
    PeerLeaseOk(sc.router, t, client);
    var target := DiscoveryTarget(host, t.hosts[host].peer, t.hosts[host].ip);
    assert target in LiveTargets(t.hosts, t.peers[client].room, now);
    assert ToHost(target, asks.message.requestId, t.peers[client].ip, asks.message.port, asks.message.payload, sc.relayPort, asks.meta)
           == OutboundDatagram(V4(t.hosts[host].ip, sc.relayPort),
                DiscoveryToHost(asks.message.requestId, t.peers[client].ip, asks.message.port, asks.message.payload), asks.meta);
  }

  /** The host's reply, before either lease is over, comes back to the client that asked and to nobody else. */
  lemma ReplyComesBack(sc: ServerConfig, t: Tables, tracker: Tracker, reply: RelayEnvelope, now: Time)
    requires Inv(sc.router, t) && reply.message.DiscoveryResponse? && reply.message.hostSessionId in t.hosts
    requires IsDiscoveryPort(reply.message.port) && PayloadOk(sc.router, reply.message.payload)
    requires now < t.hosts[reply.message.hostSessionId].expiresAt
    requires reply.message.requestId in t.discoveries && now < t.discoveries[reply.message.requestId].expiresAt
    requires t.discoveries[reply.message.requestId].room == t.hosts[reply.message.hostSessionId].room
    requires NotRepeated(tracker, t.hosts[reply.message.hostSessionId].peer, reply)
    ensures var host := t.hosts[reply.message.hostSessionId];
            var client := t.discoveries[reply.message.requestId].client;
            && client in t.peers
            && Forward(sc, t, tracker, host.peer, reply, now).result
               == Ok({OutboundDatagram(V4(t.peers[client].ip, sc.relayPort),
                                       DiscoveryToClient(reply.message.requestId, host.ip, reply.message.port, reply.message.payload),
                                       reply.meta)})
  {
    hide Inv;
    InvRoutes(sc.router, t);
    assert InRoom(t.peers, t.discoveries[reply.message.requestId].room, t.discoveries[reply.message.requestId].client);
  }
}
