/** The UDP dispatcher as a program: it shares the router, the rate limiter and the sequence tracker,
    and updates them in turn. Each method does what `Relay` says. */
module RelayDispatcherClass {
  import opened Protocol
  import opened Codec
  import opened RouterTables
  import opened RouterIndexes
  import opened RouterRuns
  import opened RateLimiter
  import opened RoomRouterClass
  import opened Relay
  import opened RelayDelivery

  lemma SweepIsApplied(cfg: RouterConfig, t: Tables, op: Op)
    requires op.SweepOp?
    ensures Apply(cfg, t, op) == Swept(cfg, t, op.now)
  {
  }

  /** The `sequence_tracker` of server/src/metrics.rs. */
  class SequenceTracker {
    var lastSeen: Tracker

    constructor ()
      ensures lastSeen == map[]
    {
      lastSeen := map[];
    }

    method RecordSequence(peer: PeerId, sequence: U64) returns (d: SequenceDisposition)
      modifies this
      ensures d == Disposition(old(lastSeen), peer, sequence)
      ensures lastSeen == TrackerAfter(old(lastSeen), peer, sequence)
    {
      if sequence == 0 {
        return Legacy;
      }
      if peer !in lastSeen {
        if |lastSeen| >= MAX_SEQUENCE_TRACKERS {
          lastSeen := map[];
        }
        lastSeen := lastSeen[peer := sequence];
        return New;
      }
      var previous := lastSeen[peer];
      if sequence == previous {
        return Duplicate;
      } else if sequence < previous {
        return Reordered;
      } else {
        lastSeen := lastSeen[peer := sequence];
        return New;
      }
    }
  }

  class RelayDispatcher {
    const router: RoomRouter
    const limiter: FixedWindowRateLimiter<VirtualIp>
    const tracker: SequenceTracker
    const relayPort: U16

    constructor (router: RoomRouter, limiter: FixedWindowRateLimiter<VirtualIp>, tracker: SequenceTracker, relayPort: U16)
      ensures this.router == router && this.limiter == limiter && this.tracker == tracker && this.relayPort == relayPort
    {
      this.router, this.limiter, this.tracker, this.relayPort := router, limiter, tracker, relayPort;
    }

    ghost function Config(): ServerConfig {
      ServerConfig(router.config, limiter.limit, limiter.window, relayPort)
    }

    ghost function State(): ServerState
      reads router, limiter, tracker
    {
      ServerState(router.Abs(), limiter.entries, tracker.lastSeen)
    }

    method HandleDatagram(source: SocketAddr, packet: seq<Byte>, arrival: Time, now: Time)
      returns (r: Result<seq<OutboundDatagram>, RelayError>)
      requires router.Valid()
      modifies router, limiter, tracker
      ensures router.Valid()
      ensures var handled := Handle(Config(), old(State()), source, packet, arrival, now);
              State() == handled.state && Answers(r, handled.result)
    {
      hide Inv, Indexed;
      var decoded := DecodePacket(packet);
      if decoded.Err? {
        return Err(MalformedPacket(decoded.error));
      }
      if source.V6? {
        return Err(InvalidSource(source));
      }
      var allowed := limiter.Allow(source.ip, arrival);
      if !allowed {
        return Err(RateLimited);
      }
      var peer := router.PeerForVirtualIp(source.ip);
      if peer.None? {
        return Err(UnknownSource(source.ip));
      }
      r := Serve(peer.value, source, decoded.value, now);
    }

    method Serve(peer: PeerId, source: SocketAddr, envelope: RelayEnvelope, now: Time)
      returns (r: Result<seq<OutboundDatagram>, RelayError>)
      requires router.Valid() && peer in router.peers
      modifies router, tracker
      ensures router.Valid()
      ensures var served := ServePeer(Config(), old(router.Abs()), old(tracker.lastSeen), peer, source, envelope, now);
              router.Abs() == served.tables && tracker.lastSeen == served.tracker && Answers(r, served.result)
    {
      hide Inv, Indexed;
      var meta := envelope.meta;
      var currentEpoch := router.peers[peer].epoch;
      if meta.connectionEpoch != 0 && meta.connectionEpoch != currentEpoch {
        return Err(StaleConnectionEpoch(meta.connectionEpoch, currentEpoch));
      }
      var seen := router.MarkPeerSeen(peer, now);
      if seen.Err? {
        return Err(Router(seen.error));
      }
      if envelope.message.RelayProbe? {
        return Ok([OutboundDatagram(source, RelayProbeAck(envelope.message.requestId), meta)]);
      }
      r := ForwardMessage(peer, envelope, now);
    }

    method ForwardMessage(peer: PeerId, envelope: RelayEnvelope, now: Time)
      returns (r: Result<seq<OutboundDatagram>, RelayError>)
      requires router.Valid() && peer in router.peers
      modifies router, tracker
      ensures router.Valid()
      ensures var served := Forward(Config(), old(router.Abs()), old(tracker.lastSeen), peer, envelope, now);
              router.Abs() == served.tables && tracker.lastSeen == served.tracker && Answers(r, served.result)
    {
      hide Inv, Indexed;
      var disposition := tracker.RecordSequence(peer, envelope.meta.sequence);
      if disposition == Duplicate {
        return Err(DuplicateSequence(envelope.meta.sequence));
      }
      var ingress := MessageIngress(peer, envelope.message, now);
      if ingress.Err? {
        return Err(ingress.error);
      }
      DispatchDistinctTargets(router.config, router.Abs(), ingress.value);
      var action := router.Dispatch(ingress.value);
      if action.Err? {
        return Err(Router(action.error));
      }
      r := ActionToDatagrams(action.value, envelope.meta,
                             RouterTables.Dispatch(router.config, old(router.Abs()), ingress.value).result.value);
    }

    method MessageIngress(peer: PeerId, message: RelayMessage, now: Time) returns (r: Result<RelayIngress, RelayError>)
      ensures r == IngressOf(router.hosts, peer, message, now)
    {
      match message {
        case DiscoveryRequest(request, port, payload) =>
          return Ok(DiscoveryIngress(peer, request, port, payload, now));
        case DiscoveryResponse(request, host, port, payload) =>
          if host !in router.hosts {
            return Err(Router(HostNotFound(host)));
          }
          if router.hosts[host].peer != peer {
            return Err(SourcePeerMismatch(host, peer));
          }
          return Ok(ResponseIngress(host, request, port, payload, now));
        case GameplayPacket(session, port, payload) =>
          return Ok(GameplayIngress(session, peer, port, payload, now));
        case _ =>
          return Err(OutboundEnvelope);
      }
    }

    method ActionToDatagrams(action: RelayAction<seq<DiscoveryTarget>>, meta: RelayEnvelopeMeta,
                             ghost expected: RelayAction<set<DiscoveryTarget>>)
      returns (r: Result<seq<OutboundDatagram>, RelayError>)
      requires Realizes(action, expected) && DistinctTargets(expected)
      ensures Answers(r, ActionDatagrams(router.peers, expected, relayPort, meta))
    {
      match action {
        case DiscoveryFanout(request, source, port, targets, payload) =>
          if source !in router.peers {
            return Err(UnknownSource(UNSPECIFIED));
          }
          var sourceIp := router.peers[source].ip;
          var datagrams := [];
          for i := 0 to |targets|
            invariant |datagrams| == i
            invariant forall j :: 0 <= j < i ==> datagrams[j] == ToHost(targets[j], request, sourceIp, port, payload, relayPort, meta)
          {
            datagrams := datagrams + [ToHost(targets[i], request, sourceIp, port, payload, relayPort, meta)];
          }
          FanoutListed(targets, expected.targets, datagrams, request, sourceIp, port, payload, relayPort, meta);
          return Ok(datagrams);
        case DiscoveryUnicast(request, destination, sourceIp, port, payload) =>
          if destination !in router.peers {
            return Err(UnknownSource(UNSPECIFIED));
          }
          return Ok([OutboundDatagram(V4(router.peers[destination].ip, relayPort),
                                      DiscoveryToClient(request, sourceIp, port, payload), meta)]);
        case GameplayUnicast(route, port, payload) =>
          if route.source !in router.peers {
            return Err(UnknownSource(UNSPECIFIED));
          }
          return Ok([OutboundDatagram(V4(route.destinationIp, relayPort),
                                      GameplayToPeer(route.session, router.peers[route.source].ip, port, payload), meta)]);
      }
    }

    /** One turn of the receive-and-tick loop: the datagrams that go out, encoded. A datagram that could
        not be encoded would end the loop; none ever is. */
    method ReceiveAndReply(source: SocketAddr, packet: seq<Byte>, arrival: Time, now: Time)
      returns (sent: seq<(SocketAddr, seq<Byte>)>)
      requires router.Valid()
      modifies router, limiter, tracker
      ensures router.Valid()
      ensures var handled := Handle(Config(), old(State()), source, packet, arrival, now);
              && State() == handled.state
              && (handled.result.Err? ==> sent == [])
              && (handled.result.Ok? ==>
                    exists list :: Lists(list, handled.result.value) && Sends(sent, list))
    {
      hide Inv, Indexed;
      HandledFits(Config(), State(), source, packet, arrival, now);
      hide Handle;
      var outbound := HandleDatagram(source, packet, arrival, now);
      if outbound.Err? {
        return [];
      }
      sent := EncodeAll(outbound.value);
    }

    method EncodeAll(outbound: seq<OutboundDatagram>) returns (sent: seq<(SocketAddr, seq<Byte>)>)
      requires forall d :: d in outbound ==> Fits(d)
      ensures Sends(sent, outbound)
    {
      sent := [];
      for i := 0 to |outbound|
        invariant |sent| == i
        invariant forall j :: 0 <= j < i ==> IsSent(sent[j], outbound[j])
      {
        var datagram := outbound[i];
        assert Fits(datagram);
        var encoded := EncodePacket(datagram.message, Some(datagram.meta), RELAY_PROTOCOL_VERSION);
        sent := sent + [(datagram.destination, encoded.value)];
      }
    }

    /** The receive-and-tick loop, for any finite series of datagrams and ticks. */
    method Run(events: seq<ServerEvent>)
      requires router.Valid() && forall e :: e in events ==> e.Datagram? || e.op.SweepOp?
      modifies router, limiter, tracker
      ensures router.Valid() && State() == ServerRun(Config(), old(State()), events)
    {
      hide Inv, Indexed, Handle, Apply, Swept;
      for i := 0 to |events|
        invariant router.Valid() && State() == ServerRun(Config(), old(State()), events[..i])
      {
        assert events[..i + 1][..i] == events[..i];
        match events[i] {
          case Datagram(source, packet, arrival, now) =>
            var _ := ReceiveAndReply(source, packet, arrival, now);
          case Control(op) =>
            SweepIsApplied(router.config, router.Abs(), op);
            var _ := router.Expire(op.now);
        }
      }
      assert events[..|events|] == events;
    }
  }
}
