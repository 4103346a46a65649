/** Every run of the server is a run of the router, so whatever holds over router runs holds for the server. */
module ServerAsRouter {
  import opened Protocol
  import opened Codec
  import opened RouterTables
  import opened RouterRuns
  import opened Relay
  import opened ServerRuns

  // ---------------------------------------------------------------- runs in two parts

  lemma {:induction false} RunInParts(cfg: RouterConfig, t: Tables, first: seq<Op>, second: seq<Op>)
    ensures Run(cfg, t, first + second) == Run(cfg, Run(cfg, t, first), second)
  {
    hide Apply;
    if second == [] {
      assert first + second == first;
    } else {
      var n := |second| - 1;
      var ops := first + second;
      RunInParts(cfg, t, first, second[..n]);
      assert ops[..|ops| - 1] == first + second[..n];
    }
  }

  lemma FreshAt(cfg: RouterConfig, t: Tables, ops: seq<Op>, i: nat)
    requires FreshRun(cfg, t, ops) && i < |ops|
    ensures DrawsFresh(Run(cfg, t, ops[..i]), ops[i])
  {
  }

  lemma FreshInPartsAt(cfg: RouterConfig, t: Tables, first: seq<Op>, second: seq<Op>, i: nat)
    requires FreshRun(cfg, t, first) && FreshRun(cfg, Run(cfg, t, first), second) && i < |first| + |second|
    ensures DrawsFresh(Run(cfg, t, (first + second)[..i]), (first + second)[i])
  {
    hide Run, FreshRun, DrawsFresh;
    var ops := first + second;
    if i < |first| {
      FreshAt(cfg, t, first, i);
      assert ops[..i] == first[..i];
    } else {
      var j := i - |first|;
      FreshAt(cfg, Run(cfg, t, first), second, j);
      RunInParts(cfg, t, first, second[..j]);
      assert ops[..i] == first + second[..j];
    }
  }

  lemma FreshInParts(cfg: RouterConfig, t: Tables, first: seq<Op>, second: seq<Op>)
    requires FreshRun(cfg, t, first) && FreshRun(cfg, Run(cfg, t, first), second)
    ensures FreshRun(cfg, t, first + second)
  {
    hide Run, DrawsFresh;
    forall i | 0 <= i < |first + second|
      ensures DrawsFresh(Run(cfg, t, (first + second)[..i]), (first + second)[i])
    {
      FreshInPartsAt(cfg, t, first, second, i);
    }
  }

  lemma ShortRuns(cfg: RouterConfig, t: Tables)
    ensures Run(cfg, t, []) == t && FreshRun(cfg, t, [])
    ensures forall a :: Run(cfg, t, [a]) == Apply(cfg, t, a)
  {
  }

  // ---------------------------------------------------------------- the operations behind an event

  /** The router operations that dispatching comes down to. */
  function IngressOps(cfg: RouterConfig, t: Tables, ingress: RelayIngress): seq<Op> {
    if !PayloadOk(cfg, ingress.payload) then []
    else match ingress
      case DiscoveryIngress(source, request, port, _, now) =>
        if source in t.peers then [DiscoverOp(t.peers[source].room, source, request, port, now)] else []
      case ResponseIngress(_, _, _, _, _) => []
      case GameplayIngress(session, source, port, _, now) => if port == GAMEPLAY_PORT then [RouteOp(session, source, now)] else []
  }

  function ForwardOps(sc: ServerConfig, t: Tables, tracker: Tracker, peer: PeerId, envelope: RelayEnvelope, now: Time): seq<Op> {
    var ingress := IngressOf(t.hosts, peer, envelope.message, now);
    if Disposition(tracker, peer, envelope.meta.sequence) == Duplicate || ingress.Err? then []
    else IngressOps(sc.router, t, ingress.value)
  }

  function ServeOps(sc: ServerConfig, t: Tables, tracker: Tracker, peer: PeerId, envelope: RelayEnvelope, now: Time): seq<Op>
    requires peer in t.peers
  {
    var received, seen := envelope.meta.connectionEpoch, MarkPeerSeen(t, peer, now);
    if (received != 0 && received != t.peers[peer].epoch) || seen.result.Err? then []
    else
      [SeenOp(peer, now)]
      + if envelope.message.RelayProbe? then [] else ForwardOps(sc, seen.tables, tracker, peer, envelope, now)
  }

  ghost function EventOps(sc: ServerConfig, s: ServerState, e: ServerEvent): seq<Op> {
    match e
    case Control(op) => [op]
    case Datagram(source, packet, arrival, now) =>
      var envelope := Decode(packet);
      if envelope.Err? || source.V6? || !Passes(sc, s.entries, source.ip, arrival) then []
      else
        var peer := PeerWithIp(s.tables.peers, source.ip);
        if peer.None? then [] else ServeOps(sc, s.tables, s.tracker, peer.value, envelope.value, now)
  }

  lemma DispatchIsRun(cfg: RouterConfig, t: Tables, ingress: RelayIngress)
    ensures Dispatch(cfg, t, ingress).tables == Run(cfg, t, IngressOps(cfg, t, ingress))
    ensures |IngressOps(cfg, t, ingress)| <= 1 && FreshRun(cfg, t, IngressOps(cfg, t, ingress))
  {
  }

  lemma ForwardIsRun(sc: ServerConfig, t: Tables, tracker: Tracker, peer: PeerId, envelope: RelayEnvelope, now: Time)
    ensures Forward(sc, t, tracker, peer, envelope, now).tables == Run(sc.router, t, ForwardOps(sc, t, tracker, peer, envelope, now))
    ensures FreshRun(sc.router, t, ForwardOps(sc, t, tracker, peer, envelope, now))
  {
    hide Dispatch, IngressOps, Apply, ActionDatagrams, FreshRun;
    ShortRuns(sc.router, t);
    var ingress := IngressOf(t.hosts, peer, envelope.message, now);
    if ingress.Ok? {
      DispatchIsRun(sc.router, t, ingress.value);
    }
  }

  /** A first operation followed by a run. */
  lemma StepThenRun(cfg: RouterConfig, t: Tables, op: Op, rest: seq<Op>)
    requires DrawsFresh(t, op) && FreshRun(cfg, Apply(cfg, t, op), rest)
    ensures Run(cfg, t, [op] + rest) == Run(cfg, Apply(cfg, t, op), rest) && FreshRun(cfg, t, [op] + rest)
  {
    hide Apply, FreshRun;
    ShortRuns(cfg, t);
    RunInParts(cfg, t, [op], rest);
    OneOpIsFresh(cfg, t, op);
    FreshInParts(cfg, t, [op], rest);
  }

  lemma SeenIsApplied(cfg: RouterConfig, t: Tables, peer: PeerId, now: Time)
    ensures Apply(cfg, t, SeenOp(peer, now)) == MarkPeerSeen(t, peer, now).tables
  {
  }

  lemma ServeIsRun(sc: ServerConfig, t: Tables, tracker: Tracker, peer: PeerId, source: SocketAddr, envelope: RelayEnvelope, now: Time)
    requires peer in t.peers
    ensures var ops := ServeOps(sc, t, tracker, peer, envelope, now);
            ServePeer(sc, t, tracker, peer, source, envelope, now).tables == Run(sc.router, t, ops) && FreshRun(sc.router, t, ops)
  {
    hide Forward, ForwardOps, FreshRun, Apply, MarkPeerSeen;
    var seen := MarkPeerSeen(t, peer, now).tables;
    SeenIsApplied(sc.router, t, peer, now);
    ShortRuns(sc.router, t);
    ShortRuns(sc.router, seen);
    ForwardIsRun(sc, seen, tracker, peer, envelope, now);
    var rest := if envelope.message.RelayProbe? then [] else ForwardOps(sc, seen, tracker, peer, envelope, now);
    StepThenRun(sc.router, t, SeenOp(peer, now), rest);
  }

  lemma OneOpIsFresh(cfg: RouterConfig, t: Tables, op: Op)
    requires DrawsFresh(t, op)
    ensures FreshRun(cfg, t, [op])
  {
  }

  lemma NextIsRun(sc: ServerConfig, s: ServerState, e: ServerEvent)
    requires e.Control? ==> DrawsFresh(s.tables, e.op)
    ensures Next(sc, s, e).tables == Run(sc.router, s.tables, EventOps(sc, s, e))
    ensures FreshRun(sc.router, s.tables, EventOps(sc, s, e))
  {
    hide ServePeer, ServeOps, Apply, Decode, Passes, FreshRun;
    ShortRuns(sc.router, s.tables);
    match e {
      case Control(op) =>
        OneOpIsFresh(sc.router, s.tables, op);
      case Datagram(source, packet, arrival, now) =>
        if Decode(packet).Ok? && source.V4? && PeerWithIp(s.tables.peers, source.ip).Some? {
          var peer := PeerWithIp(s.tables.peers, source.ip).value;
          ServeIsRun(sc, s.tables, s.tracker, peer, source, Decode(packet).value, now);
        }
    }
  }

  ghost function ServerOps(sc: ServerConfig, s: ServerState, events: seq<ServerEvent>): seq<Op> {
    if events == [] then []
    else
      var before := events[..|events| - 1];
      ServerOps(sc, s, before) + EventOps(sc, ServerRun(sc, s, before), events[|events| - 1])
  }

  /** What a run of the server does to the router is what one run of router operations does. */
  lemma {:induction false} ServerRunIsRun(sc: ServerConfig, s: ServerState, events: seq<ServerEvent>)
    requires FreshEvents(sc, s, events)
    ensures ServerRun(sc, s, events).tables == Run(sc.router, s.tables, ServerOps(sc, s, events))
    ensures FreshRun(sc.router, s.tables, ServerOps(sc, s, events))
  {
    hide Handle, Apply, EventOps;
    if events == [] {
      ShortRuns(sc.router, s.tables);
    } else {
      var n := |events| - 1;
      var before := ServerRun(sc, s, events[..n]);
      FreshEventsPrefix(sc, s, events, n);
      ServerRunIsRun(sc, s, events[..n]);
      NextIsRun(sc, before, events[n]);
      var first, second := ServerOps(sc, s, events[..n]), EventOps(sc, before, events[n]);
      RunInParts(sc.router, s.tables, first, second);
      FreshInParts(sc.router, s.tables, first, second);
    }
  }
}
