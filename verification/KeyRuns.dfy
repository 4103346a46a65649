/** The WireGuard key table beside the router over runs of the server: whose key is in it. */
module KeyRuns {
  import opened Protocol
  import opened RouterTables
  import opened RouterInvariant
  import opened RouterRuns
  import opened PeerLeases
  import opened Restore
  import opened ControlPlane

  datatype App = App(tables: Tables, keys: map<PeerId, WireGuardKey>)

  /** The two handlers that touch keys, and every other router operation; peers join and leave through the
      handlers only. */
  datatype AppEvent =
    | JoinCall(code: RoomCode, request: JoinRequest, wireguard: External, database: External, now: Time)
    | DeleteCall(code: RoomCode, peer: PeerId, wireguard: External, database: External)
    | RouterCall(op: Op)

  ghost function AppNext(cfg: RouterConfig, prefix: Prefix, a: App, e: AppEvent): App {
    match e
    case JoinCall(code, request, wireguard, database, now) =>
      var answer := JoinAnswer(cfg, a.tables, prefix, code, request, wireguard, database, now);
      if answer.Err? then a
      else App(JoinRoom(cfg, a.tables, answer.value.room, request.peer, answer.value.ip, now).tables,
               if request.key.Some? then a.keys[request.peer := request.key.value] else a.keys)
    case DeleteCall(code, peer, wireguard, database) =>
      if DeleteAnswer(a.tables, a.keys, code, peer, wireguard, database).Err? then a
      else App(Evict(a.tables, {peer}), a.keys - {peer})
    case RouterCall(op) => a.(tables := Apply(cfg, a.tables, op))
  }

  ghost function AppRun(cfg: RouterConfig, prefix: Prefix, a: App, events: seq<AppEvent>): App {
    if events == [] then a else AppNext(cfg, prefix, AppRun(cfg, prefix, a, events[..|events| - 1]), events[|events| - 1])
  }

  /** A server with a database or WireGuard, where every peer has to bring a key. */
  predicate Keyed(e: AppEvent) {
    match e
    case JoinCall(_, _, wireguard, database, _) => wireguard.Some? || database.Some?
    case DeleteCall(_, _, _, _) => true
    case RouterCall(op) => !op.JoinOp? && !op.LeaveOp?
  }

  /** The peers that a router operation dropped, which only a sweep does, and that have not joined again. */
  ghost function Dropped(cfg: RouterConfig, prefix: Prefix, a: App, events: seq<AppEvent>): set<PeerId> {
    if events == [] then {}
    else
      var front, last := events[..|events| - 1], events[|events| - 1];
      var before, after := AppRun(cfg, prefix, a, front), AppRun(cfg, prefix, a, events);
      Dropped(cfg, prefix, a, front) - after.tables.peers.Keys
      + if last.RouterCall? then before.tables.peers.Keys - after.tables.peers.Keys else {}
  }

  ghost predicate KeysMatch(a: App, dropped: set<PeerId>) {
    a.keys.Keys == a.tables.peers.Keys + dropped && a.tables.peers.Keys !! dropped
  }

  lemma JoinAnswered(cfg: RouterConfig, t: Tables, prefix: Prefix, code: RoomCode, request: JoinRequest,
                     wireguard: External, database: External, now: Time)
    ensures var answer := JoinAnswer(cfg, t, prefix, code, request, wireguard, database, now);
            answer.Ok? ==>
              && (wireguard.Some? || database.Some? ==> request.key.Some?)
              && JoinRoom(cfg, t, answer.value.room, request.peer, answer.value.ip, now).result.Ok?
  {
    hide ChooseIp, JoinRoom;
  }

  lemma JoinedPeers(cfg: RouterConfig, t: Tables, room: RoomId, peer: PeerId, ip: VirtualIp, now: Time)
    requires JoinRoom(cfg, t, room, peer, ip, now).result.Ok?
    ensures peer !in t.peers && JoinRoom(cfg, t, room, peer, ip, now).tables.peers.Keys == t.peers.Keys + {peer}
  {
  }

  lemma JoinKeepsMatch(cfg: RouterConfig, prefix: Prefix, a: App, e: AppEvent, dropped: set<PeerId>)
    requires KeysMatch(a, dropped) && e.JoinCall? && Keyed(e)
    ensures var after := AppNext(cfg, prefix, a, e);
            KeysMatch(after, dropped - after.tables.peers.Keys)
  {
    hide JoinAnswer, JoinRoom;
    var answer := JoinAnswer(cfg, a.tables, prefix, e.code, e.request, e.wireguard, e.database, e.now);
    JoinAnswered(cfg, a.tables, prefix, e.code, e.request, e.wireguard, e.database, e.now);
    if answer.Ok? {
      JoinedPeers(cfg, a.tables, answer.value.room, e.request.peer, answer.value.ip, e.now);
    }
  }

  lemma DeleteKeepsMatch(cfg: RouterConfig, prefix: Prefix, a: App, e: AppEvent, dropped: set<PeerId>)
    requires KeysMatch(a, dropped) && e.DeleteCall?
    ensures var after := AppNext(cfg, prefix, a, e);
            KeysMatch(after, dropped - after.tables.peers.Keys)
  {
  }

  lemma RouterKeepsMatch(cfg: RouterConfig, prefix: Prefix, a: App, e: AppEvent, dropped: set<PeerId>)
    requires KeysMatch(a, dropped) && e.RouterCall? && Keyed(e)
    ensures var after := AppNext(cfg, prefix, a, e);
            KeysMatch(after, dropped - after.tables.peers.Keys + (a.tables.peers.Keys - after.tables.peers.Keys))
  {
    hide Apply;
    forall p | p !in a.tables.peers
      ensures p !in Apply(cfg, a.tables, e.op).peers
    {
      NobodyElseAddsPeer(cfg, a.tables, e.op, p);
    }
  }

  /** Over every run in which peers bring keys, the key table holds the keys of the members and of the peers
      that a sweep has dropped and that have not come back, and no others. */
  lemma {:induction false} KeysOfMembersAndDropped(cfg: RouterConfig, prefix: Prefix, a: App, events: seq<AppEvent>)
    requires a.keys.Keys == a.tables.peers.Keys && forall e :: e in events ==> Keyed(e)
    ensures KeysMatch(AppRun(cfg, prefix, a, events), Dropped(cfg, prefix, a, events))
  {
    hide AppNext, KeysMatch;
    if events == [] {
      NobodyDropped(a);
    } else {
      var n := |events| - 1;
      var before, dropped := AppRun(cfg, prefix, a, events[..n]), Dropped(cfg, prefix, a, events[..n]);
      KeysOfMembersAndDropped(cfg, prefix, a, events[..n]);
      assert Keyed(events[n]);
      var after := AppRun(cfg, prefix, a, events);
      assert dropped - after.tables.peers.Keys + {} == dropped - after.tables.peers.Keys;
      match events[n] {
        case JoinCall(_, _, _, _, _) =>
          JoinKeepsMatch(cfg, prefix, before, events[n], dropped);
        case DeleteCall(_, _, _, _) =>
          DeleteKeepsMatch(cfg, prefix, before, events[n], dropped);
        case RouterCall(_) =>
          RouterKeepsMatch(cfg, prefix, before, events[n], dropped);
      }
    }
  }

  lemma NobodyDropped(a: App)
    requires a.keys.Keys == a.tables.peers.Keys
    ensures KeysMatch(a, {})
  {
  }

  /** Of the router's operations only a sweep drops a peer without its key. */
  lemma OnlySweepsDrop(cfg: RouterConfig, t: Tables, op: Op, p: PeerId)
    requires Inv(cfg, t) && Keyed(RouterCall(op)) && p in t.peers && p !in Apply(cfg, t, op).peers
    ensures op.SweepOp? && t.peers[p].lastSeen + cfg.peerTtl + cfg.peerGraceTtl <= op.now
  {
    hide Inv, Apply;
    PeerEvolvesAlone(cfg, t, op, p);
    PeerLeaseOk(cfg, t, p);
    StepHolds(cfg, t.peers[p], op, p);
  }

  /** A key that a sweep has left behind cannot be deleted by its peer's id. */
  lemma DroppedKeyCannotBeDeleted(t: Tables, keys: map<PeerId, WireGuardKey>, code: RoomCode, p: PeerId, wireguard: External, database: External)
    requires p !in t.peers
    ensures DeleteAnswer(t, keys, code, p, wireguard, database) == Err(NotFound)
  {
  }
}
