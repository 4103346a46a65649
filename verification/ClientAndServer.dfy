/** The client's loop with the server's resume as its callback: when the numbers it sends stay in order. */
module ClientAndServer {
  import opened Protocol
  import opened RouterTables
  import opened ConnectionEpochs
  import opened SessionSpec
  import opened SessionNumbers

  /** The server, as each turn finds it. */
  datatype Server = Server(config: RouterConfig, room: RoomId, peer: PeerId, tables: nat -> Tables, clock: nat -> Time)

  /** A callback that succeeds in turn `i` does so because the server resumed the peer, whose epoch is the
      one the client has. */
  predicate AnsweredBy(server: Server, i: nat, before: Traced, turn: Turn) {
    before.mode == Recovering && turn.reconnect.Some? ==>
      var t := server.tables(i);
      && server.peer in t.peers && t.peers[server.peer].epoch == before.session.epoch
      && var answer := ResumePeer(server.config, t, server.room, server.peer, server.clock(i)).result;
      && answer.Ok? && answer.value.epoch == turn.reconnect.value
  }

  ghost predicate AllAnsweredBy(server: Server, cfg: SessionConfig, s: Session, turns: seq<Turn>) {
    turns != [] ==>
      var n := |turns| - 1;
      AllAnsweredBy(server, cfg, s, turns[..n]) && AnsweredBy(server, n, Trace(cfg, s, turns[..n]), turns[n])
  }

  /** The server had suspended the peer when turn `i` resumed it, and had an epoch left to give. */
  predicate WasSuspended(server: Server, i: nat, before: Traced, turn: Turn) {
    before.mode == Recovering && turn.reconnect.Some? ==>
      var t := server.tables(i);
      server.peer in t.peers && t.peers[server.peer].disconnectedAt.Some? && t.peers[server.peer].epoch < U64_MAX
  }

  ghost predicate AlwaysSuspended(server: Server, cfg: SessionConfig, s: Session, turns: seq<Turn>) {
    turns != [] ==>
      var n := |turns| - 1;
      AlwaysSuspended(server, cfg, s, turns[..n]) && WasSuspended(server, n, Trace(cfg, s, turns[..n]), turns[n])
  }

  lemma {:induction false} EpochsRiseWhenSuspended(server: Server, cfg: SessionConfig, s: Session, turns: seq<Turn>)
    requires AllAnsweredBy(server, cfg, s, turns)
    ensures EpochsRise(cfg, s, turns) <==> AlwaysSuspended(server, cfg, s, turns)
  {
    hide Trace, ResumePeer;
    if turns != [] {
      var n := |turns| - 1;
      EpochsRiseWhenSuspended(server, cfg, s, turns[..n]);
      var before := Trace(cfg, s, turns[..n]);
      if before.mode == Recovering && turns[n].reconnect.Some? {
        ResumeRaisesEpochExactly(server.config, server.tables(n), server.room, server.peer, server.clock(n));
      }
    }
  }

  /** With the server's resume as the callback, the pairs a client sends rise strictly if and only if the
      server had suspended the peer at every resume that another turn followed. A client that gives up on a
      connection which the server still holds numbers its packets over again in the same epoch. */
  lemma PairsRiseWhenSuspended(server: Server, cfg: SessionConfig, past: seq<Event>, s: Session, turns: seq<Turn>, last: Turn)
    requires InOrderUpTo(past, s) && s.nextSequence + |turns| < U64_MAX && AllAnsweredBy(server, cfg, s, turns)
    ensures StrictlyOrdered(past + Trace(cfg, s, turns + [last]).log) <==> AlwaysSuspended(server, cfg, s, turns)
  {
    hide Trace, InOrderUpTo, StrictlyOrdered, EpochsRise, AlwaysSuspended;
    SentPairsRiseExactly(cfg, past, s, turns, last);
    EpochsRiseWhenSuspended(server, cfg, s, turns);
  }
}
