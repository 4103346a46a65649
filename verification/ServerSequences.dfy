/** Duplicate suppression over runs of the server: exactly which datagrams the sequence check refuses, and
    what that means for a client that starts numbering anew. */
module ServerSequences {
  import opened Protocol
  import opened Codec
  import opened RouterTables
  import opened RateLimiter
  import opened Relay
  import opened Sequences

  /** What a datagram brings to the sequence check, if it gets that far: it is well formed, within the rate,
      from a connected member, of epoch 0 or the current one, and no probe. */
  ghost function Checked(sc: ServerConfig, s: ServerState, source: SocketAddr, packet: seq<Byte>, arrival: Time): Option<Numbered> {
    if Decode(packet).Err? || source.V6? || !Passes(sc, s.entries, source.ip, arrival) then None
    else
      var peer, envelope := PeerWithIp(s.tables.peers, source.ip), Decode(packet).value;
      if peer.None? || envelope.message.RelayProbe? then None
      else
        var member, epoch := s.tables.peers[peer.value], envelope.meta.connectionEpoch;
        if (epoch != 0 && epoch != member.epoch) || member.disconnectedAt.Some? then None
        else Some(Numbered(peer.value, envelope.meta.sequence, epoch))
  }

  lemma ForwardTracks(sc: ServerConfig, t: Tables, tracker: Tracker, peer: PeerId, envelope: RelayEnvelope, now: Time)
    ensures var served := Forward(sc, t, tracker, peer, envelope, now);
            && served.tracker == TrackerAfter(tracker, peer, envelope.meta.sequence)
            && (served.result == Err(DuplicateSequence(envelope.meta.sequence))
                <==> Disposition(tracker, peer, envelope.meta.sequence) == Duplicate)
  {
    hide Dispatch, TrackerAfter, Disposition;
  }

  /** A datagram is a duplicate exactly when it gets to the check and the tracker says so; nothing else
      touches the tracker. */
  lemma HandleTracks(sc: ServerConfig, s: ServerState, source: SocketAddr, packet: seq<Byte>, arrival: Time, now: Time)
    ensures var handled, x := Handle(sc, s, source, packet, arrival, now), Checked(sc, s, source, packet, arrival);
            && handled.state.tracker == (if x.Some? then TrackerAfter(s.tracker, x.value.peer, x.value.sequence) else s.tracker)
            && (handled.result.Err? && handled.result.error.DuplicateSequence?
                <==> x.Some? && Disposition(s.tracker, x.value.peer, x.value.sequence) == Duplicate)
  {
    hide Decode, Forward, Passes, TrackerAfter, Disposition, EntriesAfter;
    if Decode(packet).Ok? && source.V4? && PeerWithIp(s.tables.peers, source.ip).Some? {
      var peer, envelope := PeerWithIp(s.tables.peers, source.ip).value, Decode(packet).value;
      ForwardTracks(sc, MarkPeerSeen(s.tables, peer, now).tables, s.tracker, peer, envelope, now);
      OnlyRepeatsAreDuplicates(sc, MarkPeerSeen(s.tables, peer, now).tables, s.tracker, peer, envelope, now);
    }
  }

  lemma OnlyRepeatsAreDuplicates(sc: ServerConfig, t: Tables, tracker: Tracker, peer: PeerId, envelope: RelayEnvelope, now: Time)
    ensures var result := Forward(sc, t, tracker, peer, envelope, now).result;
            result.Err? && result.error.DuplicateSequence? ==> result == Err(DuplicateSequence(envelope.meta.sequence))
  {
    hide Dispatch, TrackerAfter, Disposition;
  }

  /** All that has come to the sequence check in a run of the server. */
  ghost function CheckedIn(sc: ServerConfig, events: seq<ServerEvent>): seq<Numbered> {
    if events == [] then []
    else
      var before, last := events[..|events| - 1], events[|events| - 1];
      CheckedIn(sc, before)
      + match last
        case Control(_) => []
        case Datagram(source, packet, arrival, _) =>
          var x := Checked(sc, ServerRun(sc, STARTED, before), source, packet, arrival);
          if x.Some? then [x.value] else []
  }

  lemma TrackerRunMore(packets: seq<Numbered>, x: Numbered)
    ensures TrackerRun(packets + [x]) == TrackerAfter(TrackerRun(packets), x.peer, x.sequence)
    ensures TrackerRun(packets + []) == TrackerRun(packets)
  {
    assert (packets + [x])[..|packets|] == packets && packets + [] == packets;
  }

  lemma {:induction false} ServerTracker(sc: ServerConfig, events: seq<ServerEvent>)
    ensures ServerRun(sc, STARTED, events).tracker == TrackerRun(CheckedIn(sc, events))
  {
    hide Handle, Checked, TrackerAfter, Disposition, TrackerRun;
    if events == [] {
      NothingChecked();
    } else {
      var n := |events| - 1;
      var before, packets := ServerRun(sc, STARTED, events[..n]), CheckedIn(sc, events[..n]);
      ServerTracker(sc, events[..n]);
      match events[n] {
        case Control(op) =>
          assert packets + [] == packets;
        case Datagram(source, packet, arrival, now) =>
          HandleTracks(sc, before, source, packet, arrival, now);
          var x := Checked(sc, before, source, packet, arrival);
          if x.Some? {
            TrackerRunMore(packets, x.value);
          } else {
            assert packets + [] == packets;
          }
      }
    }
  }

  lemma NothingChecked()
    ensures TrackerRun([]) == map[]
  {
  }

  /** In every reachable state a datagram is refused as a duplicate if and only if it gets to the sequence
      check and its number is not 0 and the largest of its peer, under whatever epoch, since the tracker
      was last cleared. */
  lemma DuplicateRefusedExactly(sc: ServerConfig, events: seq<ServerEvent>, source: SocketAddr, packet: seq<Byte>,
                                arrival: Time, now: Time)
    ensures var s := ServerRun(sc, STARTED, events);
            var result, x := Handle(sc, s, source, packet, arrival, now).result, Checked(sc, s, source, packet, arrival);
            result.Err? && result.error.DuplicateSequence?
            <==> x.Some? && x.value.sequence != 0 && x.value.sequence == Largest(Era(CheckedIn(sc, events)), x.value.peer)
  {
    hide Handle, Checked, ServerRun, CheckedIn, Disposition, TrackerRun, Era, Largest;
    var s := ServerRun(sc, STARTED, events);
    var x := Checked(sc, s, source, packet, arrival);
    HandleTracks(sc, s, source, packet, arrival, now);
    ServerTracker(sc, events);
    if x.Some? {
      DispositionExactly(CheckedIn(sc, events), x.value.peer, x.value.sequence);
    }
  }

  /** The tracker does not know epochs. A member's pair of epoch and number that was never sent before is
      refused exactly when the number meets the peer's largest, and then that largest is of another epoch:
      a client that starts numbering anew after a reconnect loses the packet that reaches it. */
  lemma FreshPairRefusedExactly(sc: ServerConfig, events: seq<ServerEvent>, source: SocketAddr, packet: seq<Byte>,
                                arrival: Time, now: Time)
    requires var x := Checked(sc, ServerRun(sc, STARTED, events), source, packet, arrival);
             x.Some? && x.value !in CheckedIn(sc, events)
    ensures var s, packets := ServerRun(sc, STARTED, events), CheckedIn(sc, events);
            var result, x := Handle(sc, s, source, packet, arrival, now).result, Checked(sc, s, source, packet, arrival).value;
            && (result.Err? && result.error.DuplicateSequence?
                <==> x.sequence != 0 && x.sequence == Largest(Era(packets), x.peer))
            && (result.Err? && result.error.DuplicateSequence? ==>
                  exists y :: y in packets && y.peer == x.peer && y.sequence == x.sequence && y.epoch != x.epoch)
  {
    hide Handle, Checked, ServerRun, CheckedIn, Era, Largest;
    var s, packets := ServerRun(sc, STARTED, events), CheckedIn(sc, events);
    var x := Checked(sc, s, source, packet, arrival).value;
    DuplicateRefusedExactly(sc, events, source, packet, arrival, now);
    if x.sequence != 0 && x.sequence == Largest(Era(packets), x.peer) {
      var y := LargestWasSent(Era(packets), x.peer);
      EraIsPart(packets, y);
      assert y != x;
    }
  }
}
