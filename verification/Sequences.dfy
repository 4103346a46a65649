/** What the sequence tracker of server/src/metrics.rs catches over whole histories, however often its table
    fills up and is cleared. */
module Sequences {
  import opened Protocol
  import opened Relay

  /** A packet that reached the sequence check. The tracker never looks at the epoch. */
  datatype Numbered = Numbered(peer: PeerId, sequence: U64, epoch: U64)

  function TrackerRun(packets: seq<Numbered>): Tracker {
    if packets == [] then map[]
    else
      var last := packets[|packets| - 1];
      TrackerAfter(TrackerRun(packets[..|packets| - 1]), last.peer, last.sequence)
  }

  /** The largest sequence number of a peer among the packets; 0 when it has only sent legacy ones, or none. */
  function Largest(packets: seq<Numbered>, peer: PeerId): U64 {
    if packets == [] then 0
    else
      var before, last := Largest(packets[..|packets| - 1], peer), packets[|packets| - 1];
      if last.peer == peer then MaxU64(before, last.sequence) else before
  }

  /** The peers that sent a packet with a number. */
  function Numberers(packets: seq<Numbered>): set<PeerId> {
    set x | x in packets && x.sequence != 0 :: x.peer
  }

  /** The packet is one too many for a table that holds the senders of `era`. */
  predicate Overflows(era: seq<Numbered>, last: Numbered) {
    last.sequence != 0 && last.peer !in Numberers(era) && |Numberers(era)| >= 65536
  }

  /** The packets since the table was last cleared: a numbered packet of a further sender clears it when
      65536 senders are in it, and is the first of the next era. */
  function Era(packets: seq<Numbered>): seq<Numbered> {
    if packets == [] then []
    else
      var before, last := Era(packets[..|packets| - 1]), packets[|packets| - 1];
      if Overflows(before, last) then [last] else before + [last]
  }

  lemma NumberersMore(packets: seq<Numbered>, last: Numbered)
    ensures Numberers(packets + [last]) == Numberers(packets) + (if last.sequence != 0 then {last.peer} else {})
    ensures forall p :: Largest(packets + [last], p) == if last.peer == p then MaxU64(Largest(packets, p), last.sequence) else Largest(packets, p)
  {
    assert (packets + [last])[..|packets|] == packets;
    assert forall x :: x in packets + [last] <==> x in packets || x == last;
  }

  /** The table holds the largest number of each sender of the era. */
  ghost predicate HoldsLargest(tracker: Tracker, era: seq<Numbered>) {
    && tracker.Keys == Numberers(era)
    && forall p :: (p in tracker <==> Largest(era, p) > 0) && (p in tracker ==> tracker[p] == Largest(era, p))
  }

  lemma PacketKept(tracker: Tracker, era: seq<Numbered>, last: Numbered)
    requires HoldsLargest(tracker, era) && Disposition(tracker, last.peer, last.sequence) != New
    ensures HoldsLargest(tracker, era + [last])
  {
    hide Numberers, Largest;
    NumberersMore(era, last);
    assert tracker.Keys + {last.peer} == tracker.Keys || last.sequence == 0;
  }

  lemma PacketPut(tracker: Tracker, era: seq<Numbered>, last: Numbered)
    requires HoldsLargest(tracker, era) && Disposition(tracker, last.peer, last.sequence) == New
    ensures HoldsLargest(tracker[last.peer := last.sequence], era + [last])
  {
    hide Numberers, Largest;
    NumberersMore(era, last);
  }

  lemma EmptyEra()
    ensures Numberers([]) == {} && forall p :: Largest([], p) == 0
  {
  }

  lemma FirstOfEra(last: Numbered)
    requires last.sequence != 0
    ensures HoldsLargest(map[last.peer := last.sequence], [last])
  {
    hide Numberers, Largest;
    EmptyEra();
    NumberersMore([], last);
    assert [] + [last] == [last];
  }

  lemma TrackerStep(tracker: Tracker, era: seq<Numbered>, last: Numbered)
    requires HoldsLargest(tracker, era)
    ensures HoldsLargest(TrackerAfter(tracker, last.peer, last.sequence), if Overflows(era, last) then [last] else era + [last])
  {
    assert tracker.Keys == Numberers(era) && |tracker| == |tracker.Keys|;
    hide HoldsLargest, Numberers;
    if Overflows(era, last) {
      FirstOfEra(last);
    } else if Disposition(tracker, last.peer, last.sequence) == New {
      PacketPut(tracker, era, last);
    } else {
      PacketKept(tracker, era, last);
    }
  }

  lemma {:induction false} TrackerHoldsEra(packets: seq<Numbered>)
    ensures HoldsLargest(TrackerRun(packets), Era(packets))
  {
    hide HoldsLargest, Overflows;
    if packets == [] {
      NothingTracked();
    } else {
      var n := |packets| - 1;
      TrackerHoldsEra(packets[..n]);
      TrackerStep(TrackerRun(packets[..n]), Era(packets[..n]), packets[n]);
    }
  }

  lemma NothingTracked()
    ensures HoldsLargest(map[], [])
  {
  }

  /** After any history whatever, a packet is judged by its peer's largest number since the table was last
      cleared: a duplicate if and only if it is that number, reordered if smaller, new if larger. */
  lemma DispositionExactly(before: seq<Numbered>, peer: PeerId, sequence: U64)
    ensures var largest := Largest(Era(before), peer);
            Disposition(TrackerRun(before), peer, sequence)
            == if sequence == 0 then Legacy
               else if sequence == largest then Duplicate
               else if sequence < largest then Reordered
               else New
  {
    hide Era, TrackerRun, Numberers, Largest;
    TrackerHoldsEra(before);
  }

  /** So a repeat of any smaller number gets through, as a reordered packet. */
  lemma OlderRepeatGetsThrough(before: seq<Numbered>, peer: PeerId, older: U64)
    requires 0 < older < Largest(Era(before), peer)
    ensures Disposition(TrackerRun(before), peer, older) == Reordered
  {
    DispositionExactly(before, peer, older);
  }

  /** Until more senders than the table holds have come, nothing is ever cleared. */
  lemma {:induction false} NothingClearedAtFirst(packets: seq<Numbered>)
    requires |Numberers(packets)| <= 65536
    ensures Era(packets) == packets
  {
    if packets != [] {
      var front, last := packets[..|packets| - 1], packets[|packets| - 1];
      assert packets == front + [last];
      NumberersMore(front, last);
      if last.sequence != 0 && last.peer !in Numberers(front) {
        assert |Numberers(packets)| == |Numberers(front)| + 1;
      } else {
        assert Numberers(packets) == Numberers(front);
      }
      NothingClearedAtFirst(front);
    }
  }

  /** What an era's largest number is, the peer has sent at some time. */
  lemma {:induction false} LargestWasSent(packets: seq<Numbered>, peer: PeerId) returns (x: Numbered)
    requires Largest(packets, peer) > 0
    ensures x in packets && x.peer == peer && x.sequence == Largest(packets, peer)
  {
    var front, last := packets[..|packets| - 1], packets[|packets| - 1];
    if last.peer == peer && last.sequence == Largest(packets, peer) {
      x := last;
    } else {
      x := LargestWasSent(front, peer);
    }
  }

  lemma {:induction false} EraIsPart(packets: seq<Numbered>, x: Numbered)
    requires x in Era(packets)
    ensures x in packets
  {
    var front := packets[..|packets| - 1];
    if x in Era(front) {
      EraIsPart(front, x);
    }
  }
}
