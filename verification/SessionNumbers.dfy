/** The numbers a client session puts on its packets, over its whole life and across reconnects. */
module SessionNumbers {
  import opened Protocol
  import opened SessionSpec

  predicate Before(a: Event, b: Event)
    requires a.Sent? && b.Sent?
  {
    a.epoch < b.epoch || (a.epoch == b.epoch && a.sequence < b.sequence)
  }

  ghost predicate StrictlyOrdered(log: seq<Event>) {
    forall i, j :: 0 <= i < j < |log| && log[i].Sent? && log[j].Sent? ==> Before(log[i], log[j])
  }

  /** All that was sent is at most what the session numbered last. */
  ghost predicate SentUpTo(log: seq<Event>, s: Session) {
    forall i :: 0 <= i < |log| && log[i].Sent? ==>
      log[i].epoch < s.epoch || (log[i].epoch == s.epoch && log[i].sequence <= s.nextSequence)
  }

  ghost predicate InOrderUpTo(log: seq<Event>, s: Session) {
    StrictlyOrdered(log) && SentUpTo(log, s)
  }

  /** A callback that succeeds in this turn answers with a later epoch than the session had. */
  predicate Rises(before: Traced, turn: Turn) {
    before.mode == Recovering && turn.reconnect.Some? ==> before.session.epoch < turn.reconnect.value
  }

  ghost predicate EpochsRise(cfg: SessionConfig, s: Session, turns: seq<Turn>) {
    turns != [] ==>
      var front := turns[..|turns| - 1];
      EpochsRise(cfg, s, front) && Rises(Trace(cfg, s, front), turns[|turns| - 1])
  }

  // ---------------------------------------------------------------- one turn

  lemma OneMoreSent(log: seq<Event>, s: Session, e: Event, rest: Event)
    requires InOrderUpTo(log, s) && s.nextSequence < U64_MAX && !rest.Sent?
    requires e == Sent(s.epoch, s.nextSequence + 1)
    ensures InOrderUpTo(log + [e, rest], s.(nextSequence := s.nextSequence + 1))
  {
  }

  lemma NothingMoreSent(log: seq<Event>, s: Session, a: Event, b: Event)
    requires InOrderUpTo(log, s) && !a.Sent? && !b.Sent?
    ensures InOrderUpTo(log + [a, b], s)
  {
  }

  lemma SameNumbers(log: seq<Event>, a: Session, b: Session)
    requires InOrderUpTo(log, a)
    requires a.epoch < b.epoch || (a.epoch == b.epoch && a.nextSequence == b.nextSequence)
    ensures InOrderUpTo(log, b)
  {
  }

  /** What a turn does to the numbers. */
  lemma TurnNumbers(cfg: SessionConfig, s: Session, mode: Mode, turn: Turn)
    ensures var after := TurnTaken(cfg, s, mode, turn);
            && |after.log| == 2 && !after.log[1].Sent?
            && (match mode
                case Probing =>
                  && after.session.epoch == s.epoch
                  && after.session.nextSequence == MaxU64(SaturatingSucc(s.nextSequence), 1)
                  && after.log[0] == Sent(s.epoch, after.session.nextSequence)
                case Recovering =>
                  && !after.log[0].Sent?
                  && (if turn.reconnect.Some? then after.session.epoch == turn.reconnect.value && after.session.nextSequence == 0
                                                   && after.mode == Probing
                      else after.session.epoch == s.epoch && after.session.nextSequence == s.nextSequence && after.mode == Recovering))
  {
  }

  lemma TurnKeepsOrder(cfg: SessionConfig, past: seq<Event>, s: Session, mode: Mode, turn: Turn)
    requires InOrderUpTo(past, s) && s.nextSequence < U64_MAX && Rises(Traced(s, mode, []), turn)
    ensures var after := TurnTaken(cfg, s, mode, turn);
            InOrderUpTo(past + after.log, after.session) && after.session.nextSequence <= s.nextSequence + 1
  {
    hide TurnTaken, InOrderUpTo;
    TurnNumbers(cfg, s, mode, turn);
    var after := TurnTaken(cfg, s, mode, turn);
    assert after.log == [after.log[0], after.log[1]];
    if mode == Probing {
      OneMoreSent(past, s, after.log[0], after.log[1]);
      SameNumbers(past + after.log, s.(nextSequence := s.nextSequence + 1), after.session);
    } else {
      NothingMoreSent(past, s, after.log[0], after.log[1]);
      SameNumbers(past + after.log, s, after.session);
    }
  }

  // ---------------------------------------------------------------- the loop

  /** While reconnects bring later epochs, and short of 2^64 packets, what the loop sends goes on from
      whatever was sent before it was entered: (epoch, sequence) pairs rise strictly, across every outage. */
  lemma {:induction false} SentPairsRise(cfg: SessionConfig, past: seq<Event>, s: Session, turns: seq<Turn>)
    requires InOrderUpTo(past, s) && s.nextSequence + |turns| < U64_MAX && EpochsRise(cfg, s, turns)
    ensures var traced := Trace(cfg, s, turns);
            InOrderUpTo(past + traced.log, traced.session) && traced.session.nextSequence <= s.nextSequence + |turns|
  {
    hide TurnTaken, InOrderUpTo;
    if turns == [] {
      assert past + [] == past;
    } else {
      var n := |turns| - 1;
      SentPairsRise(cfg, past, s, turns[..n]);
      var before := Trace(cfg, s, turns[..n]);
      TurnKeepsOrder(cfg, past + before.log, before.session, before.mode, turns[n]);
      var log := TurnTaken(cfg, before.session, before.mode, turns[n]).log;
      assert past + before.log + log == past + (before.log + log);
    }
  }

  predicate LastSentIsCurrent(log: seq<Event>, s: Session, mode: Mode) {
    mode == Recovering ==> exists k :: 0 <= k < |log| && SentIn(log[k], s.epoch)
  }

  predicate SentIn(e: Event, epoch: U64) {
    e.Sent? && e.epoch == epoch && e.sequence > 0
  }

  /** An outage begins with a probe, so something has been sent in the epoch that it ends. */
  lemma {:induction false} OutageHasSent(cfg: SessionConfig, s: Session, turns: seq<Turn>)
    ensures var traced := Trace(cfg, s, turns);
            LastSentIsCurrent(traced.log, traced.session, traced.mode)
  {
    hide TurnTaken;
    if turns != [] {
      var n := |turns| - 1;
      var before := Trace(cfg, s, turns[..n]);
      var log := TurnTaken(cfg, before.session, before.mode, turns[n]).log;
      OutageHasSent(cfg, s, turns[..n]);
      TurnNumbers(cfg, before.session, before.mode, turns[n]);
      if before.mode == Probing {
        assert SentIn((before.log + log)[|before.log|], before.session.epoch);
      } else if turns[n].reconnect.None? {
        var k :| 0 <= k < |before.log| && SentIn(before.log[k], before.session.epoch);
        assert SentIn((before.log + log)[k], before.session.epoch);
      }
    }
  }

  lemma OrderedPart(a: seq<Event>, b: seq<Event>)
    requires StrictlyOrdered(a + b)
    ensures StrictlyOrdered(a)
  {
    assert forall i :: 0 <= i < |a| ==> (a + b)[i] == a[i];
  }

  /** After a reconnect into an epoch that is not later, the next packet breaks the order. */
  lemma NextPacketTells(cfg: SessionConfig, s: Session, turns: seq<Turn>, next: Turn, past: seq<Event>)
    requires turns != [] && StrictlyOrdered(past + Trace(cfg, s, turns + [next]).log)
    ensures Rises(Trace(cfg, s, turns[..|turns| - 1]), turns[|turns| - 1])
  {
    hide TurnTaken;
    var n := |turns| - 1;
    var before, turn := Trace(cfg, s, turns[..n]), turns[n];
    if before.mode == Recovering && turn.reconnect.Some? {
      assert (turns + [next])[..|turns|] == turns;
      var after := Trace(cfg, s, turns);
      OutageHasSent(cfg, s, turns[..n]);
      TurnNumbers(cfg, before.session, before.mode, turn);
      TurnNumbers(cfg, after.session, after.mode, next);
      var log := past + Trace(cfg, s, turns + [next]).log;
      var k :| 0 <= k < |before.log| && SentIn(before.log[k], before.session.epoch);
      assert log[|past| + k] == before.log[k];
      assert log[|past| + |after.log|] == Sent(turn.reconnect.value, 1);
      assert Before(log[|past| + k], log[|past| + |after.log|]);
    }
  }

  lemma {:induction false} OrderNeedsRisingEpochs(cfg: SessionConfig, past: seq<Event>, s: Session, turns: seq<Turn>, next: Turn)
    requires StrictlyOrdered(past + Trace(cfg, s, turns + [next]).log)
    ensures EpochsRise(cfg, s, turns)
  {
    hide TurnTaken, StrictlyOrdered;
    if turns != [] {
      var front, last := turns[..|turns| - 1], turns[|turns| - 1];
      var log := Trace(cfg, s, turns).log;
      assert (turns + [next])[..|turns|] == turns && front + [last] == turns;
      NextPacketTells(cfg, s, turns, next, past);
      var more := Trace(cfg, s, turns + [next]).log;
      assert more == log + more[|log|..];
      assert past + more == past + log + more[|log|..];
      OrderedPart(past + log, more[|log|..]);
      OrderNeedsRisingEpochs(cfg, past, s, front, last);
    }
  }

  /** The pairs rise strictly if and only if every reconnect that was followed by another turn brought a
      later epoch: nothing weaker will do. */
  lemma SentPairsRiseExactly(cfg: SessionConfig, past: seq<Event>, s: Session, turns: seq<Turn>, last: Turn)
    requires InOrderUpTo(past, s) && s.nextSequence + |turns| < U64_MAX
    ensures StrictlyOrdered(past + Trace(cfg, s, turns + [last]).log) <==> EpochsRise(cfg, s, turns)
  {
    hide TurnTaken;
    if EpochsRise(cfg, s, turns) {
      SentPairsRise(cfg, past, s, turns);
      assert (turns + [last])[..|turns|] == turns;
      var before := Trace(cfg, s, turns);
      var log := TurnTaken(cfg, before.session, before.mode, last).log;
      LastTurnKeepsOrder(cfg, past + before.log, before.session, before.mode, last);
      assert past + before.log + log == past + (before.log + log);
    }
    if StrictlyOrdered(past + Trace(cfg, s, turns + [last]).log) {
      OrderNeedsRisingEpochs(cfg, past, s, turns, last);
    }
  }

  lemma LastTurnKeepsOrder(cfg: SessionConfig, past: seq<Event>, s: Session, mode: Mode, turn: Turn)
    requires InOrderUpTo(past, s) && s.nextSequence < U64_MAX
    ensures StrictlyOrdered(past + TurnTaken(cfg, s, mode, turn).log)
  {
    hide TurnTaken;
    TurnNumbers(cfg, s, mode, turn);
    var log := TurnTaken(cfg, s, mode, turn).log;
    assert log == [log[0], log[1]];
    if mode == Probing {
      OneMoreSent(past, s, log[0], log[1]);
    } else {
      NothingMoreSent(past, s, log[0], log[1]);
    }
  }

  // ---------------------------------------------------------------- a whole life

  /** What a client does with a session: runs the loop for a while, sends messages of its own in between, or
      is told a fresh epoch after authenticating. */
  datatype Activity = Ran(turns: seq<Turn>) | SentMessage | MarkedAuthenticated(epoch: U64)

  function Lived(cfg: SessionConfig, s: Session, a: Activity): (Session, seq<Event>) {
    match a
    case Ran(turns) => var traced := Trace(cfg, s, turns); (traced.session, traced.log)
    case SentMessage => var s' := WithNextSequence(s); (s', [Sent(s'.epoch, s'.nextSequence)])
    case MarkedAuthenticated(epoch) => (Authenticate(s, epoch), [])
  }

  function Life(cfg: SessionConfig, s: Session, activities: seq<Activity>): (Session, seq<Event>) {
    if activities == [] then (s, [])
    else
      var before := Life(cfg, s, activities[..|activities| - 1]);
      var last := Lived(cfg, before.0, activities[|activities| - 1]);
      (last.0, before.1 + last.1)
  }

  ghost predicate LifeRises(cfg: SessionConfig, s: Session, activities: seq<Activity>) {
    activities != [] ==>
      var front := activities[..|activities| - 1];
      LifeRises(cfg, s, front)
      && var now := Life(cfg, s, front).0;
         match activities[|activities| - 1]
         case Ran(turns) => EpochsRise(cfg, now, turns)
         case SentMessage => true
         case MarkedAuthenticated(epoch) => now.epoch <= epoch
  }

  /** At most how many packets the activities number. */
  function Effort(activities: seq<Activity>): nat {
    if activities == [] then 0
    else
      Effort(activities[..|activities| - 1])
      + match activities[|activities| - 1]
        case Ran(turns) => |turns|
        case SentMessage => 1
        case MarkedAuthenticated(_) => 0
  }

  lemma MessageKeepsOrder(past: seq<Event>, s: Session)
    requires InOrderUpTo(past, s) && s.nextSequence < U64_MAX
    ensures var s' := WithNextSequence(s);
            InOrderUpTo(past + [Sent(s'.epoch, s'.nextSequence)], s') && s'.nextSequence == s.nextSequence + 1
  {
  }

  /** From a new session on, whatever it does and in whatever order, the pairs it sends rise strictly, as
      long as epochs never go back and every reconnect brings a later one. */
  lemma {:induction false} LifePairsRise(cfg: SessionConfig, epoch: U64, activities: seq<Activity>)
    requires LifeRises(cfg, NewSession(epoch), activities) && Effort(activities) < U64_MAX
    ensures var life := Life(cfg, NewSession(epoch), activities);
            InOrderUpTo(life.1, life.0) && life.0.nextSequence <= Effort(activities)
  {
    hide Trace, InOrderUpTo, EpochsRise;
    if activities == [] {
      NothingSent(NewSession(epoch));
    } else {
      var n := |activities| - 1;
      var before := Life(cfg, NewSession(epoch), activities[..n]);
      LifePairsRise(cfg, epoch, activities[..n]);
      match activities[n] {
        case Ran(turns) => SentPairsRise(cfg, before.1, before.0, turns);
        case SentMessage => MessageKeepsOrder(before.1, before.0);
        case MarkedAuthenticated(newEpoch) =>
          SameNumbers(before.1, before.0, Authenticate(before.0, newEpoch));
          assert before.1 + [] == before.1;
      }
    }
  }

  lemma NothingSent(s: Session)
    ensures InOrderUpTo([], s)
  {
  }
}
