/** What a session looks like after any run of the loop, told from the log alone: its state, its epoch and the
    number it has come to. */
module SessionStates {
  import opened Protocol
  import opened SessionSpec
  import opened SessionRuns

  /** Probes show the way up, lost ones and waits the way down, and a successful callback starts over. */
  function StateAfter(cfg: SessionConfig, s: Session, log: seq<Event>): RelayConnectionState {
    if log == [] then s.state
    else
      var before := StateAfter(cfg, s, log[..|log| - 1]);
      match log[|log| - 1]
      case Sent(_, _) => if before == Disconnected then Connecting else before
      case Answered(_) => if before == RoomJoined || before == Resynced then Healthy else before
      case Lost => if LostInARow(s.failures, log) >= cfg.degradedAfterFailures then Degraded else before
      case Waited(_) => Reconnecting
      case CalledBack(answer) => if answer.Some? then Resynced else Reconnecting
  }

  /** The epoch is the one the last successful callback brought. */
  function EpochAfter(start: U64, log: seq<Event>): U64 {
    if log == [] then start
    else if log[|log| - 1].CalledBack? && log[|log| - 1].answer.Some? then log[|log| - 1].answer.value
    else EpochAfter(start, log[..|log| - 1])
  }

  /** Every message sent counts one, up to the largest number there is; a successful callback starts at zero. */
  function NumberAfter(start: U64, log: seq<Event>): U64 {
    if log == [] then start
    else
      var before := NumberAfter(start, log[..|log| - 1]);
      match log[|log| - 1]
      case Sent(_, _) => if before < U64_MAX then before + 1 else before
      case CalledBack(answer) => if answer.Some? then 0 else before
      case _ => before
  }

  ghost predicate Tells(cfg: SessionConfig, s: Session, log: seq<Event>, session: Session) {
    && session.state == StateAfter(cfg, s, log)
    && session.epoch == EpochAfter(s.epoch, log)
    && session.nextSequence == NumberAfter(s.nextSequence, log)
  }

  /** Every message carries the session's epoch at that point of the log and the next number. */
  ghost predicate NumbersRight(s: Session, log: seq<Event>) {
    forall i :: 0 <= i < |log| && log[i].Sent? ==>
      log[i].epoch == EpochAfter(s.epoch, log[..i]) && log[i].sequence == NumberAfter(s.nextSequence, log[..i + 1])
  }

  lemma OneEvent(cfg: SessionConfig, s: Session, log: seq<Event>, e: Event)
    ensures var before := StateAfter(cfg, s, log);
            StateAfter(cfg, s, log + [e])
            == match e
               case Sent(_, _) => if before == Disconnected then Connecting else before
               case Answered(_) => if before == RoomJoined || before == Resynced then Healthy else before
               case Lost => if LostInARow(s.failures, log) + 1 >= cfg.degradedAfterFailures then Degraded else before
               case Waited(_) => Reconnecting
               case CalledBack(answer) => if answer.Some? then Resynced else Reconnecting
    ensures EpochAfter(s.epoch, log + [e]) == if e.CalledBack? && e.answer.Some? then e.answer.value else EpochAfter(s.epoch, log)
    ensures var before := NumberAfter(s.nextSequence, log);
            NumberAfter(s.nextSequence, log + [e])
            == if e.Sent? && before < U64_MAX then before + 1 else if e.CalledBack? && e.answer.Some? then 0 else before
  {
    assert (log + [e])[..|log|] == log;
    CountsMore(s.failures, log, e);
    hide LostInARow, FailedCallbacks;
  }

  lemma NumbersMore(s: Session, log: seq<Event>, e: Event)
    requires NumbersRight(s, log)
    requires e.Sent? ==> e.epoch == EpochAfter(s.epoch, log) && e.sequence == NumberAfter(s.nextSequence, log + [e])
    ensures NumbersRight(s, log + [e])
  {
    var log' := log + [e];
    forall i | 0 <= i < |log'| && log'[i].Sent?
      ensures log'[i].epoch == EpochAfter(s.epoch, log'[..i]) && log'[i].sequence == NumberAfter(s.nextSequence, log'[..i + 1])
    {
      if i < |log| {
        assert log'[..i] == log[..i] && log'[..i + 1] == log[..i + 1];
      } else {
        assert log'[..i] == log && log'[..i + 1] == log';
      }
    }
  }

  lemma ProbeTells(cfg: SessionConfig, s: Session, before: Traced, turn: Turn)
    requires before.mode == Probing && Tells(cfg, s, before.log, before.session) && NumbersRight(s, before.log)
    requires before.session.failures == Capped(LostInARow(s.failures, before.log))
    ensures var after := TurnTaken(cfg, before.session, Probing, turn);
            Tells(cfg, s, before.log + after.log, after.session) && NumbersRight(s, before.log + after.log)
  {
    hide StateAfter, EpochAfter, NumberAfter, NumbersRight, LostInARow, SortedCopy, Rank;
    var log, events := before.log, TurnTaken(cfg, before.session, Probing, turn).log;
    OneEvent(cfg, s, log, events[0]);
    OneEvent(cfg, s, log + [events[0]], events[1]);
    CountsMore(s.failures, log, events[0]);
    NumbersMore(s, log, events[0]);
    NumbersMore(s, log + [events[0]], events[1]);
    assert log + events == log + [events[0]] + [events[1]];
  }

  lemma OutageTells(cfg: SessionConfig, s: Session, before: Traced, turn: Turn)
    requires before.mode == Recovering && Tells(cfg, s, before.log, before.session) && NumbersRight(s, before.log)
    ensures var after := TurnTaken(cfg, before.session, Recovering, turn);
            Tells(cfg, s, before.log + after.log, after.session) && NumbersRight(s, before.log + after.log)
  {
    hide StateAfter, EpochAfter, NumberAfter, NumbersRight, LostInARow, Backoff;
    var log, events := before.log, TurnTaken(cfg, before.session, Recovering, turn).log;
    OneEvent(cfg, s, log, events[0]);
    OneEvent(cfg, s, log + [events[0]], events[1]);
    NumbersMore(s, log, events[0]);
    NumbersMore(s, log + [events[0]], events[1]);
    assert log + events == log + [events[0]] + [events[1]];
  }

  /** After every run of the loop, entered with whatever session, the log tells the session's state, epoch and
      number, and every message in it went out with the epoch and the number due at that point. */
  lemma {:induction false} LogTellsSession(cfg: SessionConfig, s: Session, turns: seq<Turn>)
    ensures var traced := Trace(cfg, s, turns);
            Tells(cfg, s, traced.log, traced.session) && NumbersRight(s, traced.log)
  {
    hide TurnTaken, NumbersRight, LostInARow, FailedCallbacks;
    if turns == [] {
      NothingSent(s);
    } else {
      var before, turn := Trace(cfg, s, turns[..|turns| - 1]), turns[|turns| - 1];
      LogTellsSession(cfg, s, turns[..|turns| - 1]);
      CallbackOnlyAtThreshold(cfg, s, turns[..|turns| - 1]);
      hide Tells;
      if before.mode == Probing {
        ProbeTells(cfg, s, before, turn);
      } else {
        OutageTells(cfg, s, before, turn);
      }
    }
  }

  lemma NothingSent(s: Session)
    ensures NumbersRight(s, [])
  {
  }

  /** The first message after an authentication carries its epoch, and numbers go on from where they were. */
  lemma AuthenticatedNext(s: Session, epoch: U64)
    ensures var next := WithNextSequence(Authenticate(s, epoch));
            && next.epoch == epoch && next.state == Authenticated && next.nextSequence == NumberAfter(s.nextSequence, [Sent(epoch, 0)])
            && SameStatistics(s, next) && next.failures == s.failures && next.attempts == s.attempts
  {
    assert [Sent(epoch, 0)][..0] == [];
  }

  // ---------------------------------------------------------------- what users see

  /** While the loop is recovering the session shows as degraded, before its first wait, or as reconnecting. */
  lemma OutageShows(cfg: SessionConfig, s: Session, turns: seq<Turn>)
    requires Trace(cfg, s, turns).mode == Recovering
    ensures var traced := Trace(cfg, s, turns);
            && traced.log != []
            && traced.session.state == if traced.log[|traced.log| - 1] == Lost then Degraded else Reconnecting
  {
    hide ProbeSucceeded, Backoff;
  }

  /** Once a callback has succeeded the session is resynced; the next answered probe makes it healthy, and a lost
      one below the threshold leaves it as it is. */
  lemma RecoveryShows(cfg: SessionConfig, s: Session, turns: seq<Turn>, epoch: U64, rtt: Duration)
    requires Trace(cfg, s, turns).mode == Recovering
    ensures var back := Turn(None, Some(epoch));
            var resynced := Trace(cfg, s, turns + [back]);
            && resynced.mode == Probing && resynced.session.state == Resynced
            && Trace(cfg, s, turns + [back] + [Turn(Some(rtt), None)]).session.state == Healthy
            && (1 < cfg.degradedAfterFailures ==> Trace(cfg, s, turns + [back] + [Turn(None, None)]).session.state == Resynced)
  {
    hide SortedCopy, Rank, Backoff;
    var back := Turn(None, Some(epoch));
    assert (turns + [back])[..|turns|] == turns;
    assert (turns + [back] + [Turn(Some(rtt), None)])[..|turns| + 1] == turns + [back];
    assert (turns + [back] + [Turn(None, None)])[..|turns| + 1] == turns + [back];
  }

  /** A session is healthy only if it was when the loop began, or a probe has been answered since. */
  lemma {:induction false} HealthyWasAnswered(cfg: SessionConfig, s: Session, log: seq<Event>)
    requires StateAfter(cfg, s, log) == Healthy
    ensures s.state == Healthy || exists i :: 0 <= i < |log| && log[i].Answered?
  {
    hide LostInARow;
    if log != [] && !log[|log| - 1].Answered? {
      HealthyWasAnswered(cfg, s, log[..|log| - 1]);
    }
  }
}
