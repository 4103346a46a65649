/** What the client's reconnect loop guarantees over every series of probe and callback outcomes. */
module SessionRuns {
  import opened Protocol
  import opened SessionSpec

  // ---------------------------------------------------------------- when the callback runs

  /** Probes lost in a row, up to the end of the log, since the last answer or successful callback. `start`
      is what had been lost before the log begins. */
  function LostInARow(start: nat, log: seq<Event>): nat {
    if log == [] then start
    else
      var before := LostInARow(start, log[..|log| - 1]);
      match log[|log| - 1]
      case Lost => before + 1
      case Answered(_) => 0
      case CalledBack(answer) => if answer.Some? then 0 else before
      case _ => before
  }

  /** Callbacks that failed, up to the end of the log, since the last successful one. */
  function FailedCallbacks(start: nat, log: seq<Event>): nat {
    if log == [] then start
    else
      var before := FailedCallbacks(start, log[..|log| - 1]);
      match log[|log| - 1]
      case CalledBack(answer) => if answer.Some? then 0 else before + 1
      case _ => before
  }

  function Threshold(cfg: SessionConfig): nat {
    if cfg.degradedAfterFailures == 0 then 1 else cfg.degradedAfterFailures
  }

  function Capped(n: nat): U32 {
    if n > U32_MAX then U32_MAX else n
  }

  /** Enough probes are lost: as many as the threshold says, or more where a session was entered with the
      threshold already reached. */
  predicate Enough(cfg: SessionConfig, s: Session, lost: nat) {
    Threshold(cfg) <= lost && (s.failures < Threshold(cfg) ==> lost == Threshold(cfg))
  }

  /** An event and everything before it in the log of a loop entered with session `s`. Only the probe that
      the loop starts with can go out with the threshold already reached. */
  predicate Disciplined(cfg: SessionConfig, s: Session, before: seq<Event>, e: Event) {
    match e
    case CalledBack(_) => Enough(cfg, s, LostInARow(s.failures, before))
    case Waited(delay) =>
      delay == Backoff(cfg, FailedCallbacks(s.attempts, before)) && Enough(cfg, s, LostInARow(s.failures, before))
    case _ => LostInARow(s.failures, before) < Threshold(cfg) || |before| <= 1
  }

  ghost predicate AllDisciplined(cfg: SessionConfig, s: Session, log: seq<Event>) {
    forall k :: 0 <= k < |log| ==> Disciplined(cfg, s, log[..k], log[k])
  }

  lemma DisciplinedMore(cfg: SessionConfig, s: Session, log: seq<Event>, e: Event)
    requires AllDisciplined(cfg, s, log) && Disciplined(cfg, s, log, e)
    ensures AllDisciplined(cfg, s, log + [e])
  {
    hide Disciplined;
    forall k | 0 <= k < |log + [e]|
      ensures Disciplined(cfg, s, (log + [e])[..k], (log + [e])[k])
    {
      if k < |log| {
        assert (log + [e])[..k] == log[..k];
      } else {
        assert (log + [e])[..k] == log;
      }
    }
  }

  lemma CountsMore(start: nat, log: seq<Event>, e: Event)
    ensures LostInARow(start, log + [e]) == match e
                                            case Lost => LostInARow(start, log) + 1
                                            case Answered(_) => 0
                                            case CalledBack(answer) => if answer.Some? then 0 else LostInARow(start, log)
                                            case _ => LostInARow(start, log)
    ensures FailedCallbacks(start, log + [e]) == match e
                                                 case CalledBack(answer) => if answer.Some? then 0 else FailedCallbacks(start, log) + 1
                                                 case _ => FailedCallbacks(start, log)
  {
    assert (log + [e])[..|log|] == log;
  }

  /** The session's counters are what the log says, and the mode says which side of the threshold it is on. */
  ghost predicate CountersMatch(cfg: SessionConfig, s: Session, traced: Traced) {
    && traced.session.failures == Capped(LostInARow(s.failures, traced.log))
    && traced.session.attempts == Capped(FailedCallbacks(s.attempts, traced.log))
    && (traced.mode == Recovering ==> Enough(cfg, s, LostInARow(s.failures, traced.log)))
    && (traced.mode == Probing ==> LostInARow(s.failures, traced.log) < Threshold(cfg) || traced.log == [])
  }

  lemma BackoffCapped(cfg: SessionConfig, n: nat)
    ensures Backoff(cfg, Capped(n)) == Backoff(cfg, n)
  {
  }

  lemma EmptyLog(start: nat)
    ensures LostInARow(start, []) == start
  {
  }

  lemma ProbeEvents(cfg: SessionConfig, s: Session, log: seq<Event>, sent: Event, outcome: Event)
    requires AllDisciplined(cfg, s, log) && sent.Sent? && (outcome.Lost? || outcome.Answered?)
    requires LostInARow(s.failures, log) < Threshold(cfg) || log == []
    ensures var log' := log + [sent, outcome];
            && AllDisciplined(cfg, s, log')
            && LostInARow(s.failures, log') == (if outcome.Lost? then LostInARow(s.failures, log) + 1 else 0)
            && FailedCallbacks(s.attempts, log') == FailedCallbacks(s.attempts, log)
  {
    hide LostInARow, FailedCallbacks, AllDisciplined, Backoff;
    CountsMore(s.failures, log, sent);
    CountsMore(s.attempts, log, sent);
    CountsMore(s.failures, log + [sent], outcome);
    CountsMore(s.attempts, log + [sent], outcome);
    DisciplinedMore(cfg, s, log, sent);
    DisciplinedMore(cfg, s, log + [sent], outcome);
    assert log + [sent, outcome] == log + [sent] + [outcome];
  }

  lemma ProbeCounters(cfg: SessionConfig, s: Session, turn: Turn)
    ensures var after := TurnTaken(cfg, s, Probing, turn);
            && |after.log| == 2 && after.log[0].Sent? && (if turn.probe.Some? then after.log[1].Answered? else after.log[1].Lost?)
            && after.session.failures == (if turn.probe.Some? then 0 else SaturatingSucc32(s.failures))
            && after.session.attempts == s.attempts
            && after.mode == if turn.probe.None? && SaturatingSucc32(s.failures) >= cfg.degradedAfterFailures then Recovering else Probing
  {
  }

  lemma ProbingTurn(cfg: SessionConfig, s: Session, before: Traced, turn: Turn)
    requires CountersMatch(cfg, s, before) && AllDisciplined(cfg, s, before.log) && before.mode == Probing
    ensures var after := TurnTaken(cfg, before.session, before.mode, turn);
            CountersMatch(cfg, s, after.(log := before.log + after.log)) && AllDisciplined(cfg, s, before.log + after.log)
  {
    hide AllDisciplined, LostInARow, FailedCallbacks, TurnTaken;
    EmptyLog(s.failures);
    ProbeCounters(cfg, before.session, turn);
    var log := TurnTaken(cfg, before.session, before.mode, turn).log;
    assert log == [log[0], log[1]];
    ProbeEvents(cfg, s, before.log, log[0], log[1]);
  }

  /** In an outage the counters say that the threshold is reached; waiting and calling back keep it so,
      until a callback succeeds. */
  lemma OutageEvents(cfg: SessionConfig, s: Session, log: seq<Event>, attempts: U32, answer: Option<U64>)
    requires AllDisciplined(cfg, s, log) && Enough(cfg, s, LostInARow(s.failures, log))
    requires attempts == Capped(FailedCallbacks(s.attempts, log))
    ensures var log' := log + [Waited(Backoff(cfg, attempts)), CalledBack(answer)];
            && AllDisciplined(cfg, s, log')
            && LostInARow(s.failures, log') == (if answer.Some? then 0 else LostInARow(s.failures, log))
            && FailedCallbacks(s.attempts, log') == if answer.Some? then 0 else FailedCallbacks(s.attempts, log) + 1
  {
    hide LostInARow, FailedCallbacks, AllDisciplined, Backoff;
    var waited, called := Waited(Backoff(cfg, attempts)), CalledBack(answer);
    BackoffCapped(cfg, FailedCallbacks(s.attempts, log));
    CountsMore(s.failures, log, waited);
    CountsMore(s.attempts, log, waited);
    CountsMore(s.failures, log + [waited], called);
    CountsMore(s.attempts, log + [waited], called);
    DisciplinedMore(cfg, s, log, waited);
    DisciplinedMore(cfg, s, log + [waited], called);
    assert log + [waited, called] == log + [waited] + [called];
  }

  lemma RecoveringTurn(cfg: SessionConfig, s: Session, before: Traced, turn: Turn)
    requires CountersMatch(cfg, s, before) && AllDisciplined(cfg, s, before.log) && before.mode == Recovering
    ensures var after := TurnTaken(cfg, before.session, before.mode, turn);
            CountersMatch(cfg, s, after.(log := before.log + after.log)) && AllDisciplined(cfg, s, before.log + after.log)
  {
    hide AllDisciplined, LostInARow, FailedCallbacks, Backoff;
    OutageEvents(cfg, s, before.log, before.session.attempts, turn.reconnect);
  }

  /** Reconnect discipline, for a loop entered with any session. The callback runs, and a backoff is waited
      for, if and only if at least as many probes in a row have been lost as the threshold says (one, if it
      says zero): exactly as many, unless the session came with the threshold reached. Every backoff follows
      the formula, counting the callbacks that have failed in this outage. */
  lemma {:induction false} CallbackOnlyAtThreshold(cfg: SessionConfig, s: Session, turns: seq<Turn>)
    ensures AllDisciplined(cfg, s, Trace(cfg, s, turns).log)
    ensures CountersMatch(cfg, s, Trace(cfg, s, turns))
  {
    hide TurnTaken, CountersMatch, AllDisciplined;
    if turns == [] {
      NoEvents(cfg, s);
    } else {
      CallbackOnlyAtThreshold(cfg, s, turns[..|turns| - 1]);
      var before := Trace(cfg, s, turns[..|turns| - 1]);
      if before.mode == Probing {
        ProbingTurn(cfg, s, before, turns[|turns| - 1]);
      } else {
        RecoveringTurn(cfg, s, before, turns[|turns| - 1]);
      }
    }
  }

  lemma NoEvents(cfg: SessionConfig, s: Session)
    ensures CountersMatch(cfg, s, Traced(s, Probing, [])) && AllDisciplined(cfg, s, [])
  {
  }

  // ---------------------------------------------------------------- backoffs within one outage

  lemma {:induction false} PowersGrow(k: nat, n: nat)
    requires k <= n
    ensures 1 <= PowerOfTwo(k) <= PowerOfTwo(n)
    decreases n
  {
    if k < n {
      PowersGrow(k, n - 1);
    } else if 0 < k {
      PowersGrow(k - 1, n - 1);
    }
  }

  lemma BackoffGrows(cfg: SessionConfig, k: nat, n: nat)
    requires k <= n
    ensures Backoff(cfg, k) <= Backoff(cfg, n) <= cfg.reconnectMaxBackoff
  {
  }

  /** The first wait is the initial backoff, and each later one is twice the one before, neither over the maximum;
      from the sixth on they stay as they are. */
  lemma BackoffDoubles(cfg: SessionConfig, k: nat)
    ensures Backoff(cfg, 0) == if cfg.reconnectInitialBackoff <= cfg.reconnectMaxBackoff then cfg.reconnectInitialBackoff else cfg.reconnectMaxBackoff
    ensures k < 5 ==>
              Backoff(cfg, k + 1) == if 2 * Backoff(cfg, k) <= cfg.reconnectMaxBackoff then 2 * Backoff(cfg, k) else cfg.reconnectMaxBackoff
    ensures k >= 5 ==> Backoff(cfg, k) == Backoff(cfg, 5)
  {
    if k < 5 {
      TwiceThePower(cfg.reconnectInitialBackoff, k);
    }
  }

  lemma TwiceThePower(initial: nat, k: nat)
    ensures initial * PowerOfTwo(k + 1) == 2 * (initial * PowerOfTwo(k))
  {
  }

  /** No callback succeeds from position `i` up to position `j` of the log. */
  predicate OneOutage(log: seq<Event>, i: nat, j: nat)
    requires i <= j <= |log|
  {
    forall k :: i <= k < j && log[k].CalledBack? ==> log[k].answer.None?
  }

  lemma {:induction false} FailuresGrow(start: nat, log: seq<Event>, i: nat, j: nat)
    requires i <= j <= |log| && OneOutage(log, i, j)
    ensures FailedCallbacks(start, log[..i]) <= FailedCallbacks(start, log[..j])
    decreases j
  {
    hide FailedCallbacks;
    if i < j {
      FailuresGrow(start, log, i, j - 1);
      assert log[..j] == log[..j - 1] + [log[j - 1]];
      CountsMore(start, log[..j - 1], log[j - 1]);
    }
  }

  /** In one outage the waits never get shorter, and never exceed the maximum. */
  lemma WaitsNeverShrink(cfg: SessionConfig, s: Session, turns: seq<Turn>, i: nat, j: nat)
    requires var log := Trace(cfg, s, turns).log;
             i < j < |log| && log[i].Waited? && log[j].Waited? && OneOutage(log, i, j)
    ensures var log := Trace(cfg, s, turns).log;
            log[i].delay <= log[j].delay <= cfg.reconnectMaxBackoff
  {
    hide Trace, Backoff;
    var log := Trace(cfg, s, turns).log;
    CallbackOnlyAtThreshold(cfg, s, turns);
    FailuresGrow(s.attempts, log, i, j);
    BackoffGrows(cfg, FailedCallbacks(s.attempts, log[..i]), FailedCallbacks(s.attempts, log[..j]));
    assert Disciplined(cfg, s, log[..i], log[i]) && Disciplined(cfg, s, log[..j], log[j]);
  }

  /** Every turn leaves two events in the log. */
  lemma {:induction false} TurnsInLog(cfg: SessionConfig, s: Session, turns: seq<Turn>, k: nat)
    requires k < |turns|
    ensures |Trace(cfg, s, turns).log| == 2 * |turns|
    ensures var before := Trace(cfg, s, turns[..k]);
            && Trace(cfg, s, turns).log[2 * k..2 * k + 2] == TurnTaken(cfg, before.session, before.mode, turns[k]).log
            && Trace(cfg, s, turns[..k + 1]).mode == TurnTaken(cfg, before.session, before.mode, turns[k]).mode
  {
    hide TurnTaken;
    var n := |turns| - 1;
    assert turns[..k + 1][..k] == turns[..k];
    TwoEvents(cfg, Trace(cfg, s, turns[..n]), turns[n]);
    if k < n {
      TurnsInLog(cfg, s, turns[..n], k);
      assert turns[..n][..k] == turns[..k];
    } else if 0 < n {
      TurnsInLog(cfg, s, turns[..n], 0);
    }
  }

  lemma TwoEvents(cfg: SessionConfig, before: Traced, turn: Turn)
    ensures var after := TurnTaken(cfg, before.session, before.mode, turn);
            && |after.log| == 2 && !after.log[1].Waited? && !after.log[0].CalledBack?
            && (after.log[0].Waited? <==> before.mode == Recovering) && (after.log[1].CalledBack? <==> before.mode == Recovering)
            && (after.log[1] == CalledBack(None) ==> after.mode == Recovering)
  {
    hide Backoff, ProbeFailed, ProbeSucceeded, Degrades;
  }

  /** A wait is followed by the callback, and that, if it fails, by the next wait. */
  lemma WaitThenCall(cfg: SessionConfig, s: Session, turns: seq<Turn>, i: nat)
    requires i < |Trace(cfg, s, turns).log| && Trace(cfg, s, turns).log[i].Waited?
    ensures var log := Trace(cfg, s, turns).log;
            && i + 1 < |log| && log[i + 1].CalledBack?
            && (i + 2 < |log| && log[i + 1].answer.None? ==> log[i + 2].Waited?)
  {
    hide Trace, TurnTaken;
    var log, k := Trace(cfg, s, turns).log, i / 2;
    if turns == [] {
      NoTurns(cfg, s);
    } else {
      TurnsInLog(cfg, s, turns, 0);
      TurnsInLog(cfg, s, turns, k);
      TwoEvents(cfg, Trace(cfg, s, turns[..k]), turns[k]);
      assert log[2 * k..2 * k + 2] == [log[2 * k], log[2 * k + 1]];
      if k + 1 < |turns| {
        TurnsInLog(cfg, s, turns, k + 1);
        TwoEvents(cfg, Trace(cfg, s, turns[..k + 1]), turns[k + 1]);
        assert log[2 * k + 2..2 * k + 4] == [log[2 * k + 2], log[2 * k + 3]];
      }
    }
  }

  lemma NoTurns(cfg: SessionConfig, s: Session)
    ensures Trace(cfg, s, []).log == []
  {
  }

  /** The waits of one outage, read off the log: while no callback has failed the wait is the initial backoff, and
      after each of the first five failures it is twice the wait before, neither over the maximum; after that it
      does not change any more. */
  lemma WaitsDouble(cfg: SessionConfig, s: Session, turns: seq<Turn>, i: nat)
    requires i < |Trace(cfg, s, turns).log| && Trace(cfg, s, turns).log[i].Waited?
    ensures var log, initial, max := Trace(cfg, s, turns).log, cfg.reconnectInitialBackoff, cfg.reconnectMaxBackoff;
            var failed := FailedCallbacks(s.attempts, log[..i]);
            && (failed == 0 ==> log[i].delay == if initial <= max then initial else max)
            && i + 1 < |log| && log[i + 1].CalledBack?
            && (i + 2 < |log| && log[i + 1].answer.None? ==>
                  && log[i + 2].Waited?
                  && log[i + 2].delay == if failed >= 5 then log[i].delay else if 2 * log[i].delay <= max then 2 * log[i].delay else max)
  {
    hide Trace, Backoff, FailedCallbacks, LostInARow;
    var log := Trace(cfg, s, turns).log;
    CallbackOnlyAtThreshold(cfg, s, turns);
    WaitThenCall(cfg, s, turns, i);
    var failed := FailedCallbacks(s.attempts, log[..i]);
    assert Disciplined(cfg, s, log[..i], log[i]);
    BackoffDoubles(cfg, failed);
    if i + 2 < |log| && log[i + 1].answer.None? {
      assert Disciplined(cfg, s, log[..i + 2], log[i + 2]);
      CountsMore(s.attempts, log[..i], log[i]);
      CountsMore(s.attempts, log[..i] + [log[i]], log[i + 1]);
      assert log[..i + 2] == log[..i] + [log[i]] + [log[i + 1]];
      BackoffDoubles(cfg, failed + 1);
    }
  }

  // ---------------------------------------------------------------- round-trip times

  /** A round-trip time as it is reported, in 64 bits. */
  function Reported(rtt: Duration): U64 {
    if rtt < 0x1_0000_0000_0000_0000 then rtt else 0xFFFF_FFFF_FFFF_FFFF
  }

  function AnsweredTimes(log: seq<Event>): seq<U64> {
    if log == [] then []
    else
      var last := log[|log| - 1];
      AnsweredTimes(log[..|log| - 1]) + (if last.Answered? then [Reported(last.rtt)] else [])
  }

  function LastOf(s: seq<U64>, n: nat): seq<U64> {
    if |s| <= n then s else s[|s| - n..]
  }

  function CountBelow(s: seq<U64>, x: U64): nat {
    if s == [] then 0 else CountBelow(s[1..], x) + (if s[0] < x then 1 else 0)
  }

  function CountAtMost(s: seq<U64>, x: U64): nat {
    if s == [] then 0 else CountAtMost(s[1..], x) + (if s[0] <= x then 1 else 0)
  }

  /** `x` is the sample of that rank: fewer than `rank + 1` are below it, and more than `rank` at most it. */
  predicate IsOrderStatistic(samples: seq<U64>, rank: nat, x: U64) {
    x in samples && CountBelow(samples, x) <= rank < CountAtMost(samples, x)
  }

  predicate Ascending(s: seq<U64>) {
    forall i, j :: 0 <= i < j < |s| ==> s[i] <= s[j]
  }

  lemma {:induction false} InsertCounts(sorted: seq<U64>, y: U64, x: U64)
    ensures CountBelow(Insert(sorted, y), x) == CountBelow(sorted, x) + (if y < x then 1 else 0)
    ensures CountAtMost(Insert(sorted, y), x) == CountAtMost(sorted, x) + (if y <= x then 1 else 0)
  {
    if sorted == [] || y <= sorted[0] {
      assert ([y] + sorted)[1..] == sorted;
    } else {
      InsertCounts(sorted[1..], y, x);
      var r := [sorted[0]] + Insert(sorted[1..], y);
      assert r[1..] == Insert(sorted[1..], y);
    }
  }

  lemma {:induction false} InsertElements(sorted: seq<U64>, y: U64, z: U64)
    ensures z in Insert(sorted, y) <==> z in sorted || z == y
  {
    if sorted == [] || y <= sorted[0] {
    } else {
      InsertElements(sorted[1..], y, z);
      assert sorted == [sorted[0]] + sorted[1..];
    }
  }

  lemma {:induction false} InsertAscends(sorted: seq<U64>, y: U64)
    requires Ascending(sorted)
    ensures Ascending(Insert(sorted, y))
  {
    if sorted == [] || y <= sorted[0] {
    } else {
      InsertAscends(sorted[1..], y);
      var rest := Insert(sorted[1..], y);
      forall i | 0 <= i < |rest|
        ensures sorted[0] <= rest[i]
      {
        InsertElements(sorted[1..], y, rest[i]);
      }
    }
  }

  lemma {:induction false} CountsAppend(s: seq<U64>, y: U64, x: U64)
    ensures CountBelow(s + [y], x) == CountBelow(s, x) + (if y < x then 1 else 0)
    ensures CountAtMost(s + [y], x) == CountAtMost(s, x) + (if y <= x then 1 else 0)
  {
    if s == [] {
      assert ([y])[1..] == [];
    } else {
      CountsAppend(s[1..], y, x);
      assert (s + [y])[1..] == s[1..] + [y];
    }
  }

  /** The copy is sorted, and has the same elements as often. */
  lemma {:induction false} SortedCopyIsSorted(s: seq<U64>, x: U64)
    ensures Ascending(SortedCopy(s)) && (x in SortedCopy(s) <==> x in s)
    ensures CountBelow(SortedCopy(s), x) == CountBelow(s, x) && CountAtMost(SortedCopy(s), x) == CountAtMost(s, x)
  {
    if s != [] {
      var front, last := s[..|s| - 1], s[|s| - 1];
      SortedCopyIsSorted(front, x);
      InsertAscends(SortedCopy(front), last);
      InsertElements(SortedCopy(front), last, x);
      InsertCounts(SortedCopy(front), last, x);
      CountsAppend(front, last, x);
      assert front + [last] == s;
    }
  }

  lemma {:induction false} CountsInSorted(s: seq<U64>, k: nat, x: U64)
    requires Ascending(s) && k < |s| && x == s[k]
    ensures CountBelow(s, x) <= k < CountAtMost(s, x)
  {
    if k == 0 {
      NoneBelowFirst(s, x);
    } else {
      CountsInSorted(s[1..], k - 1, x);
    }
  }

  lemma {:induction false} NoneBelowFirst(s: seq<U64>, x: U64)
    requires Ascending(s) && (s != [] ==> x <= s[0])
    ensures CountBelow(s, x) == 0
  {
    if s != [] {
      assert forall i :: 0 <= i < |s[1..]| ==> s[0] <= s[1..][i];
      NoneBelowFirst(s[1..], x);
    }
  }

  lemma PercentileIsOrderStatistic(samples: seq<U64>, rank: nat)
    requires rank < |samples|
    ensures IsOrderStatistic(samples, rank, SortedCopy(samples)[rank])
  {
    var x := SortedCopy(samples)[rank];
    SortedCopyIsSorted(samples, x);
    CountsInSorted(SortedCopy(samples), rank, x);
  }

  /** The statistics describe the last 128 answered probes, or all of them while there are fewer. */
  ghost predicate StatisticsMatch(s: Session, answered: seq<U64>) {
    && s.rttSamples == LastOf(answered, 128)
    && (answered == [] ==> s.p50 == None && s.p95 == None)
    && (answered != [] ==> s.lastRtt == Some(answered[|answered| - 1]) && PercentilesMatch(s))
  }

  ghost predicate PercentilesMatch(s: Session) {
    var n := |s.rttSamples|;
    && 0 < n && s.p50.Some? && s.p95.Some?
    && IsOrderStatistic(s.rttSamples, (n - 1) * 50 / 100, s.p50.value)
    && IsOrderStatistic(s.rttSamples, (n - 1) * 95 / 100, s.p95.value)
    && s.p50.value <= s.p95.value
  }

  lemma PushKeepsWindow(answered: seq<U64>, x: U64)
    ensures Pushed(LastOf(answered, 128), x) == LastOf(answered + [x], 128)
  {
  }

  lemma SucceededPercentiles(s: Session, rtt: Duration)
    ensures PercentilesMatch(ProbeSucceeded(s, rtt))
  {
    var samples := Pushed(s.rttSamples, Millis(rtt));
    var n := |samples|;
    PercentileIsOrderStatistic(samples, Rank(n, 50));
    PercentileIsOrderStatistic(samples, Rank(n, 95));
    SortedCopyIsSorted(samples, 0);
    assert Rank(n, 50) <= Rank(n, 95);
  }

  lemma AnsweredMore(log: seq<Event>, a: Event, b: Event)
    requires !a.Answered?
    ensures AnsweredTimes(log + [a, b]) == AnsweredTimes(log) + (if b.Answered? then [Reported(b.rtt)] else [])
  {
    assert (log + [a, b])[..|log| + 1] == log + [a];
    assert (log + [a])[..|log|] == log;
  }

  lemma TurnKeepsStatistics(cfg: SessionConfig, before: Traced, earlier: seq<U64>, turn: Turn)
    requires StatisticsMatch(before.session, earlier + AnsweredTimes(before.log))
    ensures var after := TurnTaken(cfg, before.session, before.mode, turn);
            StatisticsMatch(after.session, earlier + AnsweredTimes(before.log + after.log))
  {
    hide ProbeSucceeded, ProbeFailed, Degrades, Backoff, StatisticsMatch, AnsweredTimes;
    var after := TurnTaken(cfg, before.session, before.mode, turn);
    var answered := earlier + AnsweredTimes(before.log);
    AnsweredMore(before.log, after.log[0], after.log[1]);
    if before.mode == Probing && turn.probe.Some? {
      AnswerKeepsStatistics(before.session, ProbeBegun(before.session), answered, turn.probe.value);
      assert answered + [Millis(turn.probe.value)] == earlier + AnsweredTimes(before.log + after.log);
    } else {
      OthersKeepStatistics(cfg, before, answered, turn);
      assert answered == earlier + AnsweredTimes(before.log + after.log);
    }
  }

  predicate SameStatistics(a: Session, b: Session) {
    a.rttSamples == b.rttSamples && a.lastRtt == b.lastRtt && a.p50 == b.p50 && a.p95 == b.p95
  }

  lemma StatisticsCarryOver(a: Session, b: Session, answered: seq<U64>)
    requires SameStatistics(a, b) && StatisticsMatch(a, answered)
    ensures StatisticsMatch(b, answered)
  {
  }

  lemma OthersKeepStatistics(cfg: SessionConfig, before: Traced, answered: seq<U64>, turn: Turn)
    requires StatisticsMatch(before.session, answered) && (before.mode == Recovering || turn.probe.None?)
    ensures StatisticsMatch(TurnTaken(cfg, before.session, before.mode, turn).session, answered)
  {
    hide StatisticsMatch, Degrades, Backoff;
    StatisticsCarryOver(before.session, TurnTaken(cfg, before.session, before.mode, turn).session, answered);
  }

  lemma AnswerKeepsStatistics(s: Session, begun: Session, answered: seq<U64>, rtt: Duration)
    requires StatisticsMatch(s, answered) && SameStatistics(s, begun)
    ensures StatisticsMatch(MadeHealthy(ProbeSucceeded(begun, rtt)), answered + [Millis(rtt)])
  {
    PushKeepsWindow(answered, Millis(rtt));
    SucceededPercentiles(begun, rtt);
    hide IsOrderStatistic, SortedCopy;
    StatisticsCarryOver(ProbeSucceeded(begun, rtt), MadeHealthy(ProbeSucceeded(begun, rtt)), answered + [Millis(rtt)]);
  }

  /** After any run of the loop, the buffer holds the last 128 round-trip times in order, those of earlier
      runs included, and the reported p50 and p95 are its samples of rank (n-1)*50/100 and (n-1)*95/100. */
  lemma {:induction false} RttStatistics(cfg: SessionConfig, s: Session, earlier: seq<U64>, turns: seq<Turn>)
    requires StatisticsMatch(s, earlier)
    ensures var traced := Trace(cfg, s, turns);
            StatisticsMatch(traced.session, earlier + AnsweredTimes(traced.log))
  {
    hide TurnTaken, StatisticsMatch;
    if turns == [] {
      assert earlier + AnsweredTimes([]) == earlier;
    } else {
      RttStatistics(cfg, s, earlier, turns[..|turns| - 1]);
      TurnKeepsStatistics(cfg, Trace(cfg, s, turns[..|turns| - 1]), earlier, turns[|turns| - 1]);
    }
  }

  lemma NewSessionHasNoStatistics(epoch: U64)
    ensures StatisticsMatch(NewSession(epoch), [])
  {
  }
}
