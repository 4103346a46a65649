/** How much the fixed windows let through: per window, per span of one window's length, and exactly when
    the one bound is as good as the other. */
module RateBounds {
  import opened Protocol
  import opened RateLimiter

  // ---------------------------------------------------------------- one window

  /** A call stays in the current window or opens one that does not overlap it. */
  lemma NextWindow(limit: nat, window: Duration, times: seq<Time>)
    requires InOrder(times) && 1 < |times| && 0 < window
    ensures var before, now := times[..|times| - 1], times[|times| - 1];
            var w, w', grants := OwnWindow(limit, window, before).value, OwnWindow(limit, window, times).value, OwnGrants(limit, window, times);
            && (w'.startedAt == w.startedAt || (w'.startedAt == now && w.startedAt + window <= now))
            && w'.startedAt <= now
            && (grants == OwnGrants(limit, window, before) || grants == OwnGrants(limit, window, before) + [now])
  {
    var before := times[..|times| - 1];
    FrontInOrder(times);
    GrantsArePast(limit, window, before);
    hide InOrder, AllBefore;
  }

  lemma WindowTally(limit: nat, window: Duration, times: seq<Time>)
    requires InOrder(times) && times != [] && 0 < window && 0 < limit
    ensures var s := OwnWindow(limit, window, times).value.startedAt;
            CountIn(OwnGrants(limit, window, times), s, s + window) <= limit
  {
    hide OwnGrants, InOrder, CountIn, CountFrom;
    var s := OwnWindow(limit, window, times).value.startedAt;
    RunTallies(limit, window, times, s);
    CountBounds(OwnGrants(limit, window, times), s, s, s + window);
  }

  /** No window of a key ever sees more than the limit, and windows do not overlap. */
  lemma {:induction false} OwnWindowsKeepLimit(limit: nat, window: Duration, times: seq<Time>, n: nat)
    requires InOrder(times) && 0 < n <= |times| && 0 < window && 0 < limit
    ensures OwnWindow(limit, window, times[..n]).Some? && OwnWindow(limit, window, times).Some?
    ensures var s := OwnWindow(limit, window, times[..n]).value.startedAt;
            var last := OwnWindow(limit, window, times).value.startedAt;
            && CountIn(OwnGrants(limit, window, times), s, s + window) <= limit
            && (last == s || s + window <= last)
  {
    WindowTally(limit, window, times);
    if n == |times| {
      assert times[..n] == times;
    } else {
      var before, now := times[..|times| - 1], times[|times| - 1];
      assert before[..n] == times[..n];
      FrontInOrder(times);
      OwnWindowsKeepLimit(limit, window, before, n);
      NextWindow(limit, window, times);
      var s := OwnWindow(limit, window, times[..n]).value.startedAt;
      hide OwnGrants, InOrder;
      CountOneMore(OwnGrants(limit, window, before), now, s, s + window);
    }
  }

  lemma FrontInOrder(times: seq<Time>)
    requires InOrder(times) && times != []
    ensures InOrder(times[..|times| - 1])
    ensures 1 < |times| ==> times[|times| - 2] <= times[|times| - 1]
  {
  }

  lemma {:induction false} NothingAtLimitZero(window: Duration, times: seq<Time>)
    ensures OwnGrants(0, window, times) == []
  {
    if times != [] {
      NothingAtLimitZero(window, times[..|times| - 1]);
    }
  }

  /** The calls of a key among the first `n` calls are the first of its calls. */
  lemma {:induction false} TimesOfPrefix<K>(calls: seq<Call<K>>, key: K, n: nat)
    requires n <= |calls|
    ensures var m := |TimesOf(calls[..n], key)|;
            m <= |TimesOf(calls, key)| && TimesOf(calls, key)[..m] == TimesOf(calls[..n], key)
  {
    if n == |calls| {
      assert calls[..n] == calls;
    } else {
      var before := calls[..|calls| - 1];
      assert before[..n] == calls[..n];
      TimesOfPrefix(before, key, n);
      TimesOfUnfolded(calls, key);
    }
  }

  lemma CallsPrefixInOrder<K>(calls: seq<Call<K>>, n: nat)
    requires CallsInOrder(calls) && n <= |calls|
    ensures CallsInOrder(calls[..n])
  {
  }

  /** Each window that a key ever has in the table sees at most `limit` of its calls granted, however the
      run goes on. */
  lemma EveryWindowKeepsLimit<K>(limit: nat, window: Duration, calls: seq<Call<K>>, key: K, n: nat)
    requires CallsInOrder(calls) && n <= |calls| && key in RunEntries(limit, window, calls[..n])
    ensures var s := RunEntries(limit, window, calls[..n])[key].startedAt;
            CountIn(GrantTimes(limit, window, calls, key), s, s + window) <= limit
  {
    hide CallsInOrder, InOrder, GrantTimes, OwnGrants, TimesOf, RunEntries, AllBefore, OwnWindow, CountIn;
    var s := RunEntries(limit, window, calls[..n])[key].startedAt;
    var times, part := TimesOf(calls, key), TimesOf(calls[..n], key);
    CallsPrefixInOrder(calls, n);
    EntryIsOwn(limit, window, calls[..n], key);
    OtherKeysDoNotMatter(limit, window, calls, key);
    TimesInOrder(calls, key);
    TimesOfPrefix(calls, key, n);
    if limit == 0 {
      NothingAtLimitZero(window, times);
      NoneCounted(s, s + window);
    } else if window == 0 {
      EmptySpan(OwnGrants(limit, window, times), s);
    } else {
      OwnWindowsKeepLimit(limit, window, times, |part|);
    }
  }

  /** An entry in the table is the key's own window. */
  lemma EntryIsOwn<K>(limit: nat, window: Duration, calls: seq<Call<K>>, key: K)
    requires CallsInOrder(calls) && key in RunEntries(limit, window, calls)
    ensures TimesOf(calls, key) != []
    ensures OwnWindow(limit, window, TimesOf(calls, key)) == Some(RunEntries(limit, window, calls)[key])
  {
    hide CallsInOrder, RunEntries, TimesOf;
    EntryAgrees(limit, window, calls, key, 0);
  }

  lemma NoneCounted(a: Time, b: Time)
    ensures CountIn([], a, b) == 0
  {
  }

  // ---------------------------------------------------------------- the worst case

  function Repeat(now: Time, n: nat): (r: seq<Time>)
    ensures |r| == n && forall i :: 0 <= i < n ==> r[i] == now
  {
    seq(n, _ => now)
  }

  lemma {:induction false} CountRepeat(times: seq<Time>, now: Time, n: nat, a: Time, b: Time)
    ensures CountIn(times + Repeat(now, n), a, b) == CountIn(times, a, b) + (if a <= now < b then n else 0)
  {
    if n == 0 {
      assert times + Repeat(now, 0) == times;
    } else {
      CountRepeat(times, now, n - 1, a, b);
      CountOneMore(times + Repeat(now, n - 1), now, a, b);
      assert times + Repeat(now, n) == times + Repeat(now, n - 1) + [now];
    }
  }

  /** As long as a window has grants left, calls in it are granted. */
  lemma {:induction false} BurstIsGranted(limit: nat, window: Duration, times: seq<Time>, w: RateWindow, now: Time, n: nat)
    requires OwnWindow(limit, window, times) == Some(w)
    requires w.startedAt <= now < w.startedAt + window && w.count + n <= limit
    ensures OwnWindow(limit, window, times + Repeat(now, n)) == Some(w.(count := w.count + n))
    ensures OwnGrants(limit, window, times + Repeat(now, n)) == OwnGrants(limit, window, times) + Repeat(now, n)
  {
    hide OwnWindow, OwnGrants;
    var grants := OwnGrants(limit, window, times);
    if n == 0 {
      assert times + Repeat(now, 0) == times && grants + Repeat(now, 0) == grants;
    } else {
      var before := times + Repeat(now, n - 1);
      BurstIsGranted(limit, window, times, w, now, n - 1);
      OwnStep(limit, window, before, now);
      assert times + Repeat(now, n) == before + [now];
      assert grants + Repeat(now, n - 1) + [now] == grants + Repeat(now, n);
    }
  }

  /** One call, the rest of the limit late in the window it opens, and the whole limit in the next. */
  function WorstCase(limit: nat, window: Duration): seq<Time>
    requires 0 < limit && 1 < window
  {
    [0] + Repeat(window - 1, limit - 1) + Repeat(window, limit)
  }

  lemma FirstWindow(limit: nat, window: Duration, now: Time)
    requires 0 < limit
    ensures OwnWindow(limit, window, [now]) == Some(RateWindow(now, 1)) && OwnGrants(limit, window, [now]) == [now]
  {
    OwnStep(limit, window, [], now);
    assert [] + [now] == [now];
  }

  lemma OpensWindow(limit: nat, window: Duration, times: seq<Time>, w: RateWindow, now: Time)
    requires OwnWindow(limit, window, times) == Some(w) && w.startedAt + window <= now && 0 < limit
    ensures OwnWindow(limit, window, times + [now]) == Some(RateWindow(now, 1))
    ensures OwnGrants(limit, window, times + [now]) == OwnGrants(limit, window, times) + [now]
  {
    OwnStep(limit, window, times, now);
  }

  lemma WorstCaseIsGranted(limit: nat, window: Duration)
    requires 0 < limit && 1 < window
    ensures OwnGrants(limit, window, WorstCase(limit, window)) == WorstCase(limit, window)
  {
    hide OwnWindow, OwnGrants;
    var late := [0] + Repeat(window - 1, limit - 1);
    FirstWindow(limit, window, 0);
    BurstIsGranted(limit, window, [0], RateWindow(0, 1), window - 1, limit - 1);
    OpensWindow(limit, window, late, RateWindow(0, limit), window);
    BurstIsGranted(limit, window, late + [window], RateWindow(window, 1), window, limit - 1);
    assert WorstCase(limit, window) == late + [window] + Repeat(window, limit - 1);
  }

  lemma WorstCaseInOrder(limit: nat, window: Duration)
    requires 0 < limit && 1 < window
    ensures InOrder(WorstCase(limit, window))
  {
  }

  lemma WorstCaseCount(limit: nat, window: Duration)
    requires 0 < limit && 1 < window
    ensures CountIn(WorstCase(limit, window), window - 1, window - 1 + window) == 2 * limit - 1
  {
    CountOneMore([], 0, window - 1, window - 1 + window);
    CountRepeat([0], window - 1, limit - 1, window - 1, window - 1 + window);
    CountRepeat([0] + Repeat(window - 1, limit - 1), window, limit, window - 1, window - 1 + window);
    assert [] + [0] == [0];
  }

  /** The calls of one key at the given times. */
  function CallsAt<K>(times: seq<Time>, key: K): (calls: seq<Call<K>>)
    ensures |calls| == |times| && forall i :: 0 <= i < |times| ==> calls[i].key == key && calls[i].now == times[i]
  {
    if times == [] then [] else CallsAt(times[..|times| - 1], key) + [Call(key, times[|times| - 1])]
  }

  lemma {:induction false} TimesOfCallsAt<K>(times: seq<Time>, key: K)
    ensures TimesOf(CallsAt(times, key), key) == times
  {
    if times != [] {
      var front := times[..|times| - 1];
      TimesOfCallsAt(front, key);
      TimesOfUnfolded(CallsAt(times, key), key);
      assert front + [times[|times| - 1]] == times;
    }
  }

  /** For every limit, and every window of at least two ticks, some history of calls is granted 2*limit-1
      of them in one span of a window's length: SlidingBound is the least bound. */
  lemma SlidingBoundIsReached<K>(limit: nat, window: Duration, key: K)
    requires 0 < limit && 1 < window
    ensures var calls := CallsAt(WorstCase(limit, window), key);
            && CallsInOrder(calls)
            && CountIn(GrantTimes(limit, window, calls, key), window - 1, window - 1 + window) == 2 * limit - 1
  {
    hide GrantTimes, OwnGrants, TimesOf, WorstCase, CallsInOrder, InOrder, CountIn, CallsAt;
    var times := WorstCase(limit, window);
    WorstCaseInOrder(limit, window);
    CallsAtInOrder(times, key);
    OtherKeysDoNotMatter(limit, window, CallsAt(times, key), key);
    TimesOfCallsAt(times, key);
    WorstCaseIsGranted(limit, window);
    WorstCaseCount(limit, window);
  }

  lemma CallsAtInOrder<K>(times: seq<Time>, key: K)
    requires InOrder(times)
    ensures CallsInOrder(CallsAt(times, key))
  {
  }

  // ---------------------------------------------------------------- when the limit holds for every span

  /** In no in-order history is a key granted more than `limit` calls in a span of one window's length. */
  ghost predicate NeverOver<K(!new)>(limit: nat, window: Duration, key: K) {
    forall calls: seq<Call<K>>, a :: CallsInOrder(calls) ==> WithinLimit(limit, window, calls, key, a)
  }

  predicate WithinLimit<K(==)>(limit: nat, window: Duration, calls: seq<Call<K>>, key: K, a: Time) {
    CountIn(GrantTimes(limit, window, calls, key), a, a + window) <= limit
  }

  lemma {:induction false} CountedIsThere(times: seq<Time>, a: Time)
    requires CountIn(times, a, a + 1) > 0
    ensures a in times
  {
    if times[|times| - 1] != a {
      CountedIsThere(times[..|times| - 1], a);
    }
  }

  lemma {:induction false} GrantsAreCalls(limit: nat, window: Duration, times: seq<Time>, a: Time)
    requires a in OwnGrants(limit, window, times)
    ensures a in times
  {
    var front := times[..|times| - 1];
    if a in OwnGrants(limit, window, front) {
      GrantsAreCalls(limit, window, front, a);
    }
  }

  /** With windows of one tick, a span of one tick is one window. */
  lemma OneTickKeepsLimit(limit: nat, times: seq<Time>, a: Time)
    requires InOrder(times) && 0 < limit
    ensures CountIn(OwnGrants(limit, 1, times), a, a + 1) <= limit
  {
    var grants := OwnGrants(limit, 1, times);
    if CountIn(grants, a, a + 1) > 0 {
      CountedIsThere(grants, a);
      GrantsAreCalls(limit, 1, times, a);
      var k :| 0 <= k < |times| && times[k] == a;
      OwnWindowsKeepLimit(limit, 1, times, k + 1);
      StartsAtOrBefore(limit, times[..k + 1]);
    }
  }

  lemma StartsAtOrBefore(limit: nat, times: seq<Time>)
    requires times != [] && InOrder(times)
    ensures OwnWindow(limit, 1, times).value.startedAt == times[|times| - 1]
  {
    GrantsArePast(limit, 1, times);
    if 1 < |times| {
      FrontInOrder(times);
      GrantsArePast(limit, 1, times[..|times| - 1]);
    }
  }

  lemma NeverOverWhenSmall<K(!new)>(limit: nat, window: Duration, key: K)
    requires limit <= 1 || window <= 1
    ensures NeverOver(limit, window, key)
  {
    forall calls: seq<Call<K>>, a | CallsInOrder(calls)
      ensures WithinLimit(limit, window, calls, key, a)
    {
      SmallKeepsLimit(limit, window, calls, key, a);
    }
  }

  lemma SmallKeepsLimit<K>(limit: nat, window: Duration, calls: seq<Call<K>>, key: K, a: Time)
    requires CallsInOrder(calls) && (limit <= 1 || window <= 1)
    ensures CountIn(GrantTimes(limit, window, calls, key), a, a + window) <= limit
  {
    hide CallsInOrder, InOrder, GrantTimes, OwnGrants, TimesOf, AllBefore, CountIn;
    OtherKeysDoNotMatter(limit, window, calls, key);
    TimesInOrder(calls, key);
    if limit == 0 {
      NothingAtLimitZero(window, TimesOf(calls, key));
      NoneCounted(a, a + window);
    } else if window == 0 {
      EmptySpan(GrantTimes(limit, window, calls, key), a);
    } else if window == 1 {
      OneTickKeepsLimit(limit, TimesOf(calls, key), a);
    } else {
      SlidingBound(limit, window, calls, key, a);
    }
  }

  /** The limit bounds every span of one window's length, and not just every window, if and only if the
      limit is at most 1 or the window at most one tick of the clock. */
  lemma NeverOverExactly<K(!new)>(limit: nat, window: Duration, key: K)
    ensures NeverOver(limit, window, key) <==> limit <= 1 || window <= 1
  {
    if limit <= 1 || window <= 1 {
      NeverOverWhenSmall(limit, window, key);
    } else {
      SlidingBoundIsReached(limit, window, key);
      assert !WithinLimit(limit, window, CallsAt(WorstCase(limit, window), key), key, window - 1);
    }
  }
}
