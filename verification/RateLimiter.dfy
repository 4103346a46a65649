/** The fixed-window rate limiter of server/src/state.rs, and what it bounds over whole runs. */
module RateLimiter {
  import opened Protocol

  datatype RateWindow = RateWindow(startedAt: Time, count: nat)

  /** `Instant::duration_since`, which saturates at zero. */
  function Elapsed(now: Time, since: Time): Duration {
    if now < since then 0 else now - since
  }

  type Entries<K> = map<K, RateWindow>

  function Retained<K>(entries: Entries<K>, window: Duration, now: Time): Entries<K> {
    map k | k in entries && Elapsed(now, entries[k].startedAt) < window :: entries[k]
  }

  /** One key's window on a call: a new one once the old one is over, and counted if not yet spent. */
  function WindowAfter(limit: nat, window: Duration, w: Option<RateWindow>, now: Time): RateWindow {
    var current := if w.None? || Elapsed(now, w.value.startedAt) >= window then RateWindow(now, 0) else w.value;
    if current.count >= limit then current else current.(count := current.count + 1)
  }

  predicate Grants(limit: nat, window: Duration, w: Option<RateWindow>, now: Time) {
    w.None? || Elapsed(now, w.value.startedAt) >= window || w.value.count < limit
  }

  function WindowOf<K>(entries: Entries<K>, key: K): Option<RateWindow> {
    if key in entries then Some(entries[key]) else None
  }

  function EntriesAfter<K>(limit: nat, window: Duration, entries: Entries<K>, key: K, now: Time): Entries<K> {
    var retained := Retained(entries, window, now);
    retained[key := WindowAfter(limit, window, WindowOf(retained, key), now)]
  }

  class FixedWindowRateLimiter<K(==)> {
    const limit: nat
    const window: Duration
    var entries: Entries<K>

    constructor (limit: nat, window: Duration)
      ensures this.limit == limit && this.window == window && entries == map[]
    {
      this.limit, this.window, entries := limit, window, map[];
    }

    method Allow(key: K, now: Time) returns (granted: bool)
      modifies this
      ensures entries == EntriesAfter(limit, window, old(entries), key, now)
      ensures granted <==> limit > 0 && Grants(limit, window, WindowOf(Retained(old(entries), window, now), key), now)
    {
      entries := map k | k in entries && Elapsed(now, entries[k].startedAt) < window :: entries[k];
      if key !in entries {
        entries := entries[key := RateWindow(now, 0)];
      }
      var entry := entries[key];
      if Elapsed(now, entry.startedAt) >= window {
        entry := RateWindow(now, 0);
        entries := entries[key := entry];
      }
      if entry.count >= limit {
        return false;
      }
      entry := entry.(count := entry.count + 1);
      entries := entries[key := entry];
      return true;
    }
  }

  // ---------------------------------------------------------------- runs

  datatype Call<K> = Call(key: K, now: Time)

  predicate InOrder(times: seq<Time>) {
    forall i, j :: 0 <= i < j < |times| ==> times[i] <= times[j]
  }

  predicate CallsInOrder<K>(calls: seq<Call<K>>) {
    forall i, j :: 0 <= i < j < |calls| ==> calls[i].now <= calls[j].now
  }

  function RunEntries<K>(limit: nat, window: Duration, calls: seq<Call<K>>): Entries<K> {
    if calls == [] then map[]
    else
      var last := calls[|calls| - 1];
      EntriesAfter(limit, window, RunEntries(limit, window, calls[..|calls| - 1]), last.key, last.now)
  }

  /** Whether the limiter grants the call that comes after `before`. */
  predicate Allowed<K(==)>(limit: nat, window: Duration, before: seq<Call<K>>, call: Call<K>) {
    limit > 0 && Grants(limit, window, WindowOf(Retained(RunEntries(limit, window, before), window, call.now), call.key), call.now)
  }

  /** When `key` was granted a call, over a run of calls for all keys. */
  function GrantTimes<K(==)>(limit: nat, window: Duration, calls: seq<Call<K>>, key: K): seq<Time> {
    if calls == [] then []
    else
      var before, last := calls[..|calls| - 1], calls[|calls| - 1];
      GrantTimes(limit, window, before, key)
      + (if last.key == key && Allowed(limit, window, before, last) then [last.now] else [])
  }

  function TimesOf<K(==)>(calls: seq<Call<K>>, key: K): seq<Time> {
    if calls == [] then []
    else
      TimesOf(calls[..|calls| - 1], key) + (if calls[|calls| - 1].key == key then [calls[|calls| - 1].now] else [])
  }

  // One key on its own, never purged.

  function OwnWindow(limit: nat, window: Duration, times: seq<Time>): Option<RateWindow> {
    if times == [] then None
    else Some(WindowAfter(limit, window, OwnWindow(limit, window, times[..|times| - 1]), times[|times| - 1]))
  }

  function OwnGrants(limit: nat, window: Duration, times: seq<Time>): seq<Time> {
    if times == [] then []
    else
      var before, now := times[..|times| - 1], times[|times| - 1];
      OwnGrants(limit, window, before)
      + (if limit > 0 && Grants(limit, window, OwnWindow(limit, window, before), now) then [now] else [])
  }

  /** The entry of a key is its own window, or purged because that window is over. */
  predicate Agrees(window: Duration, entry: Option<RateWindow>, own: Option<RateWindow>, last: Time) {
    entry == own || (entry.None? && own.Some? && Elapsed(last, own.value.startedAt) >= window)
  }

  lemma PurgeAgrees<K>(window: Duration, entries: Entries<K>, key: K, own: Option<RateWindow>, last: Time, now: Time)
    requires Agrees(window, WindowOf(entries, key), own, last) && last <= now
    ensures Agrees(window, WindowOf(Retained(entries, window, now), key), own, now)
  {
  }

  lemma AgreeingStep(limit: nat, window: Duration, entry: Option<RateWindow>, own: Option<RateWindow>, now: Time)
    requires Agrees(window, entry, own, now)
    ensures WindowAfter(limit, window, entry, now) == WindowAfter(limit, window, own, now)
    ensures Grants(limit, window, entry, now) == Grants(limit, window, own, now)
  {
  }

  function LastTime<K>(calls: seq<Call<K>>, start: Time): Time {
    if calls == [] then start else calls[|calls| - 1].now
  }

  lemma {:induction false} EntryAgrees<K>(limit: nat, window: Duration, calls: seq<Call<K>>, key: K, start: Time)
    requires CallsInOrder(calls)
    ensures Agrees(window, WindowOf(RunEntries(limit, window, calls), key), OwnWindow(limit, window, TimesOf(calls, key)),
                   LastTime(calls, start))
  {
    if calls != [] {
      var before, last := calls[..|calls| - 1], calls[|calls| - 1];
      var entries := RunEntries(limit, window, before);
      var own := OwnWindow(limit, window, TimesOf(before, key));
      EntryAgrees(limit, window, before, key, last.now);
      PurgeAgrees(window, entries, key, own, LastTime(before, last.now), last.now);
      AgreeingStep(limit, window, WindowOf(Retained(entries, window, last.now), key), own, last.now);
      TimesOfStep(calls, key);
    }
  }

  lemma TimesOfStep<K>(calls: seq<Call<K>>, key: K)
    requires calls != []
    ensures var before, last, times := calls[..|calls| - 1], calls[|calls| - 1], TimesOf(calls, key);
            if last.key == key then times != [] && times[..|times| - 1] == TimesOf(before, key) && times[|times| - 1] == last.now
            else times == TimesOf(before, key)
  {
  }

  /** Which calls of a key are granted depends on the calls of that key alone: other keys, and the
      purging that their calls cause, make no difference. */
  lemma {:induction false} OtherKeysDoNotMatter<K>(limit: nat, window: Duration, calls: seq<Call<K>>, key: K)
    requires CallsInOrder(calls)
    ensures GrantTimes(limit, window, calls, key) == OwnGrants(limit, window, TimesOf(calls, key))
  {
    if calls != [] {
      var before, last := calls[..|calls| - 1], calls[|calls| - 1];
      OtherKeysDoNotMatter(limit, window, before, key);
      TimesOfStep(calls, key);
      if last.key == key {
        var entries := RunEntries(limit, window, before);
        var own := OwnWindow(limit, window, TimesOf(before, key));
        EntryAgrees(limit, window, before, key, last.now);
        PurgeAgrees(window, entries, key, own, LastTime(before, last.now), last.now);
        AgreeingStep(limit, window, WindowOf(Retained(entries, window, last.now), key), own, last.now);
      }
    }
  }

  // ---------------------------------------------------------------- the bounds

  /** How many of the times are at or after `from`. */
  function CountFrom(times: seq<Time>, from: Time): nat {
    if times == [] then 0
    else CountFrom(times[..|times| - 1], from) + (if from <= times[|times| - 1] then 1 else 0)
  }

  /** How many of the times are in the half-open span from `from` to `to`. */
  function CountIn(times: seq<Time>, from: Time, to: Time): nat {
    if times == [] then 0
    else CountIn(times[..|times| - 1], from, to) + (if from <= times[|times| - 1] < to then 1 else 0)
  }

  lemma {:induction false} CountBounds(times: seq<Time>, a: Time, s: Time, b: Time)
    ensures CountIn(times, a, b) <= CountFrom(times, a)
    ensures s <= a ==> CountFrom(times, a) <= CountFrom(times, s)
    ensures CountIn(times, a, b) <= CountIn(times, a, s) + CountFrom(times, s)
  {
    if times != [] {
      CountBounds(times[..|times| - 1], a, s, b);
    }
  }

  predicate AllBefore(times: seq<Time>, end: Time) {
    forall i :: 0 <= i < |times| ==> times[i] < end
  }

  lemma {:induction false} NoneAfterLast(times: seq<Time>, from: Time)
    requires AllBefore(times, from)
    ensures CountFrom(times, from) == 0
  {
    if times != [] {
      NoneAfterLast(times[..|times| - 1], from);
    }
  }

  lemma CountOneMore(times: seq<Time>, now: Time, a: Time, b: Time)
    ensures CountIn(times + [now], a, b) == CountIn(times, a, b) + (if a <= now < b then 1 else 0)
    ensures CountFrom(times + [now], a) == CountFrom(times, a) + (if a <= now then 1 else 0)
  {
  }

  /** With a positive window, every grant lies before the end of the current window. */
  lemma {:induction false} GrantsArePast(limit: nat, window: Duration, times: seq<Time>)
    requires InOrder(times) && times != [] && 0 < window
    ensures var w := OwnWindow(limit, window, times).value;
            && w.startedAt <= times[|times| - 1]
            && AllBefore(OwnGrants(limit, window, times), w.startedAt + window)
  {
    var before := times[..|times| - 1];
    if before != [] {
      GrantsArePast(limit, window, before);
    }
  }

  /** What the current window says about the grants so far, for a span that starts at `a`. A span that
      misses the start of a window misses that window's first grant. */
  predicate Tally(limit: nat, window: Duration, w: RateWindow, grants: seq<Time>, a: Time) {
    && 1 <= w.count <= limit && CountFrom(grants, w.startedAt) == w.count
    && (w.startedAt < a ==> CountFrom(grants, a) < w.count)
    && (if a + window <= w.startedAt then CountIn(grants, a, a + window) < 2 * limit
        else CountIn(grants, a, w.startedAt) < limit)
  }

  lemma FirstCallTallies(limit: nat, window: Duration, now: Time, a: Time)
    requires 0 < limit
    ensures Tally(limit, window, WindowAfter(limit, window, None, now), [now], a)
  {
  }

  lemma SameWindowTallies(limit: nat, window: Duration, w: RateWindow, grants: seq<Time>, now: Time, a: Time)
    requires Tally(limit, window, w, grants, a) && w.startedAt <= now < w.startedAt + window
    ensures Tally(limit, window, WindowAfter(limit, window, Some(w), now),
                  if w.count < limit then grants + [now] else grants, a)
  {
  }

  lemma NewWindowTallies(limit: nat, window: Duration, w: RateWindow, grants: seq<Time>, now: Time, a: Time)
    requires Tally(limit, window, w, grants, a) && w.startedAt + window <= now
    requires AllBefore(grants, w.startedAt + window)
    ensures Tally(limit, window, WindowAfter(limit, window, Some(w), now), grants + [now], a)
  {
    NoneAfterLast(grants, now);
    CountBounds(grants, a, w.startedAt, a + window);
    CountBounds(grants, a, w.startedAt, now);
    CountBounds(grants, a, now, now);
    CountOneMore(grants, now, now, now);
    CountOneMore(grants, now, a, now);
    CountOneMore(grants, now, a, a + window);
  }

  lemma {:induction false} RunTallies(limit: nat, window: Duration, times: seq<Time>, a: Time)
    requires InOrder(times) && times != [] && 0 < window && 0 < limit
    ensures Tally(limit, window, OwnWindow(limit, window, times).value, OwnGrants(limit, window, times), a)
  {
    var before, now := times[..|times| - 1], times[|times| - 1];
    if before == [] {
      FirstCallTallies(limit, window, now, a);
    } else {
      RunTallies(limit, window, before, a);
      GrantsArePast(limit, window, before);
      var w, grants := OwnWindow(limit, window, before).value, OwnGrants(limit, window, before);
      if Elapsed(now, w.startedAt) >= window {
        NewWindowTallies(limit, window, w, grants, now, a);
      } else {
        SameWindowTallies(limit, window, w, grants, now, a);
        assert grants + [] == grants;
      }
    }
  }

  lemma {:induction false} EmptySpan(times: seq<Time>, a: Time)
    ensures CountIn(times, a, a) == 0
  {
    if times != [] {
      EmptySpan(times[..|times| - 1], a);
    }
  }

  lemma OneMoreInOrder(times: seq<Time>, now: Time)
    requires InOrder(times) && AllBefore(times, now + 1)
    ensures InOrder(times + [now]) && AllBefore(times + [now], now + 1)
  {
  }

  lemma LaterEnd(times: seq<Time>, end: Time, later: Time)
    requires AllBefore(times, end) && end <= later
    ensures AllBefore(times, later)
  {
  }

  lemma CallsStep<K>(calls: seq<Call<K>>)
    requires CallsInOrder(calls) && calls != []
    ensures var before := calls[..|calls| - 1];
            CallsInOrder(before) && (before != [] ==> before[|before| - 1].now <= calls[|calls| - 1].now)
  {
  }

  lemma TimesOfUnfolded<K>(calls: seq<Call<K>>, key: K)
    requires calls != []
    ensures var before, last := calls[..|calls| - 1], calls[|calls| - 1];
            TimesOf(calls, key) == if last.key == key then TimesOf(before, key) + [last.now] else TimesOf(before, key)
  {
  }

  lemma {:induction false} TimesInOrder<K>(calls: seq<Call<K>>, key: K)
    requires CallsInOrder(calls)
    ensures InOrder(TimesOf(calls, key))
    ensures AllBefore(TimesOf(calls, key), LastTime(calls, 0) + 1)
  {
    if calls != [] {
      var before, last := calls[..|calls| - 1], calls[|calls| - 1];
      CallsStep(calls);
      TimesInOrder(before, key);
      TimesOfUnfolded(calls, key);
      hide CallsInOrder, InOrder, AllBefore, TimesOf;
      if before == [] {
        NoTimes(before, key, last.now + 1);
      } else {
        LaterEnd(TimesOf(before, key), before[|before| - 1].now + 1, last.now + 1);
      }
      OneMoreInOrder(TimesOf(before, key), last.now);
    }
  }

  lemma NoTimes<K>(calls: seq<Call<K>>, key: K, end: Time)
    requires calls == []
    ensures AllBefore(TimesOf(calls, key), end)
  {
  }

  /** A span as long as one window never holds twice the limit of grants to one key, whatever the calls of
      other keys and however often entries are purged. */
  lemma SlidingBound<K>(limit: nat, window: Duration, calls: seq<Call<K>>, key: K, a: Time)
    requires CallsInOrder(calls) && 0 < limit
    ensures CountIn(GrantTimes(limit, window, calls, key), a, a + window) < 2 * limit
  {
    hide CallsInOrder, InOrder, GrantTimes, OwnGrants, TimesOf, CountIn, AllBefore;
    OtherKeysDoNotMatter(limit, window, calls, key);
    TimesInOrder(calls, key);
    var times := TimesOf(calls, key);
    var grants := OwnGrants(limit, window, times);
    if times == [] {
      NoGrants(limit, window, a);
    } else if window == 0 {
      EmptySpan(grants, a);
    } else {
      TallyBounds(limit, window, times, a);
    }
  }

  lemma NoGrants(limit: nat, window: Duration, a: Time)
    ensures CountIn(OwnGrants(limit, window, []), a, a + window) == 0
  {
  }

  lemma TallyBounds(limit: nat, window: Duration, times: seq<Time>, a: Time)
    requires InOrder(times) && times != [] && 0 < window && 0 < limit
    ensures CountIn(OwnGrants(limit, window, times), a, a + window) < 2 * limit
  {
    RunTallies(limit, window, times, a);
    hide OwnWindow, OwnGrants, InOrder;
    CountBounds(OwnGrants(limit, window, times), a, OwnWindow(limit, window, times).value.startedAt, a + window);
  }

  lemma OwnStep(limit: nat, window: Duration, times: seq<Time>, now: Time)
    ensures var own := OwnWindow(limit, window, times);
            && OwnWindow(limit, window, times + [now]) == Some(WindowAfter(limit, window, own, now))
            && OwnGrants(limit, window, times + [now])
               == OwnGrants(limit, window, times) + (if limit > 0 && Grants(limit, window, own, now) then [now] else [])
  {
  }

  /** A window of `key` started at `s`, and the whole limit has been granted since. */
  predicate SpentSince<K(==)>(limit: nat, window: Duration, before: seq<Call<K>>, key: K, s: Time) {
    var own := OwnWindow(limit, window, TimesOf(before, key));
    own.Some? && own.value.startedAt == s && CountFrom(GrantTimes(limit, window, before, key), s) == limit
  }

  /** A call is refused exactly when the key's own window, less than one window's length old, has
      already been granted the whole limit. */
  lemma RefusedExactlyWhenSpent<K>(limit: nat, window: Duration, before: seq<Call<K>>, call: Call<K>)
    requires 0 < limit && CallsInOrder(before) && (before != [] ==> before[|before| - 1].now <= call.now)
    ensures !Allowed(limit, window, before, call)
            <==> exists s :: call.now - window < s <= call.now && SpentSince(limit, window, before, call.key, s)
  {
    var times, key := TimesOf(before, call.key), call.key;
    var entries, own := RunEntries(limit, window, before), OwnWindow(limit, window, times);
    EntryAgrees(limit, window, before, key, call.now);
    PurgeAgrees(window, entries, key, own, LastTime(before, call.now), call.now);
    AgreeingStep(limit, window, WindowOf(Retained(entries, window, call.now), key), own, call.now);
    TimesInOrder(before, key);
    OtherKeysDoNotMatter(limit, window, before, key);
    if own.Some? && 0 < window {
      GrantsArePast(limit, window, times);
      RunTallies(limit, window, times, 0);
      assert !Allowed(limit, window, before, call) ==> SpentSince(limit, window, before, key, own.value.startedAt);
    }
  }
}
