/** Which calls the rate limiter grants, without its counters: the first so many of every window. */
module RateWindows {
  import opened Protocol
  import opened RateLimiter

  /** A call opens a window if none is open, or the one that is has been open for its whole length. */
  predicate Opens(window: Duration, opening: Option<Time>, now: Time) {
    opening.None? || window == 0 || opening.value + window <= now
  }

  /** When the window that is open after these calls of one key was opened. */
  function Opening(window: Duration, times: seq<Time>): Option<Time> {
    if times == [] then None
    else
      var before, now := Opening(window, times[..|times| - 1]), times[|times| - 1];
      if Opens(window, before, now) then Some(now) else before
  }

  /** How many calls there have been in it, granted or not. */
  function CallsInWindow(window: Duration, times: seq<Time>): nat {
    if times == [] then 0
    else if Opens(window, Opening(window, times[..|times| - 1]), times[|times| - 1]) then 1
    else CallsInWindow(window, times[..|times| - 1]) + 1
  }

  lemma {:induction false} WindowCounts(limit: nat, window: Duration, times: seq<Time>)
    ensures times == [] ==> OwnWindow(limit, window, times) == None
    ensures times != [] ==>
              && Opening(window, times).Some?
              && OwnWindow(limit, window, times)
                 == Some(RateWindow(Opening(window, times).value,
                                    if CallsInWindow(window, times) < limit then CallsInWindow(window, times) else limit))
  {
    if times != [] {
      WindowCounts(limit, window, times[..|times| - 1]);
    }
  }

  /** A call is granted if and only if it is among the first `limit` calls of its key's window. */
  lemma GrantedExactly<K>(limit: nat, window: Duration, before: seq<Call<K>>, call: Call<K>)
    requires CallsInOrder(before) && (before != [] ==> before[|before| - 1].now <= call.now)
    ensures Allowed(limit, window, before, call) <==> CallsInWindow(window, TimesOf(before, call.key) + [call.now]) <= limit
  {
    hide CallsInOrder, TimesOf, RunEntries;
    var times, key := TimesOf(before, call.key), call.key;
    var entries, own := RunEntries(limit, window, before), OwnWindow(limit, window, times);
    EntryAgrees(limit, window, before, key, call.now);
    PurgeAgrees(window, entries, key, own, LastTime(before, call.now), call.now);
    AgreeingStep(limit, window, WindowOf(Retained(entries, window, call.now), key), own, call.now);
    WindowCounts(limit, window, times);
    assert (times + [call.now])[..|times|] == times;
  }
}
