/** The sweep against itself: repeating it is idle, and when it runs does not decide which routes exist. */
module Sweeps {
  import opened Protocol
  import opened RouterTables
  import opened RouterInvariant

  // ---------------------------------------------------------------- twice at one time

  lemma PeersSweptTwice(cfg: RouterConfig, peers: Peers, now: Time)
    ensures SweptPeers(cfg, SweptPeers(cfg, peers, now), now) == SweptPeers(cfg, peers, now)
  {
  }

  lemma RoutesSweptTwice(cfg: RouterConfig, t: Tables, now: Time)
    requires t.origin.Keys == t.gameplay.Keys
    ensures var t' := Swept(cfg, t, now);
            LostHosts(cfg, t', now) == {} && LostDiscoveries(cfg, t', now) == {} && LostSessions(cfg, t', now) == {}
  {
  }

  /** Sweeping again at the same time changes nothing and reports nothing. */
  lemma SweepingTwiceIsIdle(cfg: RouterConfig, t: Tables, now: Time)
    requires Inv(cfg, t)
    ensures Swept(cfg, Swept(cfg, t, now), now) == Swept(cfg, t, now)
    ensures SweepReport(Swept(cfg, t, now), now) == ExpirationReport(0, 0, 0)
  {
    hide Inv;
    OriginHostPeer(cfg, t);
    var t' := Swept(cfg, t, now);
    RoutesSweptTwice(cfg, t, now);
    PeersSweptTwice(cfg, t.peers, now);
    assert Swept(cfg, t', now) == t' by {
      DropNothing(t');
    }
    NothingExpired(cfg, t', now);
  }

  lemma NothingExpired(cfg: RouterConfig, t: Tables, now: Time)
    requires LostHosts(cfg, t, now) == {} && LostDiscoveries(cfg, t, now) == {} && LostSessions(cfg, t, now) == {}
    ensures SweepReport(t, now) == ExpirationReport(0, 0, 0)
  {
    assert forall h :: h in t.hosts ==> h !in LostHosts(cfg, t, now);
    assert forall d :: d in t.discoveries ==> d !in LostDiscoveries(cfg, t, now);
    assert forall g :: g in t.gameplay ==> g !in LostSessions(cfg, t, now);
    assert (set h | h in t.hosts && t.hosts[h].expiresAt <= now) == {};
    assert (set d | d in t.discoveries && t.discoveries[d].expiresAt <= now) == {};
    assert (set g | g in t.gameplay && g in t.origin && t.origin[g] !in (set h | h in t.hosts && t.hosts[h].expiresAt <= now)
                    && t.gameplay[g].expiresAt <= now) == {};
  }

  // ---------------------------------------------------------------- at other times

  /** Who is connected, and with what lease. */
  function Connected(peers: Peers): Peers {
    map p | p in peers && peers[p].disconnectedAt.None? :: peers[p]
  }

  lemma HostsTiming(cfg: RouterConfig, t: Tables, t1: Time, t2: Time)
    requires t1 <= t2
    ensures Swept(cfg, Swept(cfg, t, t1), t2).hosts == Swept(cfg, t, t2).hosts
  {
  }

  lemma DiscoveriesTiming(cfg: RouterConfig, t: Tables, t1: Time, t2: Time)
    requires t1 <= t2
    ensures Swept(cfg, Swept(cfg, t, t1), t2).discoveries == Swept(cfg, t, t2).discoveries
  {
  }

  /** A session is kept at both times exactly when it is kept at the later one. */
  lemma SessionTiming(cfg: RouterConfig, t: Tables, t1: Time, t2: Time, g: GameplaySessionId)
    requires t1 <= t2 && g in t.gameplay
    ensures KeepsGameplay(cfg, t, g, t2)
            <==> KeepsGameplay(cfg, t, g, t1) && KeepsGameplay(cfg, Swept(cfg, t, t1), g, t2)
  {
  }

  lemma SessionsTiming(cfg: RouterConfig, t: Tables, t1: Time, t2: Time)
    requires t1 <= t2 && t.origin.Keys == t.gameplay.Keys
    ensures Swept(cfg, Swept(cfg, t, t1), t2).gameplay == Swept(cfg, t, t2).gameplay
    ensures Swept(cfg, Swept(cfg, t, t1), t2).origin == Swept(cfg, t, t2).origin
  {
    hide KeepsGameplay, SweptPeers, LostHosts, LostDiscoveries;
    forall g | g in t.gameplay
      ensures KeepsGameplay(cfg, t, g, t2)
              <==> KeepsGameplay(cfg, t, g, t1) && KeepsGameplay(cfg, Swept(cfg, t, t1), g, t2)
    {
      SessionTiming(cfg, t, t1, t2, g);
    }
  }

  lemma ConnectedTiming(cfg: RouterConfig, peers: Peers, t1: Time, t2: Time)
    requires t1 <= t2
    ensures Connected(SweptPeers(cfg, SweptPeers(cfg, peers, t1), t2)) == Connected(SweptPeers(cfg, peers, t2))
  {
  }

  /** An earlier sweep in between makes no difference to the routes, nor to who is connected. */
  lemma SweepTiming(cfg: RouterConfig, t: Tables, t1: Time, t2: Time)
    requires Inv(cfg, t) && t1 <= t2
    ensures SameRoutes(Swept(cfg, Swept(cfg, t, t1), t2), Swept(cfg, t, t2))
    ensures Connected(Swept(cfg, Swept(cfg, t, t1), t2).peers) == Connected(Swept(cfg, t, t2).peers)
  {
    hide Inv;
    HostsTiming(cfg, t, t1, t2);
    DiscoveriesTiming(cfg, t, t1, t2);
    OriginHostPeer(cfg, t);
    SessionsTiming(cfg, t, t1, t2);
    ConnectedTiming(cfg, t.peers, t1, t2);
  }

  function SweepAll(cfg: RouterConfig, t: Tables, times: seq<Time>): Tables
    decreases |times|
  {
    if times == [] then t else SweepAll(cfg, Swept(cfg, t, times[0]), times[1..])
  }

  predicate NonDecreasing(times: seq<Time>) {
    forall i, j :: 0 <= i < j < |times| ==> times[i] <= times[j]
  }

  /** However often and whenever the ticks fall, the routes left at the last one are those that one
      sweep at that time would have left. */
  lemma {:induction false} OnlyTheLastSweepCounts(cfg: RouterConfig, t: Tables, times: seq<Time>)
    requires Inv(cfg, t) && times != [] && NonDecreasing(times)
    ensures var last := times[|times| - 1];
            && SameRoutes(SweepAll(cfg, t, times), Swept(cfg, t, last))
            && Connected(SweepAll(cfg, t, times).peers) == Connected(Swept(cfg, t, last).peers)
    decreases |times|
  {
    hide Inv, Swept;
    var t1 := Swept(cfg, t, times[0]);
    if |times| == 1 {
      assert SweepAll(cfg, t1, times[1..]) == t1;
    } else {
      SweptOk(cfg, t, times[0]);
      OnlyTheLastSweepCounts(cfg, t1, times[1..]);
      SweepTiming(cfg, t, times[0], times[|times| - 1]);
    }
  }
}
