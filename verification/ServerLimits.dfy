/** The rate limit as the server applies it to the datagrams that reach it. */
module ServerLimits {
  import opened Protocol
  import opened Codec
  import opened RouterTables
  import opened RateLimiter
  import opened RateWindows
  import opened Relay

  /** What the limiter has been asked in a run of the server: every well-formed datagram from an IPv4 address,
      under that address. */
  function CallsIn(events: seq<ServerEvent>): seq<Call<VirtualIp>> {
    if events == [] then []
    else
      CallsIn(events[..|events| - 1])
      + match events[|events| - 1]
        case Control(_) => []
        case Datagram(source, packet, arrival, _) =>
          if Decode(packet).Ok? && source.V4? then [Call(source.ip, arrival)] else []
  }

  lemma HandleEntries(sc: ServerConfig, s: ServerState, source: SocketAddr, packet: seq<Byte>, arrival: Time, now: Time)
    ensures Handle(sc, s, source, packet, arrival, now).state.entries
            == if Decode(packet).Ok? && source.V4? then EntriesAfter(sc.limit, sc.window, s.entries, source.ip, arrival) else s.entries
  {
    hide Decode, Passes, EntriesAfter, ServePeer;
  }

  lemma {:induction false} ServerEntries(sc: ServerConfig, events: seq<ServerEvent>)
    ensures ServerRun(sc, STARTED, events).entries == RunEntries(sc.limit, sc.window, CallsIn(events))
  {
    hide Handle, Decode, EntriesAfter;
    if events != [] {
      var n := |events| - 1;
      ServerEntries(sc, events[..n]);
      match events[n] {
        case Control(_) =>
          assert CallsIn(events) == CallsIn(events[..n]);
        case Datagram(source, packet, arrival, now) =>
          HandleEntries(sc, ServerRun(sc, STARTED, events[..n]), source, packet, arrival, now);
          if Decode(packet).Ok? && source.V4? {
            assert CallsIn(events) == CallsIn(events[..n]) + [Call(source.ip, arrival)];
            assert CallsIn(events)[..|CallsIn(events)| - 1] == CallsIn(events[..n]);
          } else {
            assert CallsIn(events) == CallsIn(events[..n]);
          }
      }
    }
  }

  /** In every reachable state a well-formed datagram from an IPv4 address is refused for its rate if and only if
      that address, a member's or not, has already sent as many in the window that is open for it. */
  lemma RateLimitedExactly(sc: ServerConfig, events: seq<ServerEvent>, source: SocketAddr, packet: seq<Byte>, arrival: Time, now: Time)
    requires Decode(packet).Ok? && source.V4?
    requires CallsInOrder(CallsIn(events)) && (CallsIn(events) != [] ==> CallsIn(events)[|CallsIn(events)| - 1].now <= arrival)
    ensures var result := Handle(sc, ServerRun(sc, STARTED, events), source, packet, arrival, now).result;
            result == Err(RateLimited) <==> CallsInWindow(sc.window, TimesOf(CallsIn(events), source.ip) + [arrival]) > sc.limit
  {
    hide Handle, Decode, ServerRun, CallsIn, CallsInOrder, CallsInWindow;
    var s := ServerRun(sc, STARTED, events);
    ServerEntries(sc, events);
    NotLimitedWhenPassing(sc, s, source, packet, arrival, now);
    GrantedExactly(sc.limit, sc.window, CallsIn(events), Call(source.ip, arrival));
  }

  lemma NotLimitedWhenPassing(sc: ServerConfig, s: ServerState, source: SocketAddr, packet: seq<Byte>, arrival: Time, now: Time)
    requires Decode(packet).Ok? && source.V4?
    ensures Handle(sc, s, source, packet, arrival, now).result == Err(RateLimited) <==> !Passes(sc, s.entries, source.ip, arrival)
  {
    hide Decode, Passes, EntriesAfter, Dispatch, Disposition, TrackerAfter;
  }
}
