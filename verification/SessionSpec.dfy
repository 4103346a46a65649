/** The client's relay session (crates/client-core/src/lib.rs) as a state machine: what one turn of its
    probe-and-reconnect loop does and what it leaves in a log. */
module SessionSpec {
  import opened Protocol

  type U32 = n: int | 0 <= n < 0x1_0000_0000

  const U32_MAX: U32 := 0xFFFF_FFFF
  const RTT_WINDOW: nat := 128

  datatype RelayConnectionState =
    | Disconnected
    | Connecting
    | Authenticated
    | RoomJoined
    | Healthy
    | Degraded
    | Reconnecting
    | Resynced

  datatype SessionConfig = SessionConfig(
    degradedAfterFailures: U32,
    reconnectInitialBackoff: Duration,
    reconnectMaxBackoff: Duration,
    safePayloadSize: nat,
    pathId: Option<Byte>)

  datatype Session = Session(
    state: RelayConnectionState,
    failures: U32,
    attempts: U32,
    epoch: U64,
    nextSequence: U64,
    rttSamples: seq<U64>,
    lastRtt: Option<U64>,
    p50: Option<U64>,
    p95: Option<U64>)

  function NewSession(epoch: U64): Session {
    Session(Disconnected, 0, 0, epoch, 0, [], None, None, None)
  }

  function SaturatingSucc32(n: U32): U32 {
    if n == U32_MAX then U32_MAX else n + 1
  }

  // ---------------------------------------------------------------- round-trip times

  function Insert(sorted: seq<U64>, x: U64): seq<U64> {
    if sorted == [] || x <= sorted[0] then [x] + sorted else [sorted[0]] + Insert(sorted[1..], x)
  }

  /** `sort_unstable` of a copy. */
  function SortedCopy(s: seq<U64>): (r: seq<U64>)
    ensures |r| == |s|
  {
    if s == [] then []
    else
      var r := SortedCopy(s[..|s| - 1]);
      InsertSize(r, s[|s| - 1]);
      Insert(r, s[|s| - 1])
  }

  lemma {:induction false} InsertSize(sorted: seq<U64>, x: U64)
    ensures |Insert(sorted, x)| == |sorted| + 1
  {
    if sorted != [] && x > sorted[0] {
      InsertSize(sorted[1..], x);
    }
  }

  /** The rank of a percentile among `n` samples. */
  function Rank(n: nat, percent: nat): (r: nat)
    requires 0 < n && percent <= 100
    ensures r < n
  {
    RankInRange(n, percent);
    (n - 1) * percent / 100
  }

  lemma RankInRange(n: nat, percent: nat)
    requires 0 < n && percent <= 100
    ensures (n - 1) * percent / 100 < n
  {
    var m := n - 1;
    ProductGrows(m, percent, 100);
    assert m * percent <= m * 100;
  }

  lemma ProductGrows(m: nat, a: nat, b: nat)
    requires a <= b
    ensures m * a <= m * b
  {
  }

  function Pushed(samples: seq<U64>, x: U64): seq<U64> {
    (if |samples| >= RTT_WINDOW then samples[1..] else samples) + [x]
  }

  function Millis(rtt: Duration): U64 {
    if rtt > U64_MAX then U64_MAX else rtt
  }

  function ProbeSucceeded(s: Session, rtt: Duration): Session {
    var samples := Pushed(s.rttSamples, Millis(rtt));
    var sorted := SortedCopy(samples);
    s.(failures := 0,
       rttSamples := samples,
       lastRtt := Some(Millis(rtt)),
       p50 := Some(sorted[Rank(|samples|, 50)]),
       p95 := Some(sorted[Rank(|samples|, 95)]))
  }

  // ---------------------------------------------------------------- failures, sequences, delays

  function ProbeFailed(cfg: SessionConfig, s: Session): Session {
    var failures := SaturatingSucc32(s.failures);
    s.(failures := failures, state := if failures >= cfg.degradedAfterFailures then Degraded else s.state)
  }

  predicate Degrades(cfg: SessionConfig, s: Session) {
    SaturatingSucc32(s.failures) >= cfg.degradedAfterFailures
  }

  function WithNextSequence(s: Session): Session {
    s.(nextSequence := MaxU64(SaturatingSucc(s.nextSequence), 1))
  }

  function Authenticate(s: Session, epoch: U64): Session {
    s.(epoch := epoch, state := Authenticated)
  }

  function PowerOfTwo(k: nat): nat {
    if k == 0 then 1 else 2 * PowerOfTwo(k - 1)
  }

  function Min(a: nat, b: nat): nat {
    if a < b then a else b
  }

  /** The backoff after `attempts` failed attempts. */
  function Backoff(cfg: SessionConfig, attempts: nat): Duration {
    Min(cfg.reconnectInitialBackoff * PowerOfTwo(Min(attempts, 5)), cfg.reconnectMaxBackoff)
  }

  // ---------------------------------------------------------------- the loop

  /** What the surroundings answer, should the session probe or reconnect in this turn: the round-trip
      time or nothing, the fresh epoch or nothing. */
  datatype Turn = Turn(probe: Option<Duration>, reconnect: Option<U64>)

  datatype Event =
    | Sent(epoch: U64, sequence: U64)
    | Answered(rtt: Duration)
    | Lost
    | Waited(delay: Duration)
    | CalledBack(answer: Option<U64>)

  datatype Mode = Probing | Recovering

  datatype Traced = Traced(session: Session, mode: Mode, log: seq<Event>)

  function ProbeBegun(s: Session): Session {
    WithNextSequence(if s.state == Disconnected then s.(state := Connecting) else s)
  }

  function MadeHealthy(s: Session): Session {
    if s.state == Resynced || s.state == RoomJoined then s.(state := Healthy) else s
  }

  function Recovered(s: Session, epoch: U64): Session {
    s.(epoch := epoch, failures := 0, attempts := 0, nextSequence := 0, state := Resynced)
  }

  function Attempted(s: Session): Session {
    s.(state := Reconnecting, attempts := SaturatingSucc32(s.attempts))
  }

  function TurnTaken(cfg: SessionConfig, s: Session, mode: Mode, turn: Turn): Traced {
    match mode
    case Probing =>
      var begun := ProbeBegun(s);
      var sent := Sent(begun.epoch, begun.nextSequence);
      (match turn.probe
       case Some(rtt) => Traced(MadeHealthy(ProbeSucceeded(begun, rtt)), Probing, [sent, Answered(rtt)])
       case None => Traced(ProbeFailed(cfg, begun), if Degrades(cfg, begun) then Recovering else Probing, [sent, Lost]))
    case Recovering =>
      var waited := Waited(Backoff(cfg, s.attempts));
      (match turn.reconnect
       case Some(epoch) => Traced(Recovered(Attempted(s), epoch), Probing, [waited, CalledBack(Some(epoch))])
       case None => Traced(Attempted(s), Recovering, [waited, CalledBack(None)]))
  }

  /** The loop from the start, for as many turns as it is left running. */
  function Trace(cfg: SessionConfig, s: Session, turns: seq<Turn>): Traced {
    if turns == [] then Traced(s, Probing, [])
    else
      var before := Trace(cfg, s, turns[..|turns| - 1]);
      var last := TurnTaken(cfg, before.session, before.mode, turns[|turns| - 1]);
      last.(log := before.log + last.log)
  }
}
