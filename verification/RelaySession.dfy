/** The relay session controller of crates/client-core/src/lib.rs. */
module RelaySessionClass {
  import opened Protocol
  import opened Codec
  import opened SessionSpec

  datatype ClientError = RelayPayloadTooLarge(size: nat, limit: nat)

  class RelaySession {
    const config: SessionConfig
    const transportPath: Option<Byte>
    var state: RelayConnectionState
    var consecutiveProbeFailures: U32
    var reconnectAttempts: U32
    var connectionEpoch: U64
    var nextSequence: U64
    var rttSamples: seq<U64>
    var lastRtt: Option<U64>
    var rttP50: Option<U64>
    var rttP95: Option<U64>

    constructor (config: SessionConfig, transportPath: Option<Byte>, connectionEpoch: U64)
      ensures this.config == config && this.transportPath == transportPath && Abs() == NewSession(connectionEpoch)
    {
      this.config, this.transportPath, this.connectionEpoch := config, transportPath, connectionEpoch;
      state, consecutiveProbeFailures, reconnectAttempts, nextSequence := Disconnected, 0, 0, 0;
      rttSamples, lastRtt, rttP50, rttP95 := [], None, None, None;
    }

    ghost function Abs(): Session
      reads this
    {
      Session(state, consecutiveProbeFailures, reconnectAttempts, connectionEpoch, nextSequence, rttSamples, lastRtt, rttP50, rttP95)
    }

    method RecordProbeFailure() returns (degraded: bool)
      modifies this
      ensures Abs() == ProbeFailed(config, old(Abs())) && degraded == Degrades(config, old(Abs()))
    {
      consecutiveProbeFailures := SaturatingSucc32(consecutiveProbeFailures);
      if consecutiveProbeFailures >= config.degradedAfterFailures {
        state := Degraded;
        return true;
      }
      return false;
    }

    method NextEnvelopeMeta(sentAtMs: U64) returns (meta: RelayEnvelopeMeta)
      modifies this`nextSequence
      ensures Abs() == WithNextSequence(old(Abs()))
      ensures meta == RelayEnvelopeMeta(nextSequence, connectionEpoch, sentAtMs,
                                        if config.pathId.Some? then config.pathId else transportPath)
    {
      nextSequence := MaxU64(SaturatingSucc(nextSequence), 1);
      return RelayEnvelopeMeta(nextSequence, connectionEpoch, sentAtMs,
                               if config.pathId.Some? then config.pathId else transportPath);
    }

    method MarkAuthenticated(connectionEpoch: U64)
      modifies this
      ensures Abs() == Authenticate(old(Abs()), connectionEpoch)
    {
      this.connectionEpoch := connectionEpoch;
      state := Authenticated;
    }

    method MarkRoomJoined()
      modifies this
      ensures Abs() == old(Abs()).(state := RoomJoined)
    {
      state := RoomJoined;
    }

    method MarkDisconnected()
      modifies this
      ensures Abs() == old(Abs()).(state := Disconnected)
    {
      state := Disconnected;
    }

    /** Numbers a message and hands it to the transport; one that is too large costs no number. */
    method SendGameplay(message: RelayMessage, sentAtMs: U64) returns (r: Result<RelayEnvelopeMeta, ClientError>)
      modifies this`nextSequence
      ensures var size := |PayloadOf(message)|;
              if size > config.safePayloadSize then r == Err(RelayPayloadTooLarge(size, config.safePayloadSize)) && Abs() == old(Abs())
              else r.Ok? && Abs() == WithNextSequence(old(Abs())) && r.value.sequence == nextSequence && r.value.connectionEpoch == connectionEpoch
    {
      var payloadSize := |PayloadOf(message)|;
      if payloadSize > config.safePayloadSize {
        return Err(RelayPayloadTooLarge(payloadSize, config.safePayloadSize));
      }
      var meta := NextEnvelopeMeta(sentAtMs);
      return Ok(meta);
    }

    method RecordProbeSuccess(rtt: Duration)
      modifies this
      ensures Abs() == ProbeSucceeded(old(Abs()), rtt)
    {
      hide SortedCopy, Rank;
      consecutiveProbeFailures := 0;
      var rttMs := Millis(rtt);
      lastRtt := Some(rttMs);
      if |rttSamples| >= RTT_WINDOW {
        rttSamples := rttSamples[1..];
      }
      rttSamples := rttSamples + [rttMs];
      var samples := SortedCopy(rttSamples);
      rttP50 := Some(samples[Rank(|samples|, 50)]);
      rttP95 := Some(samples[Rank(|samples|, 95)]);
    }

    method ReconnectDelay() returns (delay: Duration)
      ensures delay == Backoff(config, reconnectAttempts)
    {
      var attempt := if reconnectAttempts < 5 then reconnectAttempts else 5;
      var multiplier := PowerOfTwo(attempt);
      delay := config.reconnectInitialBackoff * multiplier;
      if config.reconnectMaxBackoff < delay {
        delay := config.reconnectMaxBackoff;
      }
    }

    /** One probe: the answer, if any, comes after `probe.value`. */
    method ProbeOnce(probe: Option<Duration>, sentAtMs: U64) returns (log: seq<Event>)
      modifies this
      ensures var begun := ProbeBegun(old(Abs()));
              && log == [Sent(begun.epoch, begun.nextSequence)]
              && Abs() == if probe.Some? then ProbeSucceeded(begun, probe.value) else begun
    {
      if state == Disconnected {
        state := Connecting;
      }
      var meta := NextEnvelopeMeta(sentAtMs);
      log := [Sent(meta.connectionEpoch, meta.sequence)];
      if probe.Some? {
        RecordProbeSuccess(probe.value);
      }
    }

    /** The loop runs until its task is cancelled: here, when the turns are used up. */
    method RunWithReconnect(turns: seq<Turn>, clock: nat -> U64) returns (log: seq<Event>)
      modifies this
      ensures var traced := Trace(config, old(Abs()), turns);
              Abs() == traced.session && log == traced.log
    {
      hide ProbeBegun, ProbeSucceeded, ProbeFailed, Degrades, Backoff;
      log := [];
      var i := 0;
      while i < |turns|
        invariant 0 <= i <= |turns|
        invariant var traced := Trace(config, old(Abs()), turns[..i]);
                  Abs() == traced.session && log == traced.log && (traced.mode == Probing || i == |turns|)
      {
        var turn := turns[i];
        assert turns[..i + 1][..i] == turns[..i];
        var sent := ProbeOnce(turn.probe, clock(i));
        i := i + 1;
        if turn.probe.Some? {
          if state == Resynced || state == RoomJoined {
            state := Healthy;
          }
          log := log + (sent + [Answered(turn.probe.value)]);
        } else {
          log := log + (sent + [Lost]);
          var degraded := RecordProbeFailure();
          if degraded {
            var recovered, more := Recover(turns, i, old(Abs()), log);
            i, log := recovered, log + more;
          }
        }
      }
      assert turns[..i] == turns;
    }

    /** The inner loop: wait, call back, and again, until the callback gives a fresh epoch. */
    method Recover(turns: seq<Turn>, start: nat, ghost first: Session, ghost before: seq<Event>) returns (next: nat, log: seq<Event>)
      requires start <= |turns| && Trace(config, first, turns[..start]) == Traced(Abs(), Recovering, before)
      modifies this
      ensures start <= next <= |turns|
      ensures var traced := Trace(config, first, turns[..next]);
              && Abs() == traced.session && before + log == traced.log
              && (traced.mode == Probing || next == |turns|)
    {
      hide ProbeBegun, ProbeSucceeded, ProbeFailed, Degrades, Backoff, Attempted, Recovered;
      next := start;
      log := [];
      while next < |turns|
        invariant start <= next <= |turns|
        invariant Trace(config, first, turns[..next]) == Traced(Abs(), Recovering, before + log)
      {
        var turn := turns[next];
        assert turns[..next + 1][..next] == turns[..next];
        var events := Attempt(turn.reconnect);
        next := next + 1;
        assert before + log + events == before + (log + events);
        log := log + events;
        if turn.reconnect.Some? {
          break;
        }
      }
    }

    /** One round of the inner loop. */
    method Attempt(answer: Option<U64>) returns (log: seq<Event>)
      modifies this
      ensures log == [Waited(Backoff(config, old(reconnectAttempts))), CalledBack(answer)]
      ensures Abs() == if answer.Some? then Recovered(Attempted(old(Abs())), answer.value) else Attempted(old(Abs()))
    {
      state := Reconnecting;
      var delay := ReconnectDelay();
      reconnectAttempts := SaturatingSucc32(reconnectAttempts);
      if answer.Some? {
        connectionEpoch := answer.value;
        consecutiveProbeFailures := 0;
        reconnectAttempts := 0;
        nextSequence := 0;
        state := Resynced;
      }
      return [Waited(delay), CalledBack(answer)];
    }
  }
}
