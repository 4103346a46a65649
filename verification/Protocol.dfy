/** Identifiers, constants and message shapes shared by the router, the relay and the clients. */
module Protocol {

  datatype Option<+T> = None | Some(value: T)

  /** Failure-compatible result, so that `:-` plays the part of Rust's `?`. */
  datatype Result<+T, +E> = Ok(value: T) | Err(error: E) {
    predicate IsFailure() {
      Err?
    }
    function PropagateFailure<U>(): Result<U, E>
      requires Err?
    {
      Err(error)
    }
    function Extract(): T
      requires Ok?
    {
      value
    }
  }

  type Byte = b: int | 0 <= b < 0x100
  type U16 = n: int | 0 <= n < 0x1_0000
  type U64 = n: int | 0 <= n < 0x1_0000_0000_0000_0000

  const U16_MAX: U16 := 0xFFFF
  const U64_MAX: U64 := 0xFFFF_FFFF_FFFF_FFFF

  function SaturatingSucc(n: U64): U64 {
    if n == U64_MAX then U64_MAX else n + 1
  }

  function MaxU64(a: U64, b: U64): U64 {
    if a < b then b else a
  }

  /** Points on the server's monotonic clock, and lengths of time, in any fixed unit. */
  type Time = int
  type Duration = nat

  type Uuid = bytes: seq<Byte> | |bytes| == 16
    witness seq(16, _ => 0)

  datatype RoomId = RoomId(uuid: Uuid)
  datatype PeerId = PeerId(uuid: Uuid)
  datatype HostSessionId = HostSessionId(uuid: Uuid)
  datatype DiscoveryRequestId = DiscoveryRequestId(uuid: Uuid)
  datatype GameplaySessionId = GameplaySessionId(uuid: Uuid)

  /** A parsed, upper-cased room code. */
  datatype RoomCode = RoomCode(text: string)

  datatype VirtualIp = VirtualIp(a: Byte, b: Byte, c: Byte, d: Byte)

  datatype SocketAddr = V4(ip: VirtualIp, port: U16) | V6(segments: seq<U16>, port6: U16)

  const DISCOVERY_PORT_START: U16 := 62900
  const DISCOVERY_PORT_END: U16 := 62999
  const GAMEPLAY_PORT: U16 := 62056
  const MAX_CIV6_DATAGRAM_SIZE: nat := 4096

  predicate IsDiscoveryPort(port: U16) {
    DISCOVERY_PORT_START <= port <= DISCOVERY_PORT_END
  }

  const LEGACY_RELAY_PROTOCOL_VERSION: Byte := 1
  const RELAY_PROTOCOL_VERSION: Byte := 2
  const RELAY_HEADER_SIZE: nat := 8
  const MAX_RELAY_DATAGRAM_SIZE: nat := RELAY_HEADER_SIZE + MAX_CIV6_DATAGRAM_SIZE + 64

  datatype RelayMessage =
    | DiscoveryRequest(requestId: DiscoveryRequestId, port: U16, payload: seq<Byte>)
    | DiscoveryToHost(requestId: DiscoveryRequestId, sourceIp: VirtualIp, port: U16, payload: seq<Byte>)
    | DiscoveryResponse(requestId: DiscoveryRequestId, hostSessionId: HostSessionId, port: U16, payload: seq<Byte>)
    | DiscoveryToClient(requestId: DiscoveryRequestId, hostIp: VirtualIp, port: U16, payload: seq<Byte>)
    | GameplayPacket(sessionId: GameplaySessionId, port: U16, payload: seq<Byte>)
    | GameplayToPeer(sessionId: GameplaySessionId, sourceIp: VirtualIp, port: U16, payload: seq<Byte>)
    | RelayProbe(requestId: DiscoveryRequestId)
    | RelayProbeAck(requestId: DiscoveryRequestId)

  datatype RelayEnvelopeMeta = RelayEnvelopeMeta(sequence: U64, connectionEpoch: U64, sentAtMs: U64, pathId: Option<Byte>)

  const DEFAULT_META := RelayEnvelopeMeta(0, 0, 0, None)

  datatype RelayEnvelope = RelayEnvelope(meta: RelayEnvelopeMeta, message: RelayMessage)

  /** `list` enumerates `elements`: every element once, in some order. */
  ghost predicate Lists<T(!new)>(list: seq<T>, elements: set<T>) {
    && (forall x :: x in list <==> x in elements)
    && forall i, j :: 0 <= i < j < |list| ==> list[i] != list[j]
  }
}
