/** The binary relay envelope (crates/protocol/src/relay.rs): a writer that appends to a buffer,
    a reader that advances a cursor, and the layout both of them realise. */
module Codec {
  import opened Protocol

  datatype Reason =
    | PayloadTooLarge
    | BodyTooLarge
    | DatagramTooLarge
    | HeaderTruncated
    | BadMagic
    | UnsupportedVersion(version: Byte)
    | LengthMismatch
    | BodyTruncated
    | BadPathMarker(marker: Byte)
    | TrailingBytes

  datatype CodecError = InvalidPacket(reason: Reason) | UnexpectedMessageKind(kind: Byte)

  const MAGIC: seq<Byte> := [0x43, 0x36, 0x4C, 0x42]

  const DISCOVERY_REQUEST: Byte := 1
  const DISCOVERY_TO_HOST: Byte := 2
  const DISCOVERY_RESPONSE: Byte := 3
  const DISCOVERY_TO_CLIENT: Byte := 4
  const GAMEPLAY_PACKET: Byte := 5
  const GAMEPLAY_TO_PEER: Byte := 6
  const RELAY_PROBE: Byte := 7
  const RELAY_PROBE_ACK: Byte := 8

  const META_SIZE: nat := 26

  // ---------------------------------------------------------------- big-endian integers

  function BigEndian(n: nat, width: nat): (bytes: seq<Byte>)
    ensures |bytes| == width
  {
    if width == 0 then [] else BigEndian(n / 0x100, width - 1) + [n % 0x100]
  }

  function FromBigEndian(bytes: seq<Byte>): nat {
    if bytes == [] then 0 else FromBigEndian(bytes[..|bytes| - 1]) * 0x100 + bytes[|bytes| - 1]
  }

  function Pow256(width: nat): nat {
    if width == 0 then 1 else Pow256(width - 1) * 0x100
  }

  lemma {:induction false} BigEndianRoundTrip(n: nat, width: nat)
    requires n < Pow256(width)
    ensures FromBigEndian(BigEndian(n, width)) == n
  {
    if width == 0 {
    } else {
      BigEndianRoundTrip(n / 0x100, width - 1);
      var bytes := BigEndian(n, width);
      assert bytes[..width - 1] == BigEndian(n / 0x100, width - 1);
    }
  }

  lemma {:induction false} FromBigEndianRoundTrip(bytes: seq<Byte>)
    ensures FromBigEndian(bytes) < Pow256(|bytes|)
    ensures BigEndian(FromBigEndian(bytes), |bytes|) == bytes
  {
    if bytes == [] {
    } else {
      var front, last := bytes[..|bytes| - 1], bytes[|bytes| - 1];
      FromBigEndianRoundTrip(front);
      assert FromBigEndian(bytes) / 0x100 == FromBigEndian(front);
      assert front + [last] == bytes;
    }
  }

  lemma Pow256Widths()
    ensures Pow256(2) == 0x1_0000
    ensures Pow256(4) == 0x1_0000_0000
    ensures Pow256(8) == 0x1_0000_0000_0000_0000
  {
  }

  /** `u16::from_be_bytes` of the two bytes at offset `at`. */
  function U16At(bytes: seq<Byte>, at: nat): U16
    requires at + 2 <= |bytes|
  {
    (bytes[at] as int) * 0x100 + bytes[at + 1]
  }

  function U64From(bytes: seq<Byte>): U64
    requires |bytes| == 8
  {
    Pow256Widths();
    FromBigEndianRoundTrip(bytes);
    FromBigEndian(bytes)
  }

  /** `u32::from` of an IPv4 address. */
  function IpToU32(ip: VirtualIp): (n: nat)
    ensures n < 0x1_0000_0000
  {
    ip.a * 0x100_0000 + ip.b * 0x1_0000 + ip.c * 0x100 + ip.d
  }

  // ---------------------------------------------------------------- the layout

  function KindOf(message: RelayMessage): Byte {
    match message
    case DiscoveryRequest(_, _, _) => DISCOVERY_REQUEST
    case DiscoveryToHost(_, _, _, _) => DISCOVERY_TO_HOST
    case DiscoveryResponse(_, _, _, _) => DISCOVERY_RESPONSE
    case DiscoveryToClient(_, _, _, _) => DISCOVERY_TO_CLIENT
    case GameplayPacket(_, _, _) => GAMEPLAY_PACKET
    case GameplayToPeer(_, _, _, _) => GAMEPLAY_TO_PEER
    case RelayProbe(_) => RELAY_PROBE
    case RelayProbeAck(_) => RELAY_PROBE_ACK
  }

  function PayloadOf(message: RelayMessage): seq<Byte> {
    if message.RelayProbe? || message.RelayProbeAck? then [] else message.payload
  }

  function IpBytes(ip: VirtualIp): seq<Byte> {
    BigEndian(IpToU32(ip), 4)
  }

  function PortBytes(port: U16): seq<Byte> {
    BigEndian(port, 2)
  }

  /** The fixed-size fields of a message, everything in the body before the payload. */
  function FieldsOf(message: RelayMessage): seq<Byte> {
    match message
    case DiscoveryRequest(id, port, _) => id.uuid + PortBytes(port)
    case DiscoveryToHost(id, ip, port, _) => id.uuid + IpBytes(ip) + PortBytes(port)
    case DiscoveryResponse(id, host, port, _) => id.uuid + host.uuid + PortBytes(port)
    case DiscoveryToClient(id, ip, port, _) => id.uuid + IpBytes(ip) + PortBytes(port)
    case GameplayPacket(id, port, _) => id.uuid + PortBytes(port)
    case GameplayToPeer(id, ip, port, _) => id.uuid + IpBytes(ip) + PortBytes(port)
    case RelayProbe(id) => id.uuid
    case RelayProbeAck(id) => id.uuid
  }

  function MetaBytes(meta: RelayEnvelopeMeta): (bytes: seq<Byte>)
    ensures |bytes| == META_SIZE
  {
    BigEndian(meta.sequence, 8) + BigEndian(meta.connectionEpoch, 8) + BigEndian(meta.sentAtMs, 8)
    + (match meta.pathId case Some(path) => [1, path] case None => [0, 0])
  }

  function BodyOf(message: RelayMessage, meta: Option<RelayEnvelopeMeta>): seq<Byte> {
    (if meta.Some? then MetaBytes(meta.value) else []) + FieldsOf(message) + PayloadOf(message)
  }

  function Frame(version: Byte, kind: Byte, body: seq<Byte>): seq<Byte> {
    MAGIC + [version, kind] + BigEndian(|body|, 2) + body
  }

  function Encode(message: RelayMessage, meta: Option<RelayEnvelopeMeta>, version: Byte): Result<seq<Byte>, CodecError> {
    var body := BodyOf(message, meta);
    if |PayloadOf(message)| > MAX_CIV6_DATAGRAM_SIZE then Err(InvalidPacket(PayloadTooLarge))
    else if |body| > U16_MAX then Err(InvalidPacket(BodyTooLarge))
    else Ok(Frame(version, KindOf(message), body))
  }

  // ---------------------------------------------------------------- what a packet says, by offsets

  /** The size of the fixed fields each kind starts with; `None` for an unknown kind. */
  function FieldSize(kind: Byte): Option<nat> {
    if kind == DISCOVERY_REQUEST || kind == GAMEPLAY_PACKET then Some(18)
    else if kind == DISCOVERY_TO_HOST || kind == DISCOVERY_TO_CLIENT || kind == GAMEPLAY_TO_PEER then Some(22)
    else if kind == DISCOVERY_RESPONSE then Some(34)
    else if kind == RELAY_PROBE || kind == RELAY_PROBE_ACK then Some(16)
    else None
  }

  predicate IsProbeKind(kind: Byte) {
    kind == RELAY_PROBE || kind == RELAY_PROBE_ACK
  }

  function IpAt(bytes: seq<Byte>, at: nat): VirtualIp
    requires at + 4 <= |bytes|
  {
    VirtualIp(bytes[at], bytes[at + 1], bytes[at + 2], bytes[at + 3])
  }

  function MessageAt(kind: Byte, body: seq<Byte>): RelayMessage
    requires FieldSize(kind).Some? && FieldSize(kind).value <= |body|
  {
    if kind == DISCOVERY_REQUEST then
      DiscoveryRequest(DiscoveryRequestId(body[..16]), U16At(body, 16), body[18..])
    else if kind == DISCOVERY_TO_HOST then
      DiscoveryToHost(DiscoveryRequestId(body[..16]), IpAt(body, 16), U16At(body, 20), body[22..])
    else if kind == DISCOVERY_RESPONSE then
      DiscoveryResponse(DiscoveryRequestId(body[..16]), HostSessionId(body[16..32]), U16At(body, 32), body[34..])
    else if kind == DISCOVERY_TO_CLIENT then
      DiscoveryToClient(DiscoveryRequestId(body[..16]), IpAt(body, 16), U16At(body, 20), body[22..])
    else if kind == GAMEPLAY_PACKET then
      GameplayPacket(GameplaySessionId(body[..16]), U16At(body, 16), body[18..])
    else if kind == GAMEPLAY_TO_PEER then
      GameplayToPeer(GameplaySessionId(body[..16]), IpAt(body, 16), U16At(body, 20), body[22..])
    else if kind == RELAY_PROBE then
      RelayProbe(DiscoveryRequestId(body[..16]))
    else
      RelayProbeAck(DiscoveryRequestId(body[..16]))
  }

  function ParseMessage(kind: Byte, body: seq<Byte>): Result<RelayMessage, CodecError> {
    match FieldSize(kind)
    case None => Err(UnexpectedMessageKind(kind))
    case Some(size) =>
      if |body| < size then Err(InvalidPacket(BodyTruncated))
      else if IsProbeKind(kind) && |body| > size then Err(InvalidPacket(TrailingBytes))
      else if |body| - size > MAX_CIV6_DATAGRAM_SIZE then Err(InvalidPacket(PayloadTooLarge))
      else Ok(MessageAt(kind, body))
  }

  function ParseMeta(body: seq<Byte>): Result<RelayEnvelopeMeta, CodecError> {
    if |body| < META_SIZE then Err(InvalidPacket(BodyTruncated))
    else if body[24] > 1 then Err(InvalidPacket(BadPathMarker(body[24])))
    else Ok(RelayEnvelopeMeta(U64From(body[..8]), U64From(body[8..16]), U64From(body[16..24]),
                              if body[24] == 1 then Some(body[25]) else None))
  }

  function ParseBody(version: Byte, kind: Byte, body: seq<Byte>): Result<RelayEnvelope, CodecError> {
    if version == RELAY_PROTOCOL_VERSION then
      var meta :- ParseMeta(body);
      var message :- ParseMessage(kind, body[META_SIZE..]);
      Ok(RelayEnvelope(meta, message))
    else
      var message :- ParseMessage(kind, body);
      Ok(RelayEnvelope(DEFAULT_META, message))
  }

  function Decode(packet: seq<Byte>): Result<RelayEnvelope, CodecError> {
    if |packet| > MAX_RELAY_DATAGRAM_SIZE then Err(InvalidPacket(DatagramTooLarge))
    else if |packet| < RELAY_HEADER_SIZE then Err(InvalidPacket(HeaderTruncated))
    else if packet[..4] != MAGIC then Err(InvalidPacket(BadMagic))
    else if packet[4] != LEGACY_RELAY_PROTOCOL_VERSION && packet[4] != RELAY_PROTOCOL_VERSION then
      Err(InvalidPacket(UnsupportedVersion(packet[4])))
    else if U16At(packet, 6) != |packet| - RELAY_HEADER_SIZE then Err(InvalidPacket(LengthMismatch))
    else ParseBody(packet[4], packet[5], packet[RELAY_HEADER_SIZE..])
  }

  // ---------------------------------------------------------------- the code's writer

  lemma AppendFields(start: seq<Byte>, a: seq<Byte>, b: seq<Byte>, c: seq<Byte>, payload: seq<Byte>)
    ensures start + a + b + c + payload == start + (a + b + c + payload)
    ensures b == [] ==> start + a + c + payload == start + (a + c + payload)
  {
  }

  /** The `Vec<u8>` the `write_*` helpers append to. */
  class ByteWriter {
    var bytes: seq<Byte>

    constructor ()
      ensures bytes == []
    {
      bytes := [];
    }

    method WriteMeta(meta: RelayEnvelopeMeta)
      modifies this
      ensures bytes == old(bytes) + MetaBytes(meta)
    {
      bytes := bytes + BigEndian(meta.sequence, 8);
      bytes := bytes + BigEndian(meta.connectionEpoch, 8);
      bytes := bytes + BigEndian(meta.sentAtMs, 8);
      match meta.pathId {
        case Some(path) =>
          bytes := bytes + [1];
          bytes := bytes + [path];
        case None =>
          bytes := bytes + [0, 0];
      }
    }

    method WriteId(uuid: Uuid)
      modifies this
      ensures bytes == old(bytes) + uuid
    {
      bytes := bytes + uuid;
    }

    method WriteIp(ip: VirtualIp)
      modifies this
      ensures bytes == old(bytes) + IpBytes(ip)
    {
      bytes := bytes + BigEndian(IpToU32(ip), 4);
    }

    method WritePort(port: U16)
      modifies this
      ensures bytes == old(bytes) + PortBytes(port)
    {
      bytes := bytes + BigEndian(port, 2);
    }

    method WritePayload(payload: seq<Byte>) returns (r: Result<(), CodecError>)
      modifies this
      ensures |payload| > MAX_CIV6_DATAGRAM_SIZE ==> r == Err(InvalidPacket(PayloadTooLarge)) && bytes == old(bytes)
      ensures |payload| <= MAX_CIV6_DATAGRAM_SIZE ==> r == Ok(()) && bytes == old(bytes) + payload
    {
      if |payload| > MAX_CIV6_DATAGRAM_SIZE {
        return Err(InvalidPacket(PayloadTooLarge));
      }
      bytes := bytes + payload;
      return Ok(());
    }

    /** The `match message` of `encode_packet`: writes the fields and the payload, and names the kind. */
    method WriteMessage(message: RelayMessage) returns (r: Result<Byte, CodecError>)
      modifies this
      ensures r == if |PayloadOf(message)| > MAX_CIV6_DATAGRAM_SIZE then Err(InvalidPacket(PayloadTooLarge)) else Ok(KindOf(message))
      ensures r.Ok? ==> bytes == old(bytes) + (FieldsOf(message) + PayloadOf(message))
    {
      var kind: Byte;
      match message {
        case DiscoveryRequest(requestId, port, payload) =>
          WriteId(requestId.uuid);
          WritePort(port);
          var _ :- WritePayload(payload);
          AppendFields(old(bytes), requestId.uuid, [], PortBytes(port), payload);
          kind := DISCOVERY_REQUEST;
        case DiscoveryToHost(requestId, ip, port, payload) =>
          WriteId(requestId.uuid);
          WriteIp(ip);
          WritePort(port);
          var _ :- WritePayload(payload);
          AppendFields(old(bytes), requestId.uuid, IpBytes(ip), PortBytes(port), payload);
          kind := DISCOVERY_TO_HOST;
        case DiscoveryResponse(requestId, hostSessionId, port, payload) =>
          WriteId(requestId.uuid);
          WriteId(hostSessionId.uuid);
          WritePort(port);
          var _ :- WritePayload(payload);
          AppendFields(old(bytes), requestId.uuid, hostSessionId.uuid, PortBytes(port), payload);
          kind := DISCOVERY_RESPONSE;
        case DiscoveryToClient(requestId, ip, port, payload) =>
          WriteId(requestId.uuid);
          WriteIp(ip);
          WritePort(port);
          var _ :- WritePayload(payload);
          AppendFields(old(bytes), requestId.uuid, IpBytes(ip), PortBytes(port), payload);
          kind := DISCOVERY_TO_CLIENT;
        case GameplayPacket(sessionId, port, payload) =>
          WriteId(sessionId.uuid);
          WritePort(port);
          var _ :- WritePayload(payload);
          AppendFields(old(bytes), sessionId.uuid, [], PortBytes(port), payload);
          kind := GAMEPLAY_PACKET;
        case GameplayToPeer(sessionId, ip, port, payload) =>
          WriteId(sessionId.uuid);
          WriteIp(ip);
          WritePort(port);
          var _ :- WritePayload(payload);
          AppendFields(old(bytes), sessionId.uuid, IpBytes(ip), PortBytes(port), payload);
          kind := GAMEPLAY_TO_PEER;
        case RelayProbe(requestId) =>
          WriteId(requestId.uuid);
          kind := RELAY_PROBE;
        case RelayProbeAck(requestId) =>
          WriteId(requestId.uuid);
          kind := RELAY_PROBE_ACK;
      }
      return Ok(kind);
    }
  }

  method EncodePacket(message: RelayMessage, meta: Option<RelayEnvelopeMeta>, version: Byte)
    returns (r: Result<seq<Byte>, CodecError>)
    ensures r == Encode(message, meta, version)
  {
    hide FieldsOf, PayloadOf, MetaBytes, KindOf, BigEndian;
    var body := new ByteWriter();
    if meta.Some? {
      body.WriteMeta(meta.value);
    }
    var kind :- body.WriteMessage(message);
    assert body.bytes == BodyOf(message, meta);
    if |body.bytes| > U16_MAX {
      return Err(InvalidPacket(BodyTooLarge));
    }
    var packet := MAGIC + [version];
    packet := packet + [kind];
    assert packet == MAGIC + [version, kind];
    packet := packet + BigEndian(|body.bytes|, 2);
    packet := packet + body.bytes;
    return Ok(packet);
  }

  // ---------------------------------------------------------------- the code's reader

  /** The `&mut &[u8]` cursor the `read_*` helpers advance. */
  class ByteReader {
    var rest: seq<Byte>

    constructor (input: seq<Byte>)
      ensures rest == input
    {
      rest := input;
    }

    method ReadExact(size: nat) returns (r: Result<seq<Byte>, CodecError>)
      modifies this
      ensures |old(rest)| < size ==> r == Err(InvalidPacket(BodyTruncated)) && rest == old(rest)
      ensures |old(rest)| >= size ==> r == Ok(old(rest)[..size]) && rest == old(rest)[size..]
    {
      if |rest| < size {
        return Err(InvalidPacket(BodyTruncated));
      }
      r := Ok(rest[..size]);
      rest := rest[size..];
    }

    method ReadId() returns (r: Result<Uuid, CodecError>)
      modifies this
      ensures |old(rest)| < 16 ==> r == Err(InvalidPacket(BodyTruncated)) && rest == old(rest)
      ensures |old(rest)| >= 16 ==> r == Ok(old(rest)[..16]) && rest == old(rest)[16..]
    {
      var bytes :- ReadExact(16);
      return Ok(bytes);
    }

    method ReadIp() returns (r: Result<VirtualIp, CodecError>)
      modifies this
      ensures |old(rest)| < 4 ==> r == Err(InvalidPacket(BodyTruncated)) && rest == old(rest)
      ensures |old(rest)| >= 4 ==> r == Ok(IpAt(old(rest), 0)) && rest == old(rest)[4..]
    {
      var bytes :- ReadExact(4);
      return Ok(VirtualIp(bytes[0], bytes[1], bytes[2], bytes[3]));
    }

    method ReadPort() returns (r: Result<U16, CodecError>)
      modifies this
      ensures |old(rest)| < 2 ==> r == Err(InvalidPacket(BodyTruncated)) && rest == old(rest)
      ensures |old(rest)| >= 2 ==> r == Ok(U16At(old(rest), 0)) && rest == old(rest)[2..]
    {
      var bytes :- ReadExact(2);
      return Ok(U16At(bytes, 0));
    }

    method ReadPayload() returns (r: Result<seq<Byte>, CodecError>)
      modifies this
      ensures |old(rest)| > MAX_CIV6_DATAGRAM_SIZE ==> r == Err(InvalidPacket(PayloadTooLarge)) && rest == old(rest)
      ensures |old(rest)| <= MAX_CIV6_DATAGRAM_SIZE ==> r == Ok(old(rest)) && rest == []
    {
      if |rest| > MAX_CIV6_DATAGRAM_SIZE {
        return Err(InvalidPacket(PayloadTooLarge));
      }
      r := Ok(rest);
      rest := [];
    }

    method ReadMeta() returns (r: Result<RelayEnvelopeMeta, CodecError>)
      modifies this
      ensures r == ParseMeta(old(rest))
      ensures r.Ok? ==> rest == old(rest)[META_SIZE..]
    {
      ghost var input := rest;
      var sequence :- ReadExact(8);
      var connectionEpoch :- ReadExact(8);
      assert connectionEpoch == input[8..16] && rest == input[16..];
      var sentAtMs :- ReadExact(8);
      assert sentAtMs == input[16..24] && rest == input[24..];
      var hasPath :- ReadExact(1);
      assert hasPath[0] == input[24] && rest == input[25..];
      var pathId :- ReadExact(1);
      assert pathId[0] == input[25] && rest == input[26..];
      match hasPath[0] {
        case 0 =>
          return Ok(RelayEnvelopeMeta(U64From(sequence), U64From(connectionEpoch), U64From(sentAtMs), None));
        case 1 =>
          return Ok(RelayEnvelopeMeta(U64From(sequence), U64From(connectionEpoch), U64From(sentAtMs), Some(pathId[0])));
        case other =>
          return Err(InvalidPacket(BadPathMarker(other)));
      }
    }

    /** The `match kind` of `decode_packet`, up to and including its trailing-bytes check. */
    method ReadMessage(kind: Byte) returns (r: Result<RelayMessage, CodecError>)
      modifies this
      ensures r == ParseMessage(kind, old(rest))
    {
      ghost var input := rest;
      var message: RelayMessage;
      match kind {
        case 1 =>
          var id :- ReadId();
          var port :- ReadPort();
          assert port == U16At(input, 16) && rest == input[18..];
          var payload :- ReadPayload();
          message := DiscoveryRequest(DiscoveryRequestId(id), port, payload);
        case 2 =>
          var id :- ReadId();
          var ip :- ReadIp();
          assert ip == IpAt(input, 16) && rest == input[20..];
          var port :- ReadPort();
          assert port == U16At(input, 20) && rest == input[22..];
          var payload :- ReadPayload();
          message := DiscoveryToHost(DiscoveryRequestId(id), ip, port, payload);
        case 3 =>
          var id :- ReadId();
          var host :- ReadId();
          assert host == input[16..32] && rest == input[32..];
          var port :- ReadPort();
          assert port == U16At(input, 32) && rest == input[34..];
          var payload :- ReadPayload();
          message := DiscoveryResponse(DiscoveryRequestId(id), HostSessionId(host), port, payload);
        case 4 =>
          var id :- ReadId();
          var ip :- ReadIp();
          assert ip == IpAt(input, 16) && rest == input[20..];
          var port :- ReadPort();
          assert port == U16At(input, 20) && rest == input[22..];
          var payload :- ReadPayload();
          message := DiscoveryToClient(DiscoveryRequestId(id), ip, port, payload);
        case 5 =>
          var id :- ReadId();
          var port :- ReadPort();
          assert port == U16At(input, 16) && rest == input[18..];
          var payload :- ReadPayload();
          message := GameplayPacket(GameplaySessionId(id), port, payload);
        case 6 =>
          var id :- ReadId();
          var ip :- ReadIp();
          assert ip == IpAt(input, 16) && rest == input[20..];
          var port :- ReadPort();
          assert port == U16At(input, 20) && rest == input[22..];
          var payload :- ReadPayload();
          message := GameplayToPeer(GameplaySessionId(id), ip, port, payload);
        case 7 =>
          var id :- ReadId();
          message := RelayProbe(DiscoveryRequestId(id));
        case 8 =>
          var id :- ReadId();
          message := RelayProbeAck(DiscoveryRequestId(id));
        case _ =>
          return Err(UnexpectedMessageKind(kind));
      }
      if rest != [] {
        return Err(InvalidPacket(TrailingBytes));
      }
      return Ok(message);
    }
  }

  method DecodePacket(packet: seq<Byte>) returns (r: Result<RelayEnvelope, CodecError>)
    ensures r == Decode(packet)
  {
    if |packet| > MAX_RELAY_DATAGRAM_SIZE {
      return Err(InvalidPacket(DatagramTooLarge));
    }
    if |packet| < RELAY_HEADER_SIZE {
      return Err(InvalidPacket(HeaderTruncated));
    }
    if packet[..4] != MAGIC {
      return Err(InvalidPacket(BadMagic));
    }
    if packet[4] != LEGACY_RELAY_PROTOCOL_VERSION && packet[4] != RELAY_PROTOCOL_VERSION {
      return Err(InvalidPacket(UnsupportedVersion(packet[4])));
    }
    var declaredBodyLen := U16At(packet, 6);
    if declaredBodyLen != |packet| - RELAY_HEADER_SIZE {
      return Err(InvalidPacket(LengthMismatch));
    }
    var kind := packet[5];
    var body := new ByteReader(packet[RELAY_HEADER_SIZE..]);
    var meta := DEFAULT_META;
    if packet[4] == RELAY_PROTOCOL_VERSION {
      meta :- body.ReadMeta();
    }
    var message :- body.ReadMessage(kind);
    return Ok(RelayEnvelope(meta, message));
  }
}
