/** What the envelope codec promises: encoding and decoding are inverse, up to one ignored byte. */
module CodecProofs {
  import opened Protocol
  import opened Codec

  // ---------------------------------------------------------------- fixed-width fields

  lemma PortRoundTrip(port: U16)
    ensures PortBytes(port) == [port / 0x100, port % 0x100]
    ensures U16At(PortBytes(port), 0) == port
  {
    assert BigEndian(port, 2) == BigEndian(port / 0x100, 1) + [port % 0x100];
    assert BigEndian(port / 0x100, 1) == [port / 0x100];
  }

  lemma PortBytesInverse(hi: Byte, lo: Byte)
    ensures PortBytes(U16At([hi, lo], 0)) == [hi, lo]
  {
    PortRoundTrip(U16At([hi, lo], 0));
  }

  lemma IpRoundTrip(ip: VirtualIp)
    ensures IpBytes(ip) == [ip.a, ip.b, ip.c, ip.d]
  {
    var bytes := [ip.a, ip.b, ip.c, ip.d];
    assert bytes[..3] == [ip.a, ip.b, ip.c] && bytes[..3][..2] == [ip.a, ip.b] && bytes[..3][..2][..1] == [ip.a];
    assert FromBigEndian([ip.a]) == ip.a;
    assert FromBigEndian([ip.a, ip.b]) == ip.a * 0x100 + ip.b;
    assert FromBigEndian(bytes) == IpToU32(ip);
    FromBigEndianRoundTrip(bytes);
  }

  lemma U64RoundTrip(n: U64)
    ensures U64From(BigEndian(n, 8)) == n
  {
    Pow256Widths();
    BigEndianRoundTrip(n, 8);
  }

  lemma U64BytesInverse(bytes: seq<Byte>)
    requires |bytes| == 8
    ensures BigEndian(U64From(bytes), 8) == bytes
  {
    FromBigEndianRoundTrip(bytes);
  }

  // ---------------------------------------------------------------- messages and metadata

  lemma FieldsSize(message: RelayMessage)
    ensures FieldSize(KindOf(message)) == Some(|FieldsOf(message)|)
    ensures |FieldsOf(message)| <= 34
  {
  }

  lemma ReadsIdPort(id: Uuid, port: U16, payload: seq<Byte>)
    ensures var body := id + PortBytes(port) + payload;
            |body| == 18 + |payload| && body[..16] == id && U16At(body, 16) == port && body[18..] == payload
  {
    PortRoundTrip(port);
    var body := id + PortBytes(port) + payload;
    assert body[16..18] == PortBytes(port);
    assert body[16] == body[16..18][0] && body[17] == body[16..18][1];
  }

  lemma ReadsIdIpPort(id: Uuid, ip: VirtualIp, port: U16, payload: seq<Byte>)
    ensures var body := id + IpBytes(ip) + PortBytes(port) + payload;
            && |body| == 22 + |payload| && body[..16] == id
            && IpAt(body, 16) == ip && U16At(body, 20) == port && body[22..] == payload
  {
    PortRoundTrip(port);
    IpRoundTrip(ip);
    var body := id + IpBytes(ip) + PortBytes(port) + payload;
    assert body[16..20] == IpBytes(ip) && body[20..22] == PortBytes(port);
    assert body[16] == body[16..20][0] && body[17] == body[16..20][1] && body[18] == body[16..20][2] && body[19] == body[16..20][3];
    assert body[20] == body[20..22][0] && body[21] == body[20..22][1];
  }

  lemma ReadsTwoIdsPort(id: Uuid, host: Uuid, port: U16, payload: seq<Byte>)
    ensures var body := id + host + PortBytes(port) + payload;
            && |body| == 34 + |payload| && body[..16] == id
            && body[16..32] == host && U16At(body, 32) == port && body[34..] == payload
  {
    PortRoundTrip(port);
    var body := id + host + PortBytes(port) + payload;
    assert body[32..34] == PortBytes(port);
    assert body[32] == body[32..34][0] && body[33] == body[32..34][1];
  }

  lemma MessageRoundTrip(message: RelayMessage)
    requires |PayloadOf(message)| <= MAX_CIV6_DATAGRAM_SIZE
    ensures ParseMessage(KindOf(message), FieldsOf(message) + PayloadOf(message)) == Ok(message)
  {
    hide PortBytes, IpBytes, U16At, IpAt;
    match message {
      case DiscoveryRequest(id, port, payload) => ReadsIdPort(id.uuid, port, payload);
      case DiscoveryToHost(id, ip, port, payload) => ReadsIdIpPort(id.uuid, ip, port, payload);
      case DiscoveryResponse(id, host, port, payload) => ReadsTwoIdsPort(id.uuid, host.uuid, port, payload);
      case DiscoveryToClient(id, ip, port, payload) => ReadsIdIpPort(id.uuid, ip, port, payload);
      case GameplayPacket(id, port, payload) => ReadsIdPort(id.uuid, port, payload);
      case GameplayToPeer(id, ip, port, payload) => ReadsIdIpPort(id.uuid, ip, port, payload);
      case RelayProbe(id) => assert id.uuid + [] == id.uuid;
      case RelayProbeAck(id) => assert id.uuid + [] == id.uuid;
    }
  }

  lemma MessageInverse(kind: Byte, body: seq<Byte>)
    requires ParseMessage(kind, body).Ok?
    ensures var message := ParseMessage(kind, body).value;
            && KindOf(message) == kind
            && FieldsOf(message) + PayloadOf(message) == body
            && |PayloadOf(message)| <= MAX_CIV6_DATAGRAM_SIZE
  {
    var message := ParseMessage(kind, body).value;
    var size := FieldSize(kind).value;
    if !IsProbeKind(kind) {
      PortBytesInverse(body[size - 2], body[size - 1]);
      assert PortBytes(message.port) == body[size - 2..size];
    }
    if size == 22 {
      IpRoundTrip(IpAt(body, 16));
      assert IpBytes(IpAt(body, 16)) == body[16..20];
    }
    assert FieldsOf(message) == body[..size];
  }

  lemma MetaRoundTrip(meta: RelayEnvelopeMeta)
    ensures ParseMeta(MetaBytes(meta)) == Ok(meta)
  {
    U64RoundTrip(meta.sequence);
    U64RoundTrip(meta.connectionEpoch);
    U64RoundTrip(meta.sentAtMs);
    var bytes := MetaBytes(meta);
    assert bytes[..8] == BigEndian(meta.sequence, 8);
    assert bytes[8..16] == BigEndian(meta.connectionEpoch, 8);
    assert bytes[16..24] == BigEndian(meta.sentAtMs, 8);
  }

  lemma MetaInverse(body: seq<Byte>)
    requires ParseMeta(body).Ok?
    ensures MetaBytes(ParseMeta(body).value) == body[..25] + [if body[24] == 1 then body[25] else 0]
  {
    U64BytesInverse(body[..8]);
    U64BytesInverse(body[8..16]);
    U64BytesInverse(body[16..24]);
  }

  /** Only the first 26 bytes of a body bear on its metadata. */
  lemma MetaIsPrefix(head: seq<Byte>, tail: seq<Byte>)
    requires |head| == META_SIZE
    ensures ParseMeta(head + tail) == ParseMeta(head)
  {
    var body := head + tail;
    assert body[..8] == head[..8] && body[8..16] == head[8..16] && body[16..24] == head[16..24];
  }

  // ---------------------------------------------------------------- frames

  lemma FrameParts(version: Byte, kind: Byte, body: seq<Byte>)
    requires |body| <= U16_MAX
    ensures var packet := Frame(version, kind, body);
            && |packet| == RELAY_HEADER_SIZE + |body|
            && packet[..4] == MAGIC && packet[4] == version && packet[5] == kind
            && U16At(packet, 6) == |body| && packet[RELAY_HEADER_SIZE..] == body
  {
    PortRoundTrip(|body|);
    assert BigEndian(|body|, 2) == PortBytes(|body|);
    var packet := Frame(version, kind, body);
    assert packet[6..8] == PortBytes(|body|);
    assert packet[6] == packet[6..8][0] && packet[7] == packet[6..8][1];
  }

  lemma DecodeFrame(version: Byte, kind: Byte, body: seq<Byte>)
    requires version == LEGACY_RELAY_PROTOCOL_VERSION || version == RELAY_PROTOCOL_VERSION
    requires RELAY_HEADER_SIZE + |body| <= MAX_RELAY_DATAGRAM_SIZE
    ensures Decode(Frame(version, kind, body)) == ParseBody(version, kind, body)
  {
    FrameParts(version, kind, body);
  }

  lemma FrameInverse(packet: seq<Byte>)
    requires RELAY_HEADER_SIZE <= |packet| && packet[..4] == MAGIC
    requires U16At(packet, 6) == |packet| - RELAY_HEADER_SIZE
    ensures Frame(packet[4], packet[5], packet[RELAY_HEADER_SIZE..]) == packet
  {
    PortBytesInverse(packet[6], packet[7]);
    assert BigEndian(|packet| - RELAY_HEADER_SIZE, 2) == [packet[6], packet[7]];
  }

  // ---------------------------------------------------------------- the promises

  /** Encoding fails exactly for an over-long payload, its own body-size test never fires, and every
      packet it makes is small enough to be received: at most 8 + 26 + 34 + 4096 bytes. */
  lemma EncodeSucceedsExactly(message: RelayMessage, meta: Option<RelayEnvelopeMeta>, version: Byte)
    ensures Encode(message, meta, version).Ok? <==> |PayloadOf(message)| <= MAX_CIV6_DATAGRAM_SIZE
    ensures Encode(message, meta, version) != Err(InvalidPacket(BodyTooLarge))
    ensures Encode(message, meta, version).Ok? ==>
              |Encode(message, meta, version).value| <= 8 + 26 + 34 + 4096 <= MAX_RELAY_DATAGRAM_SIZE
  {
  }

  lemma RoundTripV2(message: RelayMessage, meta: RelayEnvelopeMeta)
    requires |PayloadOf(message)| <= MAX_CIV6_DATAGRAM_SIZE
    ensures var encoded := Encode(message, Some(meta), RELAY_PROTOCOL_VERSION);
            encoded.Ok? && Decode(encoded.value) == Ok(RelayEnvelope(meta, message))
  {
    EncodeSucceedsExactly(message, Some(meta), RELAY_PROTOCOL_VERSION);
    var rest := FieldsOf(message) + PayloadOf(message);
    var body := BodyOf(message, Some(meta));
    assert body == MetaBytes(meta) + rest;
    FieldsSize(message);
    DecodeFrame(RELAY_PROTOCOL_VERSION, KindOf(message), body);
    MetaRoundTrip(meta);
    MetaIsPrefix(MetaBytes(meta), rest);
    MessageRoundTrip(message);
    assert body[META_SIZE..] == rest;
  }

  lemma RoundTripLegacy(message: RelayMessage)
    requires |PayloadOf(message)| <= MAX_CIV6_DATAGRAM_SIZE
    ensures var encoded := Encode(message, None, LEGACY_RELAY_PROTOCOL_VERSION);
            encoded.Ok? && Decode(encoded.value) == Ok(RelayEnvelope(DEFAULT_META, message))
  {
    EncodeSucceedsExactly(message, None, LEGACY_RELAY_PROTOCOL_VERSION);
    var body := BodyOf(message, None);
    assert body == FieldsOf(message) + PayloadOf(message);
    FieldsSize(message);
    DecodeFrame(LEGACY_RELAY_PROTOCOL_VERSION, KindOf(message), body);
    MessageRoundTrip(message);
  }

  function MetaFor(version: Byte, envelope: RelayEnvelope): Option<RelayEnvelopeMeta> {
    if version == RELAY_PROTOCOL_VERSION then Some(envelope.meta) else None
  }

  /** The encoder the version byte of an accepted packet stands for. */
  function Reencode(version: Byte, envelope: RelayEnvelope): Result<seq<Byte>, CodecError> {
    Encode(envelope.message, MetaFor(version, envelope), version)
  }

  /** A v2 packet whose path marker is 0 carries a path byte that no decoder looks at. */
  predicate HasIdlePathByte(packet: seq<Byte>) {
    |packet| >= 34 && packet[4] == RELAY_PROTOCOL_VERSION && packet[32] == 0
  }

  function Canonical(packet: seq<Byte>): seq<Byte> {
    if HasIdlePathByte(packet) then packet[33 := 0] else packet
  }

  function CanonicalBody(body: seq<Byte>): seq<Byte>
    requires |body| >= META_SIZE
  {
    if body[24] == 0 then body[25 := 0] else body
  }

  lemma MetaBodyInverse(body: seq<Byte>)
    requires ParseMeta(body).Ok?
    ensures MetaBytes(ParseMeta(body).value) + body[META_SIZE..] == CanonicalBody(body)
  {
    MetaInverse(body);
  }

  lemma BodyInverse(version: Byte, kind: Byte, body: seq<Byte>)
    requires ParseBody(version, kind, body).Ok?
    ensures var envelope := ParseBody(version, kind, body).value;
            && KindOf(envelope.message) == kind
            && |PayloadOf(envelope.message)| <= MAX_CIV6_DATAGRAM_SIZE
            && BodyOf(envelope.message, MetaFor(version, envelope))
               == if version == RELAY_PROTOCOL_VERSION then CanonicalBody(body) else body
  {
    hide FieldsOf, PayloadOf, KindOf, ParseMessage, MetaBytes, CanonicalBody;
    var envelope := ParseBody(version, kind, body).value;
    var fields, payload := FieldsOf(envelope.message), PayloadOf(envelope.message);
    if version == RELAY_PROTOCOL_VERSION {
      MessageInverse(kind, body[META_SIZE..]);
      MetaBodyInverse(body);
      assert MetaBytes(envelope.meta) + fields + payload == MetaBytes(envelope.meta) + (fields + payload);
    } else {
      MessageInverse(kind, body);
      assert [] + fields + payload == fields + payload;
    }
  }

  lemma DecodeInverse(packet: seq<Byte>)
    requires Decode(packet).Ok?
    ensures Reencode(packet[4], Decode(packet).value) == Ok(Canonical(packet))
  {
    var envelope := Decode(packet).value;
    var version, kind, body := packet[4], packet[5], packet[RELAY_HEADER_SIZE..];
    FrameInverse(packet);
    BodyInverse(version, kind, body);
    EncodeSucceedsExactly(envelope.message, MetaFor(version, envelope), version);
    assert Reencode(version, envelope) == Ok(Frame(version, kind, BodyOf(envelope.message, MetaFor(version, envelope))));
    if HasIdlePathByte(packet) {
      assert Canonical(packet) == packet[..RELAY_HEADER_SIZE] + CanonicalBody(body);
      assert Frame(version, kind, CanonicalBody(body)) == packet[..RELAY_HEADER_SIZE] + CanonicalBody(body);
    }
  }

  /** Re-encoding an accepted packet gives the packet back, except when its idle path byte is set. */
  lemma ReencodesToItselfExactly(packet: seq<Byte>)
    requires Decode(packet).Ok?
    ensures Reencode(packet[4], Decode(packet).value) == Ok(packet)
            <==> !(HasIdlePathByte(packet) && packet[33] != 0)
  {
    DecodeInverse(packet);
    if HasIdlePathByte(packet) && packet[33] == 0 {
      assert packet[33 := 0] == packet;
    } else if HasIdlePathByte(packet) {
      assert packet[33 := 0][33] == 0;
    }
  }

  /** Two accepted packets of one version mean the same only if they agree up to the idle path byte;
      two accepted v1 packets only if they are the same bytes. */
  lemma DecodeInjective(p: seq<Byte>, q: seq<Byte>)
    requires Decode(p).Ok? && Decode(q) == Decode(p) && p[4] == q[4]
    ensures Canonical(p) == Canonical(q)
    ensures p[4] == LEGACY_RELAY_PROTOCOL_VERSION ==> p == q
  {
    DecodeInverse(p);
    DecodeInverse(q);
  }
}
