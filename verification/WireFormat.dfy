/** The wire format byte by byte, with every number written out: what the bytes of a packet say, as a relation
    that the encoder and the decoder are each proved to realise exactly. */
module WireFormat {
  import opened Protocol
  import opened Codec
  import opened CodecProofs

  function Kind(message: RelayMessage): Byte {
    match message
    case DiscoveryRequest(_, _, _) => 1
    case DiscoveryToHost(_, _, _, _) => 2
    case DiscoveryResponse(_, _, _, _) => 3
    case DiscoveryToClient(_, _, _, _) => 4
    case GameplayPacket(_, _, _) => 5
    case GameplayToPeer(_, _, _, _) => 6
    case RelayProbe(_) => 7
    case RelayProbeAck(_) => 8
  }

  function Two(high: nat, low: nat): nat {
    high * 0x100 + low
  }

  function Four(a: nat, b: nat, c: nat, d: nat): nat {
    a * 0x100_0000 + b * 0x1_0000 + c * 0x100 + d
  }

  /** Eight bytes, the most significant first. */
  function Number(b: seq<Byte>): nat
    requires |b| == 8
  {
    Four(b[0], b[1], b[2], b[3]) * 0x1_0000_0000 + Four(b[4], b[5], b[6], b[7])
  }

  /** An id, a port and a payload. */
  predicate IdPort(b: seq<Byte>, id: Uuid, port: U16, payload: seq<Byte>) {
    |b| >= 18 && b[..16] == id && Two(b[16], b[17]) == port && b[18..] == payload && |payload| <= 4096
  }

  predicate IdIpPort(b: seq<Byte>, id: Uuid, ip: VirtualIp, port: U16, payload: seq<Byte>) {
    && |b| >= 22 && b[..16] == id && b[16..20] == [ip.a, ip.b, ip.c, ip.d] && Two(b[20], b[21]) == port
    && b[22..] == payload && |payload| <= 4096
  }

  predicate IdIdPort(b: seq<Byte>, id: Uuid, other: Uuid, port: U16, payload: seq<Byte>) {
    && |b| >= 34 && b[..16] == id && b[16..32] == other && Two(b[32], b[33]) == port
    && b[34..] == payload && |payload| <= 4096
  }

  predicate SaysMessage(b: seq<Byte>, message: RelayMessage) {
    match message
    case DiscoveryRequest(request, port, payload) => IdPort(b, request.uuid, port, payload)
    case DiscoveryToHost(request, ip, port, payload) => IdIpPort(b, request.uuid, ip, port, payload)
    case DiscoveryResponse(request, host, port, payload) => IdIdPort(b, request.uuid, host.uuid, port, payload)
    case DiscoveryToClient(request, ip, port, payload) => IdIpPort(b, request.uuid, ip, port, payload)
    case GameplayPacket(session, port, payload) => IdPort(b, session.uuid, port, payload)
    case GameplayToPeer(session, ip, port, payload) => IdIpPort(b, session.uuid, ip, port, payload)
    case RelayProbe(request) => b == request.uuid
    case RelayProbeAck(request) => b == request.uuid
  }

  predicate SaysMeta(b: seq<Byte>, meta: RelayEnvelopeMeta)
    requires |b| == 26
  {
    && Number(b[..8]) == meta.sequence && Number(b[8..16]) == meta.connectionEpoch && Number(b[16..24]) == meta.sentAtMs
    && (if meta.pathId.Some? then b[24] == 1 && b[25] == meta.pathId.value else b[24] == 0)
  }

  /** The four letters "C6LB", the version, the kind, the size of the rest, in version 2 the metadata, the message. */
  predicate Says(packet: seq<Byte>, e: RelayEnvelope) {
    && |packet| >= 8 && packet[..4] == [0x43, 0x36, 0x4C, 0x42]
    && packet[5] == Kind(e.message) && Two(packet[6], packet[7]) == |packet| - 8
    && (|| (packet[4] == 1 && e.meta == RelayEnvelopeMeta(0, 0, 0, None) && SaysMessage(packet[8..], e.message))
        || (packet[4] == 2 && |packet| >= 34 && SaysMeta(packet[8..34], e.meta) && SaysMessage(packet[34..], e.message)))
  }

  // ---------------------------------------------------------------- the parts

  lemma NumberIsBigEndian(b: seq<Byte>)
    requires |b| == 8
    ensures U64From(b) == Number(b)
  {
    assert b[..7][..6] == b[..6] && b[..6][..5] == b[..5] && b[..5][..4] == b[..4] && b[..4][..3] == b[..3];
    assert b[..3][..2] == b[..2] && b[..2][..1] == b[..1] && b[..1][..0] == [];
    assert FromBigEndian(b[..1]) == b[0];
    assert FromBigEndian(b[..2]) == Two(b[0], b[1]);
    assert FromBigEndian(b[..3]) == Two(Two(b[0], b[1]), b[2]);
    assert FromBigEndian(b[..4]) == Four(b[0], b[1], b[2], b[3]);
    HighHalf(b);
  }

  lemma HighHalf(b: seq<Byte>)
    requires |b| == 8
    ensures FromBigEndian(b) == FromBigEndian(b[..4]) * 0x1_0000_0000 + Four(b[4], b[5], b[6], b[7])
  {
    assert b[..7][..6] == b[..6] && b[..6][..5] == b[..5] && b[..5][..4] == b[..4];
    assert FromBigEndian(b[..5]) == FromBigEndian(b[..4]) * 0x100 + b[4];
    assert FromBigEndian(b[..6]) == FromBigEndian(b[..5]) * 0x100 + b[5];
    assert FromBigEndian(b[..7]) == FromBigEndian(b[..6]) * 0x100 + b[6];
  }

  lemma MetaExactly(b: seq<Byte>, meta: RelayEnvelopeMeta)
    requires |b| >= 26
    ensures ParseMeta(b) == Ok(meta) <==> SaysMeta(b[..26], meta)
  {
    hide FromBigEndian, U64From, Number;
    assert b[..26][..8] == b[..8] && b[..26][8..16] == b[8..16] && b[..26][16..24] == b[16..24];
    NumberIsBigEndian(b[..8]);
    NumberIsBigEndian(b[8..16]);
    NumberIsBigEndian(b[16..24]);
  }

  lemma MessageExactly(kind: Byte, b: seq<Byte>, message: RelayMessage)
    ensures ParseMessage(kind, b) == Ok(message) <==> kind == Kind(message) && SaysMessage(b, message)
  {
    if kind == Kind(message) && SaysMessage(b, message) {
      SaidIsParsed(b, message);
    }
    if ParseMessage(kind, b) == Ok(message) {
      ParsedIsSaid(kind, b);
    }
  }

  lemma SaidIsParsed(b: seq<Byte>, message: RelayMessage)
    requires SaysMessage(b, message)
    ensures ParseMessage(Kind(message), b) == Ok(message)
  {
    if message.RelayProbe? || message.RelayProbeAck? {
      assert b[..16] == b;
    }
  }

  lemma ParsedIsSaid(kind: Byte, b: seq<Byte>)
    requires ParseMessage(kind, b).Ok?
    ensures kind == Kind(ParseMessage(kind, b).value) && SaysMessage(b, ParseMessage(kind, b).value)
  {
    if IsProbeKind(kind) {
      assert b[..16] == b;
    }
  }

  // ---------------------------------------------------------------- both directions

  /** A packet is accepted, and read as `e`, if and only if its bytes say `e`. */
  lemma DecodesExactly(packet: seq<Byte>, e: RelayEnvelope)
    ensures Decode(packet) == Ok(e) <==> Says(packet, e)
  {
    hide ParseMeta, ParseMessage, SaysMessage, SaysMeta;
    if |packet| >= 8 {
      MessageExactly(packet[5], packet[8..], e.message);
      if |packet| >= 34 {
        assert packet[8..][..26] == packet[8..34] && packet[8..][26..] == packet[34..];
        MetaExactly(packet[8..], e.meta);
        MessageExactly(packet[5], packet[34..], e.message);
      } else {
        ShortMeta(packet[8..]);
      }
      if Says(packet, e) {
        SaysFits(packet, e);
      }
    }
  }

  lemma ShortMeta(b: seq<Byte>)
    requires |b| < 26
    ensures ParseMeta(b).Err?
  {
  }

  lemma SaysFits(packet: seq<Byte>, e: RelayEnvelope)
    requires Says(packet, e)
    ensures |packet| <= 8 + 26 + 34 + 4096
  {
  }

  /** Encoding gives, for a payload of at most 4096 bytes, the one packet of version 2 that says the message and
      its metadata, with a zero where there is no path. */
  lemma EncodesExactly(message: RelayMessage, meta: RelayEnvelopeMeta, packet: seq<Byte>)
    ensures Encode(message, Some(meta), 2) == Ok(packet)
            <==> Says(packet, RelayEnvelope(meta, message)) && packet[4] == 2 && (packet[32] == 0 ==> packet[33] == 0)
  {
    hide Says, Decode, Encode;
    var e := RelayEnvelope(meta, message);
    DecodesExactly(packet, e);
    if Encode(message, Some(meta), 2) == Ok(packet) {
      EncodeSucceedsExactly(message, Some(meta), 2);
      RoundTripV2(message, meta);
      EncodedHead(message, meta, packet);
    }
    if Says(packet, e) {
      SaysSize(packet, e);
      if packet[4] == 2 && (packet[32] == 0 ==> packet[33] == 0) {
        ReencodesToItselfExactly(packet);
      }
    }
  }

  lemma SaysSize(packet: seq<Byte>, e: RelayEnvelope)
    requires Says(packet, e)
    ensures |packet| >= 8 && (packet[4] == 2 ==> |packet| >= 34)
  {
  }

  lemma EncodedHead(message: RelayMessage, meta: RelayEnvelopeMeta, packet: seq<Byte>)
    requires Encode(message, Some(meta), 2) == Ok(packet)
    ensures |packet| >= 34 && packet[4] == 2 && (packet[32] == 0 ==> packet[33] == 0)
  {
    hide BigEndian, FieldsOf, PayloadOf, KindOf;
    assert packet[8..34] == MetaBytes(meta);
    assert packet[32] == packet[8..34][24] && packet[33] == packet[8..34][25];
  }

  /** And likewise the one packet of version 1, without metadata. */
  lemma EncodesLegacyExactly(message: RelayMessage, packet: seq<Byte>)
    ensures Encode(message, None, 1) == Ok(packet) <==> Says(packet, RelayEnvelope(DEFAULT_META, message)) && packet[4] == 1
  {
    hide Decode, Encode, SaysMessage, SaysMeta;
    var e := RelayEnvelope(DEFAULT_META, message);
    DecodesExactly(packet, e);
    if Encode(message, None, 1) == Ok(packet) {
      EncodeSucceedsExactly(message, None, 1);
      RoundTripLegacy(message);
      LegacyHead(message, packet);
    }
    if Says(packet, e) && packet[4] == 1 {
      ReencodesToItselfExactly(packet);
    }
  }

  lemma LegacyHead(message: RelayMessage, packet: seq<Byte>)
    requires Encode(message, None, 1) == Ok(packet)
    ensures |packet| >= 8 && packet[4] == 1
  {
    hide BigEndian, FieldsOf, PayloadOf, KindOf;
  }

  /** The tests on the header come in this order. */
  lemma HeaderRefused(packet: seq<Byte>)
    ensures |packet| > 4168 ==> Decode(packet) == Err(InvalidPacket(DatagramTooLarge))
    ensures |packet| < 8 ==> Decode(packet) == Err(InvalidPacket(HeaderTruncated))
    ensures 8 <= |packet| <= 4168 && packet[..4] != [0x43, 0x36, 0x4C, 0x42] ==> Decode(packet) == Err(InvalidPacket(BadMagic))
    ensures 8 <= |packet| <= 4168 && packet[..4] == [0x43, 0x36, 0x4C, 0x42] ==>
              && (packet[4] !in {1, 2} ==> Decode(packet) == Err(InvalidPacket(UnsupportedVersion(packet[4]))))
              && (packet[4] in {1, 2} && Two(packet[6], packet[7]) != |packet| - 8 ==> Decode(packet) == Err(InvalidPacket(LengthMismatch)))
              && (packet[4] == 1 && Two(packet[6], packet[7]) == |packet| - 8 && !(1 <= packet[5] <= 8) ==>
                    Decode(packet) == Err(UnexpectedMessageKind(packet[5])))
  {
    hide ParseMeta, MessageAt;
  }
}
