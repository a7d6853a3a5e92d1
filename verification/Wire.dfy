/**
 * The wire form of `DiscoveryPacket`: the proto3 encoding of a `oneof` of two messages, each
 * holding one `uint32` as field 1, and the decoder that `ProtobufDecoder` calls.
 *
 * Encodings are those of the Protocol Buffers encoding specification: sections "Base 128
 * Varints", "Message Structure", "Length-Delimited Records" and "Last One Wins".
 */
module Wire {
  import opened Wrappers
  import opened Net

  /** `Request` and `Response` have the same wire form: a `uint32` in field 1. */
  datatype Payload = Request(responseCollectorPort: U32) | Announcement(servicePort: U32)

  datatype DiscoveryPacket = DiscoveryPacket(payload: Option<Payload>) {
    function UnwrapRequest(): Option<U32> {
      match payload
      case Some(Request(port)) => Some(port)
      case _ => None
    }

    function UnwrapResponse(): Option<U32> {
      match payload
      case Some(Announcement(port)) => Some(port)
      case _ => None
    }
  }

  datatype DecodeError =
    | InvalidVarint | InvalidKey | InvalidWireType | InvalidTag | UnexpectedWireType
    | BufferUnderflow | DelimitedLengthExceeded | UnexpectedEndGroup | RecursionLimit

  type Bytes = seq<U8>

  /** A decoding step: a value and the bytes left in the buffer. */
  type Decoded<T> = Result<(T, Bytes), DecodeError>

  datatype WireType = Varint | SixtyFourBit | LengthDelimited | StartGroup | EndGroup | ThirtyTwoBit

  const RECURSION_LIMIT: nat := 100

  // ---------------------------------------------------------------- encoding

  function EncodeVarint(n: nat): (b: Bytes)
    ensures |b| >= 1
  {
    if n < 0x80 then [n] else [0x80 + n % 0x80] + EncodeVarint(n / 0x80)
  }

  /** Field 1 as a varint; proto3 leaves out a zero. */
  function EncodePort(port: U32): Bytes {
    if port == 0 then [] else [0x08] + EncodeVarint(port)
  }

  function PortOf(payload: Payload): U32 {
    match payload
    case Request(port) => port
    case Announcement(port) => port
  }

  function TagOf(payload: Payload): U8 {
    if payload.Request? then 1 else 2
  }

  function Encode(packet: DiscoveryPacket): Bytes {
    match packet.payload
    case None => []
    case Some(payload) =>
      var body := EncodePort(PortOf(payload));
      [8 * TagOf(payload) + 2] + EncodeVarint(|body|) + body
  }

  // ---------------------------------------------------------------- decoding

  /** A base-128 varint of at most 64 bits whose first `count` bytes are already read. */
  function DecodeVarint(b: Bytes, count: nat := 0): (r: Decoded<nat>)
    ensures r.Ok? ==> |r.value.1| < |b|
    decreases |b|
  {
    if b == [] || count >= 10 then Err(InvalidVarint)
    else if b[0] < 0x80 then
      if count == 9 && b[0] >= 2 then Err(InvalidVarint) else Ok((b[0], b[1..]))
    else
      match DecodeVarint(b[1..], count + 1)
      case Err(e) => Err(e)
      case Ok((high, rest)) => Ok((b[0] - 0x80 + 0x80 * high, rest))
  }

  function WireTypeOf(n: nat): Option<WireType> {
    match n
    case 0 => Some(Varint)
    case 1 => Some(SixtyFourBit)
    case 2 => Some(LengthDelimited)
    case 3 => Some(StartGroup)
    case 4 => Some(EndGroup)
    case 5 => Some(ThirtyTwoBit)
    case _ => None
  }

  function DecodeKey(b: Bytes): (r: Decoded<(nat, WireType)>)
    ensures r.Ok? ==> |r.value.1| < |b|
  {
    match DecodeVarint(b)
    case Err(e) => Err(e)
    case Ok((key, rest)) =>
      if key > 0xFFFF_FFFF then Err(InvalidKey)
      else if WireTypeOf(key % 8).None? then Err(InvalidWireType)
      else if key / 8 == 0 then Err(InvalidTag)
      else Ok(((key / 8, WireTypeOf(key % 8).value), rest))
  }

  /** Drops `n` bytes. */
  function Advance(b: Bytes, n: nat): (r: Decoded<()>)
    ensures r.Ok? ==> |r.value.1| == |b| - n
  {
    if n > |b| then Err(BufferUnderflow) else Ok(((), b[n..]))
  }

  /** Skips the value of a field that the schema does not know. */
  function SkipField(wireType: WireType, tag: nat, b: Bytes, depth: nat): (r: Decoded<()>)
    ensures r.Ok? ==> |r.value.1| <= |b|
    decreases depth, |b|, 1
  {
    if depth == 0 then Err(RecursionLimit)
    else
      match wireType
      case Varint => (match DecodeVarint(b) case Err(e) => Err(e) case Ok((_, rest)) => Ok(((), rest)))
      case ThirtyTwoBit => Advance(b, 4)
      case SixtyFourBit => Advance(b, 8)
      case LengthDelimited =>
        (match DecodeVarint(b) case Err(e) => Err(e) case Ok((n, rest)) => Advance(rest, n))
      case StartGroup => SkipGroup(tag, b, depth)
      case EndGroup => Err(UnexpectedEndGroup)
  }

  function SkipGroup(tag: nat, b: Bytes, depth: nat): (r: Decoded<()>)
    requires depth > 0
    ensures r.Ok? ==> |r.value.1| <= |b|
    decreases depth, |b|, 0
  {
    match DecodeKey(b)
    case Err(e) => Err(e)
    case Ok(((innerTag, innerType), rest)) =>
      if innerType.EndGroup? then
        if innerTag != tag then Err(UnexpectedEndGroup) else Ok(((), rest))
      else
        match SkipField(innerType, innerTag, rest, depth - 1)
        case Err(e) => Err(e)
        case Ok((_, rest')) => SkipGroup(tag, rest', depth)
  }

  /** One field of `Request` or `Response`, merged into the port read so far. */
  function MergePortField(port: U32, b: Bytes, depth: nat): (r: Decoded<U32>)
    ensures r.Ok? ==> |r.value.1| < |b|
  {
    match DecodeKey(b)
    case Err(e) => Err(e)
    case Ok(((tag, wireType), rest)) =>
      if tag == 1 then
        if !wireType.Varint? then Err(UnexpectedWireType)
        else
          match DecodeVarint(rest)
          case Err(e) => Err(e)
          case Ok((n, rest')) => Ok((n % 0x1_0000_0000, rest'))
      else
        match SkipField(wireType, tag, rest, depth)
        case Err(e) => Err(e)
        case Ok((_, rest')) => Ok((port, rest'))
  }

  /** The fields of an embedded message, which must end with exactly `limit` bytes left. */
  function MergePortFields(port: U32, b: Bytes, limit: nat, depth: nat): (r: Decoded<U32>)
    ensures r.Ok? ==> |r.value.1| <= |b|
    decreases |b|
  {
    if |b| <= limit then
      if |b| == limit then Ok((port, b)) else Err(DelimitedLengthExceeded)
    else
      match MergePortField(port, b, depth)
      case Err(e) => Err(e)
      case Ok((port', rest)) => MergePortFields(port', rest, limit, depth)
  }

  function MergeMessage(port: U32, wireType: WireType, b: Bytes, depth: nat): (r: Decoded<U32>)
    ensures r.Ok? ==> |r.value.1| <= |b|
  {
    if !wireType.LengthDelimited? then Err(UnexpectedWireType)
    else if depth == 0 then Err(RecursionLimit)
    else
      match DecodeVarint(b)
      case Err(e) => Err(e)
      case Ok((n, rest)) =>
        if n > |rest| then Err(BufferUnderflow)
        else MergePortFields(port, rest, |rest| - n, depth - 1)
  }

  /** One field of `DiscoveryPacket`; a repeated `oneof` member is merged, another one replaces. */
  function MergePacketField(packet: DiscoveryPacket, b: Bytes): (r: Decoded<DiscoveryPacket>)
    ensures r.Ok? ==> |r.value.1| < |b|
  {
    match DecodeKey(b)
    case Err(e) => Err(e)
    case Ok(((tag, wireType), rest)) =>
      if tag == 1 then
        var before := packet.UnwrapRequest();
        match MergeMessage(if before.Some? then before.value else 0, wireType, rest, RECURSION_LIMIT)
        case Err(e) => Err(e)
        case Ok((port, rest')) => Ok((DiscoveryPacket(Some(Request(port))), rest'))
      else if tag == 2 then
        var before := packet.UnwrapResponse();
        match MergeMessage(if before.Some? then before.value else 0, wireType, rest, RECURSION_LIMIT)
        case Err(e) => Err(e)
        case Ok((port, rest')) => Ok((DiscoveryPacket(Some(Announcement(port))), rest'))
      else
        match SkipField(wireType, tag, rest, RECURSION_LIMIT)
        case Err(e) => Err(e)
        case Ok((_, rest')) => Ok((packet, rest'))
  }

  /** `M::decode`: merges fields until the buffer is empty. */
  function MergePacket(packet: DiscoveryPacket, b: Bytes): (r: Result<DiscoveryPacket, DecodeError>)
    decreases |b|
  {
    if b == [] then Ok(packet)
    else
      match MergePacketField(packet, b)
      case Err(e) => Err(e)
      case Ok((packet', rest)) => MergePacket(packet', rest)
  }

  const EMPTY_PACKET := DiscoveryPacket(None)

  /** `ProtobufDecoder::decode` on a whole buffer: an empty one holds no item. */
  function Decode(b: Bytes): (r: Result<Option<DiscoveryPacket>, DecodeError>) {
    if b == [] then Ok(None)
    else
      match MergePacket(EMPTY_PACKET, b)
      case Err(e) => Err(e)
      case Ok(packet) => Ok(Some(packet))
  }

  // ---------------------------------------------------------------- the decoder in place

  lemma ScaleGroup(weight: int, low: nat, high: nat)
    ensures weight * (low + 0x80 * high) == weight * low + (weight * 0x80) * high
  {}

  class BytesMut {
    var content: Bytes

    constructor (content: Bytes)
      ensures this.content == content
    {
      this.content := content;
    }

    /** Reads a varint byte by byte, least significant group first. */
    method GetVarint() returns (r: Result<nat, DecodeError>)
      modifies this
      ensures match DecodeVarint(old(content))
              case Err(e) => r == Err(e)
              case Ok((n, rest)) => r == Ok(n) && content == rest
    {
      var value, weight, count := 0, 1, 0;
      ghost var whole := DecodeVarint(content);
      while content != [] && count < 10
        invariant count <= 10
        invariant match DecodeVarint(content, count)
                  case Err(e) => whole == Err(e)
                  case Ok((n, rest)) => whole == Ok((value + weight * n, rest))
        decreases 10 - count
      {
        var byte := content[0];
        content := content[1..];
        if byte < 0x80 {
          if count == 9 && byte >= 2 {
            return Err(InvalidVarint);
          }
          return Ok(value + weight * byte);
        }
        ghost var high := DecodeVarint(content, count + 1);
        if high.Ok? {
          ScaleGroup(weight, byte - 0x80, high.value.0);
        }
        value, weight, count := value + weight * (byte - 0x80), weight * 0x80, count + 1;
      }
      return Err(InvalidVarint);
    }

    /** `ProtobufDecoder::decode`; a packet consumes the whole buffer. */
    method TakePacket() returns (r: Result<Option<DiscoveryPacket>, DecodeError>)
      modifies this
      ensures r == Decode(old(content))
      ensures r.Ok? ==> content == []
    {
      if content == [] {
        return Ok(None);
      }
      var packet := EMPTY_PACKET;
      while content != []
        invariant MergePacket(packet, content) == MergePacket(EMPTY_PACKET, old(content))
        decreases |content|
      {
        match MergePacketField(packet, content) {
          case Err(e) => return Err(e);
          case Ok((merged, rest)) => packet, content := merged, rest;
        }
      }
      return Ok(Some(packet));
    }
  }

  // ---------------------------------------------------------------- round trip

  /** 128 to the power `groups`. */
  function Weight(groups: nat): nat {
    if groups == 0 then 1 else 0x80 * Weight(groups - 1)
  }

  lemma {:induction false} VarintRoundTrip(n: nat, rest: Bytes, count: nat)
    requires count <= 4 && n < Weight(5 - count)
    ensures DecodeVarint(EncodeVarint(n) + rest, count) == Ok((n, rest))
    decreases 5 - count
  {
    var b := EncodeVarint(n) + rest;
    if n < 0x80 {
      assert b[1..] == rest;
    } else {
      assert count < 4 by { assert Weight(1) == 0x80; }
      assert b[1..] == EncodeVarint(n / 0x80) + rest;
      assert Weight(5 - count) == 0x80 * Weight(4 - count);
      VarintRoundTrip(n / 0x80, rest, count + 1);
    }
  }

  lemma PortLength(port: U32)
    ensures |EncodePort(port)| <= 6
    ensures port < Weight(5)
  {
    assert Weight(5) == 0x80 * 0x80 * 0x80 * 0x80 * 0x80 by { assert Weight(2) == 0x80 * 0x80; }
    if port >= 0x80 {
      assert |EncodeVarint(port)| == 1 + |EncodeVarint(port / 0x80)|;
      assert |EncodeVarint(port / 0x80)| <= 1 + |EncodeVarint(port / 0x4000)|;
      assert |EncodeVarint(port / 0x4000)| <= 1 + |EncodeVarint(port / 0x20_0000)|;
      assert |EncodeVarint(port / 0x20_0000)| <= 1 + |EncodeVarint(port / 0x1000_0000)|;
    }
  }

  /** A one-byte varint, which is what keys and lengths are here. */
  lemma SmallVarint(n: nat, rest: Bytes)
    requires n < 0x80
    ensures EncodeVarint(n) == [n]
    ensures DecodeVarint([n] + rest) == Ok((n, rest))
  {
    assert ([n] + rest)[1..] == rest;
  }

  lemma PortFieldsRoundTrip(before: U32, port: U32, rest: Bytes, depth: nat)
    ensures MergePortFields(before, EncodePort(port) + rest, |rest|, depth)
         == Ok((if port == 0 then before else port, rest))
  {
    if port == 0 {
      assert EncodePort(port) + rest == rest;
    } else {
      var b := EncodePort(port) + rest;
      PortLength(port);
      assert b == [0x08] + (EncodeVarint(port) + rest);
      SmallVarint(0x08, EncodeVarint(port) + rest);
      VarintRoundTrip(port, rest, 0);
      assert MergePortField(before, b, depth) == Ok((port, rest));
    }
  }

  /** What decoding `next` after `first` leaves: see "Last One Wins". */
  function Merged(first: DiscoveryPacket, next: DiscoveryPacket): DiscoveryPacket {
    match (first.payload, next.payload)
    case (_, None) => first
    case (Some(Request(port)), Some(Request(0))) => first
    case (Some(Announcement(port)), Some(Announcement(0))) => first
    case _ => next
  }

  lemma MessageRoundTrip(before: U32, port: U32, rest: Bytes)
    ensures |EncodePort(port)| < 0x80
    ensures MergeMessage(before, LengthDelimited, [|EncodePort(port)|] + (EncodePort(port) + rest), RECURSION_LIMIT)
         == Ok((if port == 0 then before else port, rest))
  {
    var body := EncodePort(port);
    PortLength(port);
    SmallVarint(|body|, body + rest);
    PortFieldsRoundTrip(before, port, rest, RECURSION_LIMIT - 1);
    hide EncodePort, EncodeVarint, DecodeVarint, MergePortFields;
  }

  lemma KeyRoundTrip(tag: nat, rest: Bytes)
    requires 1 <= tag <= 2
    ensures DecodeKey([8 * tag + 2] + rest) == Ok(((tag, LengthDelimited), rest))
  {
    SmallVarint(8 * tag + 2, rest);
  }

  lemma EncodedField(payload: Payload, rest: Bytes)
    ensures var body := EncodePort(PortOf(payload));
            && |body| < 0x80
            && Encode(DiscoveryPacket(Some(payload))) + rest
               == [8 * TagOf(payload) + 2] + ([|body|] + (body + rest))
  {
    hide EncodePort, EncodeVarint;
    PortLength(PortOf(payload));
    SmallVarint(|EncodePort(PortOf(payload))|, []);
  }

  lemma PacketFieldRoundTrip(first: DiscoveryPacket, next: DiscoveryPacket, rest: Bytes)
    requires next.payload.Some?
    ensures MergePacketField(first, Encode(next) + rest) == Ok((Merged(first, next), rest))
  {
    var payload := next.payload.value;
    var body := EncodePort(PortOf(payload));
    var before := if payload.Request? then first.UnwrapRequest() else first.UnwrapResponse();
    var tail := [|body|] + (body + rest);
    hide EncodePort, EncodeVarint, DecodeVarint, DecodeKey, MergeMessage, SkipField;
    EncodedField(payload, rest);
    hide Encode;
    KeyRoundTrip(TagOf(payload), tail);
    MessageRoundTrip(if before.Some? then before.value else 0, PortOf(payload), rest);
  }

  function EncodeAll(packets: seq<DiscoveryPacket>): Bytes {
    if packets == [] then [] else Encode(packets[0]) + EncodeAll(packets[1..])
  }

  function MergedAll(first: DiscoveryPacket, packets: seq<DiscoveryPacket>): DiscoveryPacket
    decreases |packets|
  {
    if packets == [] then first else MergedAll(Merged(first, packets[0]), packets[1..])
  }

  /** A buffer holding several encodings back to back decodes to their merge, from any start. */
  lemma {:induction false} ConcatenationMerges(first: DiscoveryPacket, packets: seq<DiscoveryPacket>)
    ensures MergePacket(first, EncodeAll(packets)) == Ok(MergedAll(first, packets))
    decreases |packets|
  {
    if packets != [] {
      var rest := EncodeAll(packets[1..]);
      ConcatenationMerges(Merged(first, packets[0]), packets[1..]);
      if packets[0].payload.None? {
        assert Encode(packets[0]) + rest == rest;
      } else {
        PacketFieldRoundTrip(first, packets[0], rest);
      }
    }
  }

  /**
   * Round trip: the encoding of any packet with a payload, over every `uint32` including the
   * left-out 0, is not empty and decodes to that packet; only the packet without one is lost.
   */
  lemma RoundTrip(packet: DiscoveryPacket)
    ensures Decode(Encode(packet)) == if packet.payload.Some? then Ok(Some(packet)) else Ok(None)
    ensures Encode(packet) == [] <==> packet.payload.None?
  {
    ConcatenationMerges(EMPTY_PACKET, [packet]);
    assert EncodeAll([packet]) == Encode(packet) by {
      assert EncodeAll([packet]) == Encode(packet) + EncodeAll([]);
    }
    assert MergedAll(EMPTY_PACKET, [packet]) == MergedAll(Merged(EMPTY_PACKET, packet), []);
  }

  lemma EncodeInjective(p: DiscoveryPacket, q: DiscoveryPacket)
    requires Encode(p) == Encode(q)
    ensures p == q
  {
    RoundTrip(p);
    RoundTrip(q);
  }

  /** The bytes on the wire, for every port a participant may send. */
  lemma BytesOnTheWire(payload: Payload)
    requires PortOf(payload) <= 0xFFFF
    ensures var port := PortOf(payload);
            var message := if port == 0 then [0]
                           else if port < 0x80 then [2, 0x08, port]
                           else if port < 0x4000 then [3, 0x08, 0x80 + port % 0x80, port / 0x80]
                           else [4, 0x08, 0x80 + port % 0x80, 0x80 + port / 0x80 % 0x80, port / 0x4000];
            Encode(DiscoveryPacket(Some(payload))) == [if payload.Request? then 0x0A else 0x12] + message
  {
    var port := PortOf(payload);
    var varint := EncodeVarint(port);
    if port >= 0x80 {
      assert varint == [0x80 + port % 0x80] + EncodeVarint(port / 0x80);
      if port >= 0x4000 {
        assert EncodeVarint(port / 0x80) == [0x80 + port / 0x80 % 0x80] + EncodeVarint(port / 0x4000);
        assert EncodeVarint(port / 0x4000) == [port / 0x4000];
      } else {
        assert EncodeVarint(port / 0x80) == [port / 0x80];
      }
    }
  }

  /**
   * Exactly when the last of two encodings in one buffer wins outright: not when it has no
   * payload, and not when its 0 was left out over a nonzero port of the same kind.
   */
  lemma LastOneWins(p: DiscoveryPacket, q: DiscoveryPacket)
    ensures MergePacket(EMPTY_PACKET, Encode(p) + Encode(q)) == Ok(q) <==>
            (p == q
             || (q.payload.Some?
                 && (p.payload.None? || PortOf(q.payload.value) != 0
                     || p.payload.value.Request? != q.payload.value.Request?)))
  {
    ConcatenationMerges(EMPTY_PACKET, [p, q]);
    assert [p, q][1..] == [q];
    assert EncodeAll([q]) == Encode(q) + EncodeAll([]) == Encode(q);
    assert MergedAll(EMPTY_PACKET, [p, q]) == MergedAll(Merged(EMPTY_PACKET, p), [q]);
    assert MergedAll(Merged(EMPTY_PACKET, p), [q]) == Merged(Merged(EMPTY_PACKET, p), q);
  }

  // ---------------------------------------------------------------- no shorter encoding exists

  lemma {:induction false} VarintShrinks(n: nat, m: nat)
    requires n <= m
    ensures |EncodeVarint(n)| <= |EncodeVarint(m)|
  {
    if n >= 0x80 {
      VarintShrinks(n / 0x80, m / 0x80);
    }
  }

  lemma {:induction false} VarintIsMinimal(b: Bytes, count: nat)
    requires DecodeVarint(b, count).Ok?
    ensures var (n, rest) := DecodeVarint(b, count).value; |EncodeVarint(n)| <= |b| - |rest|
    decreases |b|
  {
    var (n, rest) := DecodeVarint(b, count).value;
    if b[0] >= 0x80 {
      VarintIsMinimal(b[1..], count + 1);
    }
  }

  lemma {:induction false} PortFieldsAreMinimal(port: U32, b: Bytes, limit: nat, depth: nat)
    requires MergePortFields(port, b, limit, depth).Ok?
    ensures var (port', rest) := MergePortFields(port, b, limit, depth).value;
            |EncodePort(port')| <= |EncodePort(port)| + |b| - |rest|
    decreases |b|
  {
    if |b| > limit {
      var (next, rest) := MergePortField(port, b, depth).value;
      PortFieldsAreMinimal(next, rest, limit, depth);
      var ((tag, wireType), value) := DecodeKey(b).value;
      if tag == 1 {
        VarintIsMinimal(value, 0);
        VarintShrinks(next, DecodeVarint(value).value.0);
      }
    }
  }

  lemma MessageIsMinimal(port: U32, wireType: WireType, b: Bytes, depth: nat)
    requires MergeMessage(port, wireType, b, depth).Ok?
    ensures var (port', rest) := MergeMessage(port, wireType, b, depth).value;
            |EncodePort(port')| + 1 <= |EncodePort(port)| + |b| - |rest|
  {
    var (n, body) := DecodeVarint(b).value;
    PortFieldsAreMinimal(port, body, |body| - n, depth - 1);
  }

  lemma PacketFieldIsMinimal(packet: DiscoveryPacket, b: Bytes)
    requires MergePacketField(packet, b).Ok?
    ensures var (packet', rest) := MergePacketField(packet, b).value;
            |Encode(packet')| <= |Encode(packet)| + |b| - |rest|
  {
    var (packet', rest) := MergePacketField(packet, b).value;
    var ((tag, wireType), body) := DecodeKey(b).value;
    if tag == 1 || tag == 2 {
      var before := if tag == 1 then packet.UnwrapRequest() else packet.UnwrapResponse();
      var start := if before.Some? then before.value else 0;
      MessageIsMinimal(start, wireType, body, RECURSION_LIMIT);
      PortLength(start);
      PortLength(PortOf(packet'.payload.value));
      SmallVarint(|EncodePort(start)|, []);
      SmallVarint(|EncodePort(PortOf(packet'.payload.value))|, []);
    }
  }

  /** Whatever a buffer decodes to, its encoding is no longer than that buffer. */
  lemma {:induction false} EncodingIsMinimal(packet: DiscoveryPacket, b: Bytes)
    requires MergePacket(packet, b).Ok?
    ensures |Encode(MergePacket(packet, b).value)| <= |Encode(packet)| + |b|
    decreases |b|
  {
    if b != [] {
      var (next, rest) := MergePacketField(packet, b).value;
      PacketFieldIsMinimal(packet, b);
      EncodingIsMinimal(next, rest);
    }
  }

  /** Canonical form: no buffer that decodes to a packet is shorter than the packet's encoding. */
  lemma NoShorterEncoding(packet: DiscoveryPacket, b: Bytes)
    requires Decode(b) == Ok(Some(packet))
    ensures |Encode(packet)| <= |b|
  {
    EncodingIsMinimal(EMPTY_PACKET, b);
  }
}
