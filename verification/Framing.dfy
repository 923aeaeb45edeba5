/** The wire format of `SendPacket` and the parsing that `NetworkMessage` performs, as functions on bytes. */
module Framing {
  import opened Bytes

  type Int32 = x: int | -0x8000_0000 <= x < 0x8000_0000

  const HEADER_SIZE: nat := 8
  const MAX_TCP_PACKET_SIZE: nat := 4096

  /** The longest body whose length plus the header's still is an `int`. */
  const MAX_BODY: nat := 0x7FFF_FFF7

  /** `TCPHeader` is {size, type}; `size` counts the body alone. */
  datatype Packet = Packet(kind: Int32, body: seq<Byte>)

  lemma FourBytes()
    ensures Power256(4) == 0x1_0000_0000
  {
    assert Power256(1) == 256 && Power256(2) == 0x1_0000 && Power256(3) == 0x100_0000;
  }

  /** An `int` in memory: two's complement, least significant byte first. */
  function IntBytes(x: Int32): (bytes: seq<Byte>)
    ensures |bytes| == 4
  {
    Digits(if x < 0 then x + 0x1_0000_0000 else x, 4)
  }

  function BytesInt(bytes: seq<Byte>): Int32
    requires |bytes| == 4
  {
    DigitsOfValue(bytes);
    FourBytes();
    var u := Value(bytes);
    if u >= 0x8000_0000 then u - 0x1_0000_0000 else u
  }

  lemma IntRoundTrip(x: Int32)
    ensures BytesInt(IntBytes(x)) == x
  {
    FourBytes();
    ValueOfDigits(if x < 0 then x + 0x1_0000_0000 else x, 4);
  }

  lemma IntBytesInvert(bytes: seq<Byte>)
    requires |bytes| == 4
    ensures IntBytes(BytesInt(bytes)) == bytes
  {
    FourBytes();
    DigitsOfValue(bytes);
  }

  /** The four digits of a number below 2^32. */
  lemma FourDigits(u: nat)
    ensures Digits(u, 4) == [u % 256, u / 256 % 256, u / 0x1_0000 % 256, u / 0x100_0000 % 256]
  {
    var a, b, c := u / 256, u / 256 / 256, u / 256 / 256 / 256;
    assert b == u / 0x1_0000 && c == u / 0x100_0000;
    assert Digits(c, 1) == [c % 256] + Digits(c / 256, 0);
    assert Digits(b, 2) == [b % 256] + Digits(c, 1);
    assert Digits(a, 3) == [a % 256] + Digits(b, 2);
    assert Digits(u, 4) == [u % 256] + Digits(a, 3);
  }

  /** Byte `i` of a field is x / 256^i mod 256, also for a negative one, as division rounds down. */
  lemma FieldBytes(x: Int32)
    ensures IntBytes(x) == [x % 256, x / 256 % 256, x / 0x1_0000 % 256, x / 0x100_0000 % 256]
  {
    hide Digits;
    FourDigits(if x < 0 then x + 0x1_0000_0000 else x);
    TwosComplement(x);
    WholeBytes(x, 0x100_0000);
    WholeBytes(x / 256, 0x1_0000);
    WholeBytes(x / 0x1_0000, 256);
    WholeBytes(x / 0x100_0000, 1);
  }

  lemma TwosComplement(x: int)
    ensures x + 0x1_0000_0000 == x + 256 * 0x100_0000
    ensures (x + 0x1_0000_0000) / 256 == x / 256 + 256 * 0x1_0000
    ensures (x + 0x1_0000_0000) / 0x1_0000 == x / 0x1_0000 + 256 * 256
    ensures (x + 0x1_0000_0000) / 0x100_0000 == x / 0x100_0000 + 256 * 1
  {
  }

  lemma WholeBytes(y: int, m: int)
    ensures (y + 256 * m) % 256 == y % 256
  {
  }

  /** The body length fits the header's `int`. */
  predicate Encodable(p: Packet) { |p.body| < 0x8000_0000 }

  /** And so does the length of the packet. */
  predicate Sendable(p: Packet) { |p.body| <= MAX_BODY }

  function Header(p: Packet): (bytes: seq<Byte>)
    requires Encodable(p)
    ensures |bytes| == HEADER_SIZE
  {
    IntBytes(|p.body|) + IntBytes(p.kind)
  }

  function Encode(p: Packet): (bytes: seq<Byte>)
    requires Encodable(p)
    ensures |bytes| == HEADER_SIZE + |p.body|
  {
    Header(p) + p.body
  }

  /** The wire format: the body's length, the type, the body; both fields least significant byte first. */
  lemma WireFormat(p: Packet)
    requires Encodable(p)
    ensures var size, bytes := |p.body|, Encode(p);
      && bytes[..4] == [size % 256, size / 256 % 256, size / 0x1_0000 % 256, size / 0x100_0000 % 256]
      && bytes[4..8] == [p.kind % 256, p.kind / 256 % 256, p.kind / 0x1_0000 % 256, p.kind / 0x100_0000 % 256]
      && bytes[8..] == p.body
  {
    FieldBytes(|p.body|);
    FieldBytes(p.kind);
  }

  predicate AllSendable(packets: seq<Packet>) { forall i :: 0 <= i < |packets| ==> Sendable(packets[i]) }

  /** What a sender puts on the wire. */
  function Stream(packets: seq<Packet>): seq<Byte>
    requires AllSendable(packets)
  {
    if packets == [] then [] else Encode(packets[0]) + Stream(packets[1..])
  }

  // ---------------------------------------------------------------- parsing

  function SizeField(bytes: seq<Byte>): Int32
    requires |bytes| >= HEADER_SIZE
  {
    BytesInt(bytes[..4])
  }

  function KindField(bytes: seq<Byte>): Int32
    requires |bytes| >= HEADER_SIZE
  {
    BytesInt(bytes[4..8])
  }

  /** What is left of a sum of two `int`s. */
  function Wrap32(x: int): (y: Int32)
    ensures -0x8000_0000 <= x < 0x8000_0000 ==> y == x
  {
    (x + 0x8000_0000) % 0x1_0000_0000 - 0x8000_0000
  }

  /** `header->size + HeaderSize`, an `int`. */
  function Total(bytes: seq<Byte>): Int32
    requires |bytes| >= HEADER_SIZE
  {
    Wrap32(SizeField(bytes) + HEADER_SIZE)
  }

  /** The two tests of `GetNetMessage` are passed. */
  predicate Accepted(bytes: seq<Byte>) {
    |bytes| >= HEADER_SIZE && |bytes| >= Total(bytes)
  }

  predicate GoodHeader(bytes: seq<Byte>)
    requires |bytes| >= HEADER_SIZE
  {
    0 <= SizeField(bytes) <= MAX_BODY
  }

  /** A header is there whose length field no sender within the limits produces. */
  predicate BadHeader(bytes: seq<Byte>) {
    |bytes| >= HEADER_SIZE && !GoodHeader(bytes)
  }

  /** A whole packet is at the front. */
  predicate Complete(bytes: seq<Byte>) {
    |bytes| >= HEADER_SIZE && GoodHeader(bytes) && |bytes| >= HEADER_SIZE + SizeField(bytes)
  }

  /**
   When a packet is found, the head moves on by at least a header and stays within the data exactly
   if the length field is in 0 .. 2^31 - 9. Every other header is accepted as soon as it is there.
   */
  lemma AcceptedMovesOnIffGood(bytes: seq<Byte>)
    requires |bytes| >= HEADER_SIZE
    ensures Accepted(bytes) ==> (HEADER_SIZE <= Total(bytes) <= |bytes| <==> 0 <= SizeField(bytes) <= 0x7FFF_FFF7)
    ensures BadHeader(bytes) ==> Accepted(bytes)
    ensures Complete(bytes) <==> Accepted(bytes) && GoodHeader(bytes)
  {
    var size := SizeField(bytes);
    if size + HEADER_SIZE >= 0x8000_0000 {
      assert size + HEADER_SIZE + 0x8000_0000 == 0x1_0000_0000 + (size + HEADER_SIZE - 0x8000_0000);
      assert Total(bytes) == size + HEADER_SIZE - 0x1_0000_0000;
    } else {
      assert Total(bytes) == size + HEADER_SIZE;
    }
  }

  function FirstLength(bytes: seq<Byte>): (n: nat)
    requires Complete(bytes)
    ensures HEADER_SIZE <= n <= |bytes|
  {
    HEADER_SIZE + SizeField(bytes)
  }

  function FirstPacket(bytes: seq<Byte>): Packet
    requires Complete(bytes)
  {
    Packet(KindField(bytes), bytes[HEADER_SIZE..FirstLength(bytes)])
  }

  function Packets(bytes: seq<Byte>): seq<Packet>
    decreases |bytes|
  {
    if Complete(bytes) then [FirstPacket(bytes)] + Packets(bytes[FirstLength(bytes)..]) else []
  }

  function Rest(bytes: seq<Byte>): seq<Byte>
    decreases |bytes|
  {
    if Complete(bytes) then Rest(bytes[FirstLength(bytes)..]) else bytes
  }

  /** Every header met while parsing is good. */
  predicate Sane(bytes: seq<Byte>)
    decreases |bytes|
  {
    && !BadHeader(bytes)
    && (Complete(bytes) ==> Sane(bytes[FirstLength(bytes)..]))
  }

  /** The front packet is the same however much has arrived behind it. */
  lemma FirstIsStable(bytes: seq<Byte>, more: seq<Byte>)
    requires Complete(bytes)
    ensures Complete(bytes + more) && FirstLength(bytes + more) == FirstLength(bytes)
    ensures FirstPacket(bytes + more) == FirstPacket(bytes)
    ensures (bytes + more)[FirstLength(bytes)..] == bytes[FirstLength(bytes)..] + more
  {
    assert (bytes + more)[..4] == bytes[..4];
    assert (bytes + more)[4..8] == bytes[4..8];
  }

  /** Parsing piece by piece is parsing at once. */
  lemma {:induction false} ParseInPieces(bytes: seq<Byte>, more: seq<Byte>)
    ensures Packets(bytes + more) == Packets(bytes) + Packets(Rest(bytes) + more)
    ensures Rest(bytes + more) == Rest(Rest(bytes) + more)
    decreases |bytes|
  {
    if Complete(bytes) {
      FirstIsStable(bytes, more);
      ParseInPieces(bytes[FirstLength(bytes)..], more);
    }
  }

  lemma {:induction false} SaneInPieces(bytes: seq<Byte>, more: seq<Byte>)
    requires Sane(bytes + more)
    ensures Sane(bytes) && Sane(Rest(bytes) + more)
    decreases |bytes|
  {
    if |bytes| >= HEADER_SIZE {
      assert (bytes + more)[..4] == bytes[..4];
    }
    if Complete(bytes) {
      FirstIsStable(bytes, more);
      SaneInPieces(bytes[FirstLength(bytes)..], more);
    }
  }

  lemma EncodeInvertsFirst(bytes: seq<Byte>)
    requires Complete(bytes)
    ensures Sendable(FirstPacket(bytes)) && Encode(FirstPacket(bytes)) == bytes[..FirstLength(bytes)]
  {
    IntBytesInvert(bytes[..4]);
    IntBytesInvert(bytes[4..8]);
  }

  /** Parsing drops nothing: the packets found, encoded again, and the remainder are the bytes. */
  lemma {:induction false} ParsedReencodes(bytes: seq<Byte>)
    ensures AllSendable(Packets(bytes)) && bytes == Stream(Packets(bytes)) + Rest(bytes)
    decreases |bytes|
  {
    if Complete(bytes) {
      var tail := bytes[FirstLength(bytes)..];
      ParsedReencodes(tail);
      EncodeInvertsFirst(bytes);
      Recompose(bytes, FirstPacket(bytes), Packets(tail), Rest(tail));
    }
  }

  lemma Recompose(bytes: seq<Byte>, p: Packet, packets: seq<Packet>, rest: seq<Byte>)
    requires Sendable(p) && AllSendable(packets)
    requires Encode(p) <= bytes && bytes[|Encode(p)|..] == Stream(packets) + rest
    ensures AllSendable([p] + packets) && bytes == Stream([p] + packets) + rest
  {
    assert ([p] + packets)[1..] == packets;
    assert bytes == Encode(p) + bytes[|Encode(p)|..];
  }

  /** A packet comes out as it went in exactly if its length plus the header's is an `int`. */
  lemma DecodeEncoded(p: Packet, more: seq<Byte>)
    requires Encodable(p)
    ensures SizeField(Encode(p) + more) == |p.body|
    ensures Complete(Encode(p) + more) <==> Sendable(p)
    ensures Sendable(p) ==> FirstLength(Encode(p) + more) == |Encode(p)| && FirstPacket(Encode(p) + more) == p
  {
    var bytes := Encode(p) + more;
    assert bytes[..4] == IntBytes(|p.body|);
    assert bytes[4..8] == IntBytes(p.kind);
    IntRoundTrip(|p.body|);
    IntRoundTrip(p.kind);
    assert bytes[HEADER_SIZE..HEADER_SIZE + |p.body|] == p.body;
  }

  lemma PartialIsIncomplete(p: Packet, bytes: seq<Byte>)
    requires Sendable(p) && bytes < Encode(p)
    ensures !Complete(bytes) && Sane(bytes)
  {
    DecodeEncoded(p, []);
    assert Encode(p) + [] == Encode(p);
    if |bytes| >= HEADER_SIZE {
      assert bytes[..4] == Encode(p)[..4];
    }
  }

  /** Bytes that reach past the first packet sent. */
  lemma BeyondFirst(packets: seq<Packet>, bytes: seq<Byte>)
    requires AllSendable(packets) && packets != [] && bytes <= Stream(packets) && |bytes| >= |Encode(packets[0])|
    ensures var n := |Encode(packets[0])|;
      bytes == Encode(packets[0]) + bytes[n..] && bytes[n..] <= Stream(packets[1..])
  {
    hide Encode;
    var p := Encode(packets[0]);
    assert Stream(packets)[..|p|] == p && Stream(packets)[|p|..] == Stream(packets[1..]);
    assert bytes == Stream(packets)[..|bytes|];
  }

  /**
   Round trip: from any prefix of what was sent, parsing yields a prefix of the packets sent, with
   the same kinds and bodies; from all of it, all of them with nothing over. Every header met is
   good.
   */
  lemma {:induction false} ParsedIsPrefixOfSent(packets: seq<Packet>, bytes: seq<Byte>)
    requires AllSendable(packets) && bytes <= Stream(packets)
    ensures Sane(bytes) && Packets(bytes) <= packets
    ensures bytes == Stream(packets) ==> Packets(bytes) == packets && Rest(bytes) == []
    decreases packets
  {
    if packets != [] {
      var p := packets[0];
      var n := |Encode(p)|;
      if |bytes| < n {
        assert bytes == Stream(packets)[..|bytes|] == Encode(p)[..|bytes|];
        PartialIsIncomplete(p, bytes);
      } else {
        var more := bytes[n..];
        BeyondFirst(packets, bytes);
        DecodeEncoded(p, more);
        ParsedIsPrefixOfSent(packets[1..], more);
      }
    }
  }

  // ---------------------------------------------------------------- headers that lead astray

  /** The extraction loop, on the bytes received with the cursor at `head`, goes round `n` times. */
  predicate RunsFor(buffer: seq<Byte>, head: int, n: nat)
    decreases n
  {
    n == 0 || (
      && 0 <= head <= |buffer| && Accepted(buffer[head..])
      && RunsFor(buffer, head + Total(buffer[head..]), n - 1))
  }

  /** Where the loop finds packets in its first `n` rounds, as long as the head is inside the buffer. */
  function Found(buffer: seq<Byte>, head: int, n: nat): seq<int>
    decreases n
  {
    if n == 0 || !(0 <= head <= |buffer|) || !Accepted(buffer[head..]) then []
    else [head] + Found(buffer, head + Total(buffer[head..]), n - 1)
  }

  /** Where the head is then. */
  function HeadAfter(buffer: seq<Byte>, head: int, n: nat): int
    decreases n
  {
    if n == 0 || !(0 <= head <= |buffer|) || !Accepted(buffer[head..]) then head
    else HeadAfter(buffer, head + Total(buffer[head..]), n - 1)
  }

  lemma OneRound(buffer: seq<Byte>, head: int, n: nat)
    requires n > 0 && 0 <= head <= |buffer|
    ensures Accepted(buffer[head..]) ==>
      && |buffer[head..]| >= HEADER_SIZE
      && Found(buffer, head, n) == [head] + Found(buffer, head + Total(buffer[head..]), n - 1)
      && HeadAfter(buffer, head, n) == HeadAfter(buffer, head + Total(buffer[head..]), n - 1)
      && head + Total(buffer[head..]) <= |buffer|
  {
  }

  /** After the last round, or at the first that finds nothing, or with the head outside. */
  lemma RoundsEnd(buffer: seq<Byte>, head: int, n: nat)
    requires n == 0 || !(0 <= head <= |buffer|) || !Accepted(buffer[head..])
    ensures Found(buffer, head, n) == [] && HeadAfter(buffer, head, n) == head
  {
  }

  lemma {:induction false} FoundInEveryRound(buffer: seq<Byte>, head: int, n: nat)
    ensures |Found(buffer, head, n)| <= n
    ensures |Found(buffer, head, n)| == n <==> RunsFor(buffer, head, n)
    decreases n
  {
    if n > 0 && 0 <= head <= |buffer| && Accepted(buffer[head..]) {
      FoundInEveryRound(buffer, head + Total(buffer[head..]), n - 1);
    }
  }

  /** With good headers only, the loop goes round once for each packet and then stops. */
  lemma {:induction false} SaneLoopEnds(buffer: seq<Byte>, head: int)
    requires 0 <= head <= |buffer| && Sane(buffer[head..])
    ensures forall n: nat :: RunsFor(buffer, head, n) <==> n <= |Packets(buffer[head..])|
    decreases |buffer| - head
  {
    var data := buffer[head..];
    if |data| >= HEADER_SIZE { AcceptedMovesOnIffGood(data); }
    if Complete(data) {
      assert buffer[head + FirstLength(data)..] == data[FirstLength(data)..];
      SaneLoopEnds(buffer, head + FirstLength(data));
      forall n: nat ensures RunsFor(buffer, head, n) <==> n <= |Packets(data)| {
        if n > 0 { assert RunsFor(buffer, head, n) <==> RunsFor(buffer, head + FirstLength(data), n - 1); }
      }
    }
  }

  /** A length of -8 makes the loop go round for ever: the head stays where it is. */
  lemma {:induction false} MinusEightNeverEnds(buffer: seq<Byte>, head: int, n: nat)
    requires 0 <= head && head + HEADER_SIZE <= |buffer| && SizeField(buffer[head..]) == -8
    ensures RunsFor(buffer, head, n)
  {
    if n > 0 { MinusEightNeverEnds(buffer, head, n - 1); }
  }

  /** The largest length is accepted with no body there, and throws the head out of any buffer. */
  lemma LargestLengthLeavesTheBuffer(buffer: seq<Byte>, head: int)
    requires 0 <= head && head + HEADER_SIZE <= |buffer| <= 0x7FFF_0000
    requires SizeField(buffer[head..]) == 0x7FFF_FFFF
    ensures Accepted(buffer[head..]) && head + Total(buffer[head..]) < 0
  {
    assert 0x7FFF_FFFF + HEADER_SIZE + 0x8000_0000 == 0x1_0000_0000 + 7;
  }

  /** Such headers can be received: any four bytes can be the length field. */
  lemma AnyLengthCanArrive(size: Int32, kind: Int32, more: seq<Byte>)
    ensures var bytes := IntBytes(size) + IntBytes(kind) + more;
      |bytes| >= HEADER_SIZE && SizeField(bytes) == size && KindField(bytes) == kind
  {
    var bytes := IntBytes(size) + IntBytes(kind) + more;
    assert bytes[..4] == IntBytes(size) && bytes[4..8] == IntBytes(kind);
    IntRoundTrip(size);
    IntRoundTrip(kind);
  }
}
