/**
 The receive side as a function of the chunks that arrive. When the current block has less than
 one packet size of room a new block takes over; what was unread is copied into it, but its tail
 stays at zero, so those bytes no longer count.
 */
module Receiving {
  import opened Bytes
  import opened Sequences
  import opened Framing

  datatype Receiver = NoBlock | Filling(tail: nat, unread: seq<Byte>)
  {
    function Unread(): seq<Byte> { if NoBlock? then [] else unread }
  }

  /** `DataBlock::MaxSize`. */
  function MaxSize(packetSize: nat): nat { packetSize * 5 }

  predicate NeedsNewBlock(r: Receiver, packetSize: nat) {
    r.Filling? && MaxSize(packetSize) - r.tail < packetSize
  }

  /** The receiver once `GetBufInfo` has provided room. */
  function WithRoom(r: Receiver, packetSize: nat): Receiver {
    if r.NoBlock? || NeedsNewBlock(r, packetSize) then Filling(0, []) else r
  }

  /** The bytes the extraction loop sees after `chunk` has arrived. */
  function Seen(r: Receiver, chunk: seq<Byte>, packetSize: nat): seq<Byte> {
    WithRoom(r, packetSize).Unread() + chunk
  }

  function Receive(r: Receiver, chunk: seq<Byte>, packetSize: nat): Receiver {
    Filling(WithRoom(r, packetSize).tail + |chunk|, Rest(Seen(r, chunk, packetSize)))
  }

  function Final(r: Receiver, chunks: seq<seq<Byte>>, packetSize: nat): Receiver
    decreases chunks
  {
    if chunks == [] then r else Final(Receive(r, chunks[0], packetSize), chunks[1..], packetSize)
  }

  function Delivered(r: Receiver, chunks: seq<seq<Byte>>, packetSize: nat): seq<Packet>
    decreases chunks
  {
    if chunks == [] then []
    else
      Packets(Seen(r, chunks[0], packetSize)) + Delivered(Receive(r, chunks[0], packetSize), chunks[1..], packetSize)
  }

  function Concat(chunks: seq<seq<Byte>>): seq<Byte> {
    if chunks == [] then [] else chunks[0] + Concat(chunks[1..])
  }

  /** Every block change happens with no byte unread. */
  predicate Steady(r: Receiver, chunks: seq<seq<Byte>>, packetSize: nat)
    decreases chunks
  {
    chunks == [] ||
    (&& (NeedsNewBlock(r, packetSize) ==> r.unread == [])
     && Steady(Receive(r, chunks[0], packetSize), chunks[1..], packetSize))
  }

  /** Every header met is good. */
  predicate SaneRun(r: Receiver, chunks: seq<seq<Byte>>, packetSize: nat)
    decreases chunks
  {
    chunks == [] ||
    (Sane(Seen(r, chunks[0], packetSize)) && SaneRun(Receive(r, chunks[0], packetSize), chunks[1..], packetSize))
  }

  // ---------------------------------------------------------------- the stream theorem

  lemma SeenInOrder(r: Receiver, chunk: seq<Byte>, later: seq<Byte>, packetSize: nat)
    requires NeedsNewBlock(r, packetSize) ==> r.unread == []
    ensures Seen(r, chunk, packetSize) + later == r.Unread() + (chunk + later)
  {
  }

  /** Without loss, receiving chunk by chunk is parsing everything at once. */
  lemma {:induction false} SteadyRunParsesTheStream(r: Receiver, chunks: seq<seq<Byte>>, packetSize: nat)
    requires Steady(r, chunks, packetSize) && !Complete(r.Unread())
    ensures Delivered(r, chunks, packetSize) == Packets(r.Unread() + Concat(chunks))
    ensures Final(r, chunks, packetSize).Unread() == Rest(r.Unread() + Concat(chunks))
    decreases chunks
  {
    if chunks == [] {
      assert r.Unread() + [] == r.Unread();
    } else {
      var seen := Seen(r, chunks[0], packetSize);
      var later := Concat(chunks[1..]);
      RestIsParsed(seen);
      SteadyRunParsesTheStream(Receive(r, chunks[0], packetSize), chunks[1..], packetSize);
      SeenInOrder(r, chunks[0], later, packetSize);
      ParseInPieces(seen, later);
    }
  }

  lemma {:induction false} RestIsParsed(bytes: seq<Byte>)
    ensures !Complete(Rest(bytes))
    ensures Sane(bytes) ==> Sane(Rest(bytes))
    decreases |bytes|
  {
    if Complete(bytes) {
      RestIsParsed(bytes[FirstLength(bytes)..]);
    }
  }

  /** Without loss, whoever receives a prefix of what was sent never meets a bad header. */
  lemma {:induction false} SteadyRunIsSane(r: Receiver, chunks: seq<seq<Byte>>, packetSize: nat)
    requires Steady(r, chunks, packetSize) && Sane(r.Unread() + Concat(chunks))
    ensures SaneRun(r, chunks, packetSize)
    decreases chunks
  {
    if chunks != [] {
      SeenInOrder(r, chunks[0], Concat(chunks[1..]), packetSize);
      SaneInPieces(Seen(r, chunks[0], packetSize), Concat(chunks[1..]));
      SteadyRunIsSane(Receive(r, chunks[0], packetSize), chunks[1..], packetSize);
    }
  }

  /**
   End to end: however the sent stream is cut into chunks, as long as block changes leave nothing
   unread the packets delivered are a prefix of the packets sent, and all of them once every byte
   has arrived.
   */
  lemma DeliveredIsPrefixOfSent(packets: seq<Packet>, chunks: seq<seq<Byte>>, packetSize: nat)
    requires AllSendable(packets) && Concat(chunks) <= Stream(packets) && Steady(NoBlock, chunks, packetSize)
    ensures SaneRun(NoBlock, chunks, packetSize)
    ensures Delivered(NoBlock, chunks, packetSize) <= packets
    ensures Concat(chunks) == Stream(packets) ==> Delivered(NoBlock, chunks, packetSize) == packets
  {
    SteadyRunParsesTheStream(NoBlock, chunks, packetSize);
    assert NoBlock.Unread() + Concat(chunks) == Concat(chunks);
    ParsedIsPrefixOfSent(packets, Concat(chunks));
    SteadyRunIsSane(NoBlock, chunks, packetSize);
  }

  // ---------------------------------------------------------------- exactly when bytes are lost

  /** Bytes that block changes drop. */
  function Lost(r: Receiver, chunks: seq<seq<Byte>>, packetSize: nat): nat
    decreases chunks
  {
    if chunks == [] then 0
    else
      (if NeedsNewBlock(r, packetSize) then |r.unread| else 0)
      + Lost(Receive(r, chunks[0], packetSize), chunks[1..], packetSize)
  }

  lemma StreamCons(p: Packet, packets: seq<Packet>)
    requires Sendable(p) && AllSendable(packets)
    ensures AllSendable([p] + packets) && Stream([p] + packets) == Encode(p) + Stream(packets)
  {
    assert ([p] + packets)[1..] == packets;
  }

  lemma {:induction false} StreamAppend(first: seq<Packet>, second: seq<Packet>)
    requires AllSendable(first) && AllSendable(second)
    ensures AllSendable(first + second) && Stream(first + second) == Stream(first) + Stream(second)
  {
    hide Encode;
    if first == [] {
      assert first + second == second;
    } else {
      assert first + second == [first[0]] + (first[1..] + second);
      StreamAppend(first[1..], second);
      StreamCons(first[0], first[1..] + second);
      Associate(Encode(first[0]), Stream(first[1..]), Stream(second));
    }
  }

  /** Every byte that arrived has been delivered, is unread or was dropped at a block change. */
  lemma {:induction false} BytesBalance(r: Receiver, chunks: seq<seq<Byte>>, packetSize: nat)
    ensures AllSendable(Delivered(r, chunks, packetSize))
    ensures |Stream(Delivered(r, chunks, packetSize))| + |Final(r, chunks, packetSize).Unread()|
            + Lost(r, chunks, packetSize) == |r.Unread()| + |Concat(chunks)|
    decreases chunks
  {
    if chunks != [] {
      var seen := Seen(r, chunks[0], packetSize);
      ParsedReencodes(seen);
      BytesBalance(Receive(r, chunks[0], packetSize), chunks[1..], packetSize);
      StreamAppend(Packets(seen), Delivered(Receive(r, chunks[0], packetSize), chunks[1..], packetSize));
    }
  }

  lemma {:induction false} LostIffNotSteady(r: Receiver, chunks: seq<seq<Byte>>, packetSize: nat)
    ensures Lost(r, chunks, packetSize) == 0 <==> Steady(r, chunks, packetSize)
    decreases chunks
  {
    if chunks != [] {
      LostIffNotSteady(Receive(r, chunks[0], packetSize), chunks[1..], packetSize);
    }
  }

  /**
   The stream survives exactly when every block change leaves nothing unread: then the packets
   delivered, encoded again, and the unread bytes are what arrived; otherwise they are not.
   */
  lemma StreamIsKeptIffSteady(chunks: seq<seq<Byte>>, packetSize: nat)
    ensures AllSendable(Delivered(NoBlock, chunks, packetSize))
    ensures
      Stream(Delivered(NoBlock, chunks, packetSize)) + Final(NoBlock, chunks, packetSize).Unread() == Concat(chunks)
      <==> Steady(NoBlock, chunks, packetSize)
  {
    BytesBalance(NoBlock, chunks, packetSize);
    LostIffNotSteady(NoBlock, chunks, packetSize);
    if Steady(NoBlock, chunks, packetSize) {
      SteadyRunParsesTheStream(NoBlock, chunks, packetSize);
      assert NoBlock.Unread() + Concat(chunks) == Concat(chunks);
      ParsedReencodes(Concat(chunks));
    }
  }

  /** A run that loses bytes has a first block change at which it does. */
  lemma {:induction false} FirstLoss(r: Receiver, chunks: seq<seq<Byte>>, packetSize: nat) returns (n: nat)
    requires !Steady(r, chunks, packetSize)
    ensures n < |chunks| && Steady(r, chunks[..n], packetSize)
    ensures NeedsNewBlock(Final(r, chunks[..n], packetSize), packetSize)
    ensures Final(r, chunks[..n], packetSize).unread != []
    decreases chunks
  {
    if NeedsNewBlock(r, packetSize) && r.unread != [] {
      n := 0;
    } else {
      var m := FirstLoss(Receive(r, chunks[0], packetSize), chunks[1..], packetSize);
      n := m + 1;
      assert chunks[..n][1..] == chunks[1..][..m];
    }
  }

  lemma FrontIsPrefix(front: seq<Byte>, back: seq<Byte>, all: seq<Byte>)
    requires front + back <= all
    ensures front <= all
  {
  }

  lemma LossAtOnce(r: Receiver, chunk: seq<Byte>, packetSize: nat)
    requires NeedsNewBlock(r, packetSize) && r.unread != []
    ensures !Steady(r, [chunk], packetSize)
  {
  }

  /**
   On a sent stream the receiver is right up to its first loss: until then every header it meets is
   good, and it has delivered the packets sent. The loss is real: the next receive drops bytes.
   */
  lemma SentStreamIsRightUpToTheFirstLoss(packets: seq<Packet>, chunks: seq<seq<Byte>>, packetSize: nat)
      returns (n: nat)
    requires AllSendable(packets) && Concat(chunks) <= Stream(packets) && !Steady(NoBlock, chunks, packetSize)
    ensures n < |chunks| && SaneRun(NoBlock, chunks[..n], packetSize)
    ensures Delivered(NoBlock, chunks[..n], packetSize) <= packets
    ensures Lost(NoBlock, chunks[..n], packetSize) == 0 < Lost(NoBlock, chunks[..n + 1], packetSize)
    ensures NeedsNewBlock(Final(NoBlock, chunks[..n], packetSize), packetSize)
  {
    hide Stream, Delivered, Steady, Lost, Final, SaneRun, Concat;
    n := FirstLoss(NoBlock, chunks, packetSize);
    assert chunks == chunks[..n] + chunks[n..];
    ConcatSplit(chunks[..n], chunks[n..]);
    FrontIsPrefix(Concat(chunks[..n]), Concat(chunks[n..]), Stream(packets));
    DeliveredIsPrefixOfSent(packets, chunks[..n], packetSize);
    assert chunks[..n + 1] == chunks[..n] + [chunks[n]];
    SteadySplit(NoBlock, chunks[..n], [chunks[n]], packetSize);
    LossAtOnce(Final(NoBlock, chunks[..n], packetSize), chunks[n], packetSize);
    LostIffNotSteady(NoBlock, chunks[..n], packetSize);
    LostIffNotSteady(NoBlock, chunks[..n + 1], packetSize);
  }

  /** A sender whose chunks end at packet boundaries is always safe. */
  lemma {:induction false} WholePacketsAreSteady(r: Receiver, groups: seq<seq<Packet>>,
                                                 chunks: seq<seq<Byte>>, packetSize: nat)
    requires r.Unread() == [] && |groups| == |chunks|
    requires forall i :: 0 <= i < |groups| ==> AllSendable(groups[i]) && chunks[i] == Stream(groups[i])
    ensures Steady(r, chunks, packetSize)
    decreases chunks
  {
    if chunks != [] {
      ParsedIsPrefixOfSent(groups[0], chunks[0]);
      assert Seen(r, chunks[0], packetSize) == chunks[0];
      WholePacketsAreSteady(Receive(r, chunks[0], packetSize), groups[1..], chunks[1..], packetSize);
    }
  }

  lemma {:induction false} SteadySplit(r: Receiver, first: seq<seq<Byte>>, second: seq<seq<Byte>>, packetSize: nat)
    ensures Steady(r, first + second, packetSize)
      <==> Steady(r, first, packetSize) && Steady(Final(r, first, packetSize), second, packetSize)
    decreases first
  {
    if first == [] {
      assert first + second == second;
    } else {
      assert (first + second)[1..] == first[1..] + second;
      SteadySplit(Receive(r, first[0], packetSize), first[1..], second, packetSize);
    }
  }

  /** Up to five full reads go into one block. */
  lemma {:induction false} FiveReadsFillABlock(r: Receiver, chunks: seq<seq<Byte>>, done: nat)
    requires forall i :: 0 <= i < |chunks| ==> |chunks[i]| == MAX_TCP_PACKET_SIZE
    requires done + |chunks| <= 5 && !Complete(r.Unread())
    requires r == if done == 0 then NoBlock else Filling(MAX_TCP_PACKET_SIZE * done, r.Unread())
    ensures Steady(r, chunks, MAX_TCP_PACKET_SIZE)
    ensures chunks != [] ==> Final(r, chunks, MAX_TCP_PACKET_SIZE) == Filling(
      MAX_TCP_PACKET_SIZE * (done + |chunks|), Rest(r.Unread() + Concat(chunks)))
    ensures |Concat(chunks)| == MAX_TCP_PACKET_SIZE * |chunks|
    decreases chunks
  {
    if chunks != [] {
      RestIsParsed(Seen(r, chunks[0], MAX_TCP_PACKET_SIZE));
      FiveReadsFillABlock(Receive(r, chunks[0], MAX_TCP_PACKET_SIZE), chunks[1..], done + 1);
      SteadyRunParsesTheStream(r, chunks, MAX_TCP_PACKET_SIZE);
      assert chunks == [chunks[0]] + chunks[1..];
    }
  }

  lemma RestSkips(p: Packet, more: seq<Byte>)
    requires Sendable(p)
    ensures Rest(Encode(p) + more) == Rest(more)
  {
    DecodeEncoded(p, more);
    assert (Encode(p) + more)[|Encode(p)|..] == more;
  }

  lemma {:induction false} ConcatSplit(first: seq<seq<Byte>>, second: seq<seq<Byte>>)
    ensures Concat(first + second) == Concat(first) + Concat(second)
  {
    if first == [] {
      assert first + second == second;
    } else {
      assert (first + second)[1..] == first[1..] + second;
      ConcatSplit(first[1..], second);
    }
  }

  /** Past whole packets of 4000 bytes, what remains is the part of the next one. */
  lemma {:induction false} PartOfAPacketRemains(packets: seq<Packet>, bytes: seq<Byte>, k: nat, m: nat)
    requires AllSendable(packets) && forall i :: 0 <= i < |packets| ==> |packets[i].body| == 3992
    requires bytes <= Stream(packets) && |bytes| == 4000 * k + m && m < 4000 && k < |packets|
    ensures |Rest(bytes)| == m
    decreases k
  {
    hide Encode, Complete, Stream, Rest;
    if k == 0 {
      Within(packets, bytes);
      PartialIsIncomplete(packets[0], bytes);
      NothingParsed(bytes);
    } else {
      BeyondFirst(packets, bytes);
      RestSkips(packets[0], bytes[4000..]);
      PartOfAPacketRemains(packets[1..], bytes[4000..], k - 1, m);
    }
  }

  lemma Within(packets: seq<Packet>, bytes: seq<Byte>)
    requires AllSendable(packets) && packets != [] && bytes <= Stream(packets) && |bytes| < |Encode(packets[0])|
    ensures bytes < Encode(packets[0])
  {
    assert bytes == Stream(packets)[..|bytes|] == Encode(packets[0])[..|bytes|];
  }

  lemma NothingParsed(bytes: seq<Byte>)
    requires !Complete(bytes)
    ensures Rest(bytes) == bytes
  {
  }

  /**
   Losing runs are ordinary ones: packets of 4000 bytes on a busy connection. The sixth read finds
   a full block with 480 bytes of the sixth packet unread, and they are dropped.
   */
  lemma StraddlingPacketIsLost(packets: seq<Packet>, chunks: seq<seq<Byte>>)
    requires |packets| == 6 && forall i :: 0 <= i < 6 ==> |packets[i].body| == 3992
    requires |chunks| == 6 && forall i :: 0 <= i < 5 ==> |chunks[i]| == MAX_TCP_PACKET_SIZE
    requires Concat(chunks) <= Stream(packets)
    ensures !Steady(NoBlock, chunks, MAX_TCP_PACKET_SIZE)
    ensures Lost(NoBlock, chunks, MAX_TCP_PACKET_SIZE) > 0
  {
    hide Stream, Packets, Rest;
    var five := chunks[..5];
    FiveReadsFillABlock(NoBlock, five, 0);
    assert chunks == five + [chunks[5]];
    ConcatSplit(five, [chunks[5]]);
    assert NoBlock.Unread() + Concat(five) == Concat(five);
    assert Concat(five) <= Concat(chunks);
    PartOfAPacketRemains(packets, Concat(five), 5, 480);
    SteadySplit(NoBlock, five, [chunks[5]], MAX_TCP_PACKET_SIZE);
    LostIffNotSteady(NoBlock, chunks, MAX_TCP_PACKET_SIZE);
  }
}
