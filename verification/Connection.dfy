module PacketHelpers {
  import opened Bytes
  import opened Framing

  /** The bytes of a buffer list, in order. */
  function Flat(bufs: seq<seq<Byte>>): seq<Byte> {
    if bufs == [] then [] else bufs[0] + Flat(bufs[1..])
  }

  function Min(a: nat, b: nat): nat { if a < b then a else b }

  /** `SendPacket::data`: the header and the body as two buffers. */
  function Buffers(p: Packet): (bufs: seq<seq<Byte>>)
    requires Sendable(p)
    ensures Flat(bufs) == Encode(p)
  {
    assert Flat([p.body]) == p.body + Flat([]) == p.body;
    assert [Header(p), p.body][1..] == [p.body];
    [Header(p), p.body]
  }

  class PacketHelper {
    var bufs: seq<seq<Byte>>

    constructor ()
      ensures bufs == []
    {
      bufs := [];
    }

    method Init(p: Packet)
      requires Sendable(p) && bufs == []
      modifies this
      ensures Flat(bufs) == Encode(p)
    {
      bufs := Buffers(p);
    }

    /**
     Drops exactly the first `size` bytes of the concatenated buffers. No empty buffer is left in
     front, so the list is empty exactly when every byte has been dropped.
     */
    method Update(size: nat)
      modifies this
      ensures Flat(bufs) == old(Flat(bufs))[Min(size, |old(Flat(bufs))|)..]
      ensures bufs == [] <==> |old(Flat(bufs))| <= size
    {
      var left: nat := size;
      ghost var all := Flat(bufs);
      while bufs != []
        invariant left <= size && size - left <= |all|
        invariant Flat(bufs) == all[size - left..]
        decreases |bufs|
      {
        var bufSize := |bufs[0]|;
        if left >= bufSize {
          bufs := bufs[1..];
          left := left - bufSize;
          continue;
        }
        assert Flat(bufs) == bufs[0] + Flat(bufs[1..]);
        assert Flat(bufs)[left..] == bufs[0][left..] + Flat(bufs[1..]);
        bufs := [bufs[0][left..]] + bufs[1..];
        return;
      }
    }
  }
}

module Connections {
  import opened Bytes
  import opened Sequences
  import opened Framing
  import opened Receiving
  import opened DataBlocks
  import opened NetworkMessages
  import opened PacketHelpers

  /** The coroutine `Connection::Send`: packets waiting, the one being sent, and what is on the wire. */
  class Sender {
    var waiting: seq<Packet>
    var sending: bool
    const helper: PacketHelper
    var wire: seq<Byte>

    /** Everything ever queued is on the wire, in the helper or waiting, in this order. */
    ghost predicate Valid(queued: seq<Packet>)
      reads this, helper
    {
      && AllSendable(queued) && AllSendable(waiting)
      && (sending <==> helper.bufs != [])
      && (sending ==> Flat(helper.bufs) != [])
      && wire + Flat(helper.bufs) + Stream(waiting) == Stream(queued)
    }

    constructor ()
      ensures Valid([]) && wire == [] && fresh(helper) && Remaining() == []
    {
      waiting, sending, wire := [], false, [];
      helper := new PacketHelper();
    }

    method Send(p: Packet, ghost queued: seq<Packet>)
      requires Valid(queued) && Sendable(p)
      modifies this`waiting
      ensures Valid(queued + [p])
      ensures Remaining() == old(Remaining()) + [Encode(p)]
    {
      EncodingsOneMore(waiting, p);
      Associate(if sending then [Flat(helper.bufs)] else [], Encodings(waiting), [Encode(p)]);
      QueueOneMore(wire + Flat(helper.bufs), waiting, queued, p);
      waiting := waiting + [p];
    }

    /** Packet by packet, the bytes not yet on the wire. */
    ghost function Remaining(): seq<seq<Byte>>
      reads this, helper
      requires AllSendable(waiting)
    {
      (if sending then [Flat(helper.bufs)] else []) + Encodings(waiting)
    }

    /**
     One round of the loop. Exactly the bytes that the socket accepts of the front packet's, `transfer`
     or all, go on the wire; a packet is done exactly if the socket accepts all that was left of it.
     */
    method Pump(transfer: nat, ghost queued: seq<Packet>)
      requires Valid(queued)
      modifies this, helper
      ensures Valid(queued)
      ensures old(wire) <= wire <= Stream(queued)
      ensures !sending && waiting == [] ==> wire == Stream(queued)
      ensures wire == old(wire) + Written(old(Remaining()), transfer)
      ensures Remaining() == AfterWrite(old(Remaining()), transfer)
    {
      hide Encode, Stream, Encodings;
      if !sending {
        if waiting == [] {
          NothingLeft();
          assert wire + [] + [] == wire;
          return;
        }
        TakeNext(queued);
      }
      var offered := Flat(helper.bufs);
      var taken := Min(transfer, |offered|);
      Transfer(wire, offered, taken, Stream(waiting));
      wire := wire + offered[..taken];
      helper.Update(transfer);
      assert Flat(helper.bufs) == offered[taken..];
      assert wire + Flat(helper.bufs) + Stream(waiting) == Stream(queued);
      ghost var rest := Encodings(waiting);
      assert ([offered] + rest)[1..] == rest;
      if helper.bufs == [] {
        sending := false;
        assert [] + rest == rest;
        NothingLeft();
        assert wire + [] + [] == wire;
      }
    }

    /** The next packet is taken in hand. */
    method TakeNext(ghost queued: seq<Packet>)
      requires Valid(queued) && !sending && waiting != []
      modifies `waiting, `sending, helper
      ensures Valid(queued) && sending && wire == old(wire) && Remaining() == old(Remaining())
    {
      hide Encode, Stream;
      var packet := waiting[0];
      assert wire + [] == wire;
      TakeOne(wire, waiting, Stream(queued));
      helper.Init(packet);
      waiting, sending := waiting[1..], true;
      assert [] + ([Encode(packet)] + Encodings(waiting)) == [Encode(packet)] + Encodings(waiting);
    }
  }

  lemma NothingLeft()
    ensures Stream([]) == [] && Encodings([]) == []
  {
  }

  function Encodings(packets: seq<Packet>): seq<seq<Byte>>
    requires AllSendable(packets)
  {
    if packets == [] then [] else [Encode(packets[0])] + Encodings(packets[1..])
  }

  lemma {:induction false} EncodingsOneMore(packets: seq<Packet>, p: Packet)
    requires AllSendable(packets) && Sendable(p)
    ensures Encodings(packets + [p]) == Encodings(packets) + [Encode(p)]
  {
    hide Encode;
    if packets == [] {
      assert packets + [p] == [p];
    } else {
      assert (packets + [p])[1..] == packets[1..] + [p];
      EncodingsOneMore(packets[1..], p);
    }
  }

  /** What a write of `transfer` bytes puts on the wire when these are left, packet by packet. */
  function Written(left: seq<seq<Byte>>, transfer: nat): seq<Byte> {
    if left == [] then [] else left[0][..Min(transfer, |left[0]|)]
  }

  /** And what is left afterwards. */
  function AfterWrite(left: seq<seq<Byte>>, transfer: nat): seq<seq<Byte>> {
    if left == [] then []
    else if transfer >= |left[0]| then left[1..]
    else [left[0][transfer..]] + left[1..]
  }

  lemma QueueOneMore(front: seq<Byte>, waiting: seq<Packet>, queued: seq<Packet>, p: Packet)
    requires AllSendable(waiting) && AllSendable(queued) && Sendable(p)
    requires front + Stream(waiting) == Stream(queued)
    ensures AllSendable(waiting + [p]) && AllSendable(queued + [p])
    ensures front + Stream(waiting + [p]) == Stream(queued + [p])
  {
    StreamAppend(queued, [p]);
    StreamAppend(waiting, [p]);
    Associate(front, Stream(waiting), Stream([p]));
  }

  lemma TakeOne(wire: seq<Byte>, waiting: seq<Packet>, all: seq<Byte>)
    requires waiting != [] && AllSendable(waiting) && wire + Stream(waiting) == all
    ensures AllSendable(waiting[1..]) && wire + Encode(waiting[0]) + Stream(waiting[1..]) == all
  {
    Associate(wire, Encode(waiting[0]), Stream(waiting[1..]));
  }

  lemma Transfer(wire: seq<Byte>, offered: seq<Byte>, taken: nat, later: seq<Byte>)
    requires taken <= |offered|
    ensures (wire + offered[..taken]) + offered[taken..] + later == wire + offered + later
  {
    assert offered == offered[..taken] + offered[taken..];
  }

  /** The coroutine `Connection::Recv`. */
  class Recv {
    const msg: NetworkMessage

    constructor (packetSize: nat)
      ensures msg.Valid() && msg.View() == NoBlock && msg.packetSize == packetSize && fresh(msg)
    {
      msg := new NetworkMessage(packetSize);
    }

    /**
     The inner loop: deliver every complete packet. The model stops in front of a bad header, which
     is met exactly if the data are not sane; from there on see `GetNetMessage`.
     */
    method Extract() returns (delivered: seq<RecvPacket>, ok: bool)
      requires msg.Valid() && msg.curBlock != null
      modifies msg.curBlock`head
      ensures msg.Valid() && msg.curBlock.tail == old(msg.curBlock.tail)
      ensures msg.curBlock.head >= old(msg.curBlock.head)
      ensures msg.curBlock.Data() == Rest(old(msg.curBlock.Data()))
      ensures ok <==> Sane(old(msg.curBlock.Data()))
      ensures ok <==> !msg.AtBadHeader()
      ensures |delivered| == |Packets(old(msg.curBlock.Data()))|
      ensures forall k :: 0 <= k < |delivered| ==>
        delivered[k].block == msg.curBlock && delivered[k].Shows(Packets(old(msg.curBlock.Data()))[k])
    {
      hide Encode, Header, IntBytes, Digits, BytesInt, Value, SizeField, Accepted, Packets, Rest, Sane;
      var block: DataBlock := msg.curBlock;
      ghost var data := block.Data();
      ghost var packets: seq<Packet> := [];
      ParseNone(data);
      delivered, ok := [], true;
      while true
        invariant msg.Valid() && block.tail == old(block.tail) && block.head >= old(block.head)
        invariant data == block.Data() && Parsed(old(block.Data()), packets, data)
        invariant |delivered| == |packets|
        invariant forall k :: 0 <= k < |delivered| ==>
          delivered[k].block == block && delivered[k].Shows(packets[k])
        modifies block`head
        decreases |data|
      {
        if msg.AtBadHeader() {
          ok := false;
          break;
        }
        var found, packet := msg.GetNetMessage();
        if !found {
          break;
        }
        ParseOne(old(block.Data()), packets, data);
        delivered, packets := delivered + [packet], packets + [FirstPacket(data)];
        data := block.Data();
      }
      ParseEnds(old(block.Data()), packets, data);
    }

    /**
     The inner loop on any input, for at most `rounds` rounds: it goes on past bad headers as the code
     does, back over consumed bytes if they say so, until it ends or its head has left the buffer.
     */
    method ExtractRounds(rounds: nat) returns (packets: seq<RecvPacket>)
      requires msg.Valid() && msg.curBlock != null
      modifies msg.curBlock`head
      ensures var buffer, head := old(msg.curBlock.buf[..msg.curBlock.tail]), old(msg.curBlock.head);
        && msg.curBlock.head == HeadAfter(buffer, head, rounds)
        && |packets| == |Found(buffer, head, rounds)|
        && forall k :: 0 <= k < |packets| ==> packets[k] == RecvPacket(msg.curBlock, Found(buffer, head, rounds)[k])
    {
      hide SizeField, Complete, BadHeader, Accepted, Total, Found, HeadAfter, RecvPacket.Shows;
      var block: DataBlock := msg.curBlock;
      ghost var buffer := block.buf[..block.tail];
      packets := [];
      var n := 0;
      while n < rounds && 0 <= block.head
        invariant block.Valid() <==> 0 <= block.head
        invariant n <= rounds && block.head <= block.tail == |buffer|
        invariant HeadAfter(buffer, block.head, rounds - n) == HeadAfter(buffer, old(block.head), rounds)
        invariant Positions(packets) + Found(buffer, block.head, rounds - n) == Found(buffer, old(block.head), rounds)
        invariant forall k :: 0 <= k < |packets| ==> packets[k].block == block
        modifies block`head
      {
        assert block.Data() == buffer[block.head..];
        ghost var head := block.head;
        OneRound(buffer, head, rounds - n);
        var found, packet := msg.GetNetMessage();
        if !found {
          break;
        }
        Associate(Positions(packets), [head], Found(buffer, block.head, rounds - n - 1));
        packets := packets + [packet];
        n := n + 1;
      }
      RoundsEnd(buffer, block.head, rounds - n);
      assert Positions(packets) == Found(buffer, old(block.head), rounds);
    }

    /** Makes room and receives `chunk`; what the block held stays where it was. */
    method Take(chunk: seq<Byte>)
      requires msg.Valid() && |chunk| <= msg.packetSize
      modifies msg, msg.curBlock, if msg.curBlock == null then {} else {msg.curBlock.buf}
      ensures msg.Valid() && msg.curBlock != null
      ensures msg.curBlock.tail == WithRoom(old(msg.View()), msg.packetSize).tail + |chunk|
      ensures msg.curBlock.Data() == Seen(old(msg.View()), chunk, msg.packetSize)
      ensures msg.curBlock == old(msg.curBlock) || (fresh(msg.curBlock) && fresh(msg.curBlock.buf))
      ensures old(msg.curBlock) != null ==>
        Undisturbed(old(msg.curBlock), old(msg.curBlock.head), old(msg.curBlock.buf[..][..msg.curBlock.tail]))
    {
      hide NeedsNewBlock, WithRoom;
      msg.GetBufInfo();
      msg.Fill(chunk);
    }

    /** One round: make room, receive `chunk`, deliver what is complete. */
    method Round(chunk: seq<Byte>) returns (delivered: seq<RecvPacket>, ghost found: seq<Packet>, ok: bool)
      requires msg.Valid() && |chunk| <= msg.packetSize
      modifies msg, msg.curBlock, if msg.curBlock == null then {} else {msg.curBlock.buf}
      ensures msg.Valid() && msg.curBlock != null
      ensures msg.View() == Receive(old(msg.View()), chunk, msg.packetSize)
      ensures ok <==> Sane(Seen(old(msg.View()), chunk, msg.packetSize))
      ensures msg.curBlock == old(msg.curBlock) || (fresh(msg.curBlock) && fresh(msg.curBlock.buf))
      ensures old(msg.curBlock) != null ==>
        Undisturbed(old(msg.curBlock), old(msg.curBlock.head), old(msg.curBlock.buf[..][..msg.curBlock.tail]))
      ensures found == Packets(Seen(old(msg.View()), chunk, msg.packetSize)) && |delivered| == |found|
      ensures forall k :: 0 <= k < |delivered| ==> delivered[k].block == msg.curBlock && delivered[k].Shows(found[k])
    {
      hide Packets, Rest, Sane, BadHeader, RecvPacket.Shows, Seen, WithRoom;
      found := Packets(Seen(msg.View(), chunk, msg.packetSize));
      Take(chunk);
      delivered, ok := Extract();
    }

    /** A round leaves every view handed out before intact. */
    method RoundKeeping(chunk: seq<Byte>, views: seq<RecvPacket>, ghost packets: seq<Packet>)
      returns (after: seq<RecvPacket>, ghost shown: seq<Packet>, ok: bool)
      requires msg.Valid() && |chunk| <= msg.packetSize
      requires |views| == |packets| && forall k :: 0 <= k < |views| ==> views[k].Shows(packets[k])
      requires Apart(views, msg.curBlock)
      modifies msg, msg.curBlock, if msg.curBlock == null then {} else {msg.curBlock.buf}
      ensures msg.Valid() && msg.curBlock != null
      ensures msg.View() == Receive(old(msg.View()), chunk, msg.packetSize)
      ensures msg.curBlock == old(msg.curBlock) || (fresh(msg.curBlock) && fresh(msg.curBlock.buf))
      ensures ok <==> Sane(Seen(old(msg.View()), chunk, msg.packetSize))
      ensures shown == packets + Packets(Seen(old(msg.View()), chunk, msg.packetSize)) && |after| == |shown|
      ensures forall k :: 0 <= k < |after| ==> after[k].Shows(shown[k])
      ensures Apart(after, msg.curBlock)
    {
      hide RecvPacket.Shows, Seen, Receive, Sane, Packets, SpelledBy, Undisturbed;
      ghost var block, was := msg.curBlock, if msg.curBlock == null then [] else msg.curBlock.buf[..][..msg.curBlock.tail];
      ghost var head := if block == null then 0 else block.head;
      forall k | 0 <= k < |views| && views[k].block == block
        ensures SpelledBy(was[..head], views[k], packets[k])
      {
        ViewSpells(views[k], packets[k]);
      }
      ghost var found;
      var more;
      more, found, ok := Round(chunk);
      forall k | 0 <= k < |views| ensures views[k].Shows(packets[k]) {
        if views[k].block == block { ViewStays(block, was, head, views[k], packets[k]); }
      }
      after, shown := views + more, packets + found;
    }

    /**
     The whole loop, as far as the first bad header. The views handed out on the way, however early,
     still show their packets at the end: later receives and block changes have touched none of
     their bytes.
     */
    method Run(chunks: seq<seq<Byte>>) returns (delivered: seq<RecvPacket>, ok: bool)
      requires msg.Valid() && msg.curBlock == null
      requires forall i :: 0 <= i < |chunks| ==> |chunks[i]| <= msg.packetSize
      modifies msg
      ensures msg.Valid() && (ok <==> SaneRun(NoBlock, chunks, msg.packetSize))
      ensures ok ==> msg.View() == Final(NoBlock, chunks, msg.packetSize)
      ensures ok ==> |delivered| == |Delivered(NoBlock, chunks, msg.packetSize)|
      ensures |delivered| <= |Delivered(NoBlock, chunks, msg.packetSize)|
      ensures forall k :: 0 <= k < |delivered| ==> delivered[k].Shows(Delivered(NoBlock, chunks, msg.packetSize)[k])
    {
      hide Seen, Receive, Sane, Packets, RecvPacket.Shows, SaneRun, Delivered, Final;
      var left := chunks;
      ghost var packets: seq<Packet> := [];
      delivered, ok := [], true;
      ReceiveNone(chunks, msg.packetSize);
      while left != []
        invariant msg.Valid() && (msg.curBlock != null ==> fresh(msg.curBlock) && fresh(msg.curBlock.buf))
        invariant forall i :: 0 <= i < |left| ==> |left[i]| <= msg.packetSize
        invariant ok && Received(chunks, msg.packetSize, packets, msg.View(), left)
        invariant |delivered| == |packets|
        invariant forall k :: 0 <= k < |delivered| ==> delivered[k].Shows(packets[k])
        invariant Apart(delivered, msg.curBlock)
        decreases |left|
      {
        ghost var view, before := msg.View(), packets;
        delivered, packets, ok := RoundKeeping(left[0], delivered, packets);
        ReceiveOne(chunks, msg.packetSize, before, view, left);
        if !ok {
          break;
        }
        left := left[1..];
      }
      if ok { ReceiveEnds(chunks, msg.packetSize, packets, msg.View(), left); }
    }
  }

  // ---------------------------------------------------------------- both ends

  /** What happens at the sending end: a packet is queued, or the socket takes some bytes. */
  datatype SendEvent = Queue(packet: Packet) | Write(transfer: nat)

  function Queued(events: seq<SendEvent>): seq<Packet> {
    if events == [] then [] else
      var last := events[|events| - 1];
      Queued(events[..|events| - 1]) + (if last.Queue? then [last.packet] else [])
  }

  lemma QueuedStep(events: seq<SendEvent>, i: nat)
    requires i < |events|
    ensures events[i].Queue? ==> Queued(events[..i + 1]) == Queued(events[..i]) + [events[i].packet]
    ensures events[i].Write? ==> Queued(events[..i + 1]) == Queued(events[..i])
  {
    assert events[..i + 1][..i] == events[..i];
    assert Queued(events[..i]) + [] == Queued(events[..i]);
  }

  /** The bytes that these events leave unsent, packet by packet. */
  function Unsent(events: seq<SendEvent>): seq<seq<Byte>>
    requires AllSendable(Queued(events))
  {
    if events == [] then [] else
      var last, before := events[|events| - 1], events[..|events| - 1];
      QueuedStep(events, |before|);
      assert events[..|events|] == events;
      PrefixSendable(events, |before|);
      match last
      case Queue(p) => Unsent(before) + [Encode(p)]
      case Write(transfer) => AfterWrite(Unsent(before), transfer)
  }

  lemma PrefixSendable(events: seq<SendEvent>, i: nat)
    requires i < |events| && AllSendable(Queued(events[..i + 1]))
    ensures AllSendable(Queued(events[..i]))
    ensures events[i].Queue? ==> Sendable(events[i].packet)
  {
    QueuedStep(events, i);
    if events[i].Queue? {
      var queued := Queued(events[..i]);
      assert Sendable((queued + [events[i].packet])[|queued|]);
      assert forall k :: 0 <= k < |queued| ==> (queued + [events[i].packet])[k] == queued[k];
    }
  }

  lemma UnsentStep(events: seq<SendEvent>, i: nat)
    requires i < |events| && AllSendable(Queued(events[..i + 1]))
    ensures AllSendable(Queued(events[..i]))
    ensures match events[i]
      case Queue(p) => Sendable(p) && Unsent(events[..i + 1]) == Unsent(events[..i]) + [Encode(p)]
      case Write(transfer) => Unsent(events[..i + 1]) == AfterWrite(Unsent(events[..i]), transfer)
  {
    hide Encode, AfterWrite;
    PrefixSendable(events, i);
    assert events[..i + 1][..i] == events[..i];
  }

  /** The bytes cut into reads of the given sizes. */
  function Cut(bytes: seq<Byte>, sizes: seq<nat>): (chunks: seq<seq<Byte>>)
    ensures |chunks| == |sizes| && forall i :: 0 <= i < |chunks| ==> |chunks[i]| <= sizes[i]
  {
    if sizes == [] then [] else
      var n := Min(sizes[0], |bytes|);
      [bytes[..n]] + Cut(bytes[n..], sizes[1..])
  }

  function Sum(sizes: seq<nat>): nat {
    if sizes == [] then 0 else sizes[0] + Sum(sizes[1..])
  }

  lemma {:induction false} CutIsPrefix(bytes: seq<Byte>, sizes: seq<nat>)
    ensures Concat(Cut(bytes, sizes)) <= bytes
    ensures Sum(sizes) >= |bytes| ==> Concat(Cut(bytes, sizes)) == bytes
    decreases sizes
  {
    if sizes != [] {
      var n := Min(sizes[0], |bytes|);
      CutIsPrefix(bytes[n..], sizes[1..]);
      assert bytes == bytes[..n] + bytes[n..];
    }
  }

  /**
   A connection from end to end. Whatever partial writes the sending socket makes, the wire carries
   all but what they leave unsent, and everything after enough writes. Whatever reads the receiving
   socket makes, if block changes find nothing unread then the packets delivered show a prefix of the
   packets queued, and all of them once everything is written and read.
   */
  method Transmit(events: seq<SendEvent>, sizes: seq<nat>, packetSize: nat)
      returns (wire: seq<Byte>, drained: bool, delivered: seq<RecvPacket>, ok: bool)
    requires forall i :: 0 <= i < |events| && events[i].Queue? ==> Sendable(events[i].packet)
    requires forall i :: 0 <= i < |sizes| ==> sizes[i] <= packetSize
    ensures AllSendable(Queued(events)) && wire <= Stream(Queued(events))
    ensures wire + Concat(Unsent(events)) == Stream(Queued(events))
    ensures drained <==> Unsent(events) == []
    ensures EnoughWrites(events) ==> drained
    ensures drained ==> wire == Stream(Queued(events))
    ensures Steady(NoBlock, Cut(wire, sizes), packetSize) ==>
      && ok && |delivered| == |Packets(Concat(Cut(wire, sizes)))| <= |Queued(events)|
      && (forall k :: 0 <= k < |delivered| ==> delivered[k].Shows(Queued(events)[k]))
      && (drained && Sum(sizes) >= |wire| ==> |delivered| == |Queued(events)|)
      && (EnoughWrites(events) && Sum(sizes) >= |Stream(Queued(events))| ==> |delivered| == |Queued(events)|)
  {
    hide Stream, Encode, RecvPacket.Shows, Delivered, Steady, SaneRun, Final, Unsent, AfterWrite, EnoughWrites;
    var sender := new Sender();
    NothingUnsent(events);
    for i := 0 to |events|
      invariant fresh(sender) && fresh(sender.helper)
      invariant sender.Valid(Queued(events[..i]))
      invariant sender.wire <= Stream(Queued(events[..i]))
      invariant sender.Remaining() == Unsent(events[..i])
    {
      QueuedStep(events, i);
      StillSendable(events, i);
      UnsentStep(events, i);
      match events[i] {
        case Queue(p) =>
          QueueExtends(Queued(events[..i]), p);
          sender.Send(p, Queued(events[..i]));
        case Write(transfer) =>
          sender.Pump(transfer, Queued(events[..i]));
      }
    }
    assert events[..|events|] == events;
    RemainingIsTheRest(sender, Queued(events));
    EnoughWritesDrain(events);
    wire, drained := sender.wire, !sender.sending && sender.waiting == [];
    if drained { SentAll(sender, Queued(events)); }
    CutIsPrefix(wire, sizes);
    var recv := new Recv(packetSize);
    delivered, ok := recv.Run(Cut(wire, sizes));
    if Steady(NoBlock, Cut(wire, sizes), packetSize) {
      DeliveredIsPrefixOfSent(Queued(events), Cut(wire, sizes), packetSize);
      DeliveredIsParsed(Cut(wire, sizes), packetSize);
    }
  }

  lemma DeliveredIsParsed(chunks: seq<seq<Byte>>, packetSize: nat)
    requires Steady(NoBlock, chunks, packetSize)
    ensures Delivered(NoBlock, chunks, packetSize) == Packets(Concat(chunks))
  {
    hide Packets, Delivered, Steady, Final, Rest, Concat;
    SteadyRunParsesTheStream(NoBlock, chunks, packetSize);
    assert NoBlock.Unread() + Concat(chunks) == Concat(chunks);
  }

  lemma NothingUnsent(events: seq<SendEvent>)
    ensures Queued(events[..0]) == [] && AllSendable(Queued(events[..0])) && Unsent(events[..0]) == []
    ensures Encodings([]) == [] && Stream([]) == []
  {
  }

  lemma StillSendable(events: seq<SendEvent>, i: nat)
    requires i < |events| && AllSendable(Queued(events[..i]))
    requires events[i].Queue? ==> Sendable(events[i].packet)
    ensures AllSendable(Queued(events[..i + 1]))
  {
    QueuedStep(events, i);
  }

  lemma {:induction false} ConcatEncodings(packets: seq<Packet>)
    requires AllSendable(packets)
    ensures Concat(Encodings(packets)) == Stream(packets)
  {
    if packets != [] { ConcatEncodings(packets[1..]); }
  }

  lemma RemainingIsTheRest(sender: Sender, queued: seq<Packet>)
    requires sender.Valid(queued)
    ensures sender.wire + Concat(sender.Remaining()) == Stream(queued)
    ensures sender.Remaining() == [] <==> !sender.sending && sender.waiting == []
  {
    hide Encode;
    ConcatEncodings(sender.waiting);
    var bytes := Flat(sender.helper.bufs);
    if sender.sending {
      assert ([bytes] + Encodings(sender.waiting))[1..] == Encodings(sender.waiting);
      Associate(sender.wire, bytes, Stream(sender.waiting));
    } else {
      assert [] + Encodings(sender.waiting) == Encodings(sender.waiting);
      assert sender.wire + [] == sender.wire;
    }
  }

  /** A write that takes every packet queued whole. */
  predicate LargeWrite(e: SendEvent, queued: seq<Packet>)
    requires AllSendable(queued)
  {
    e.Write? && forall k :: 0 <= k < |queued| ==> e.transfer >= |Encode(queued[k])|
  }

  /** The last events are writes of at least a packet's length, at least as many as packets were queued. */
  predicate EnoughWrites(events: seq<SendEvent>)
    requires AllSendable(Queued(events))
  {
    |events| >= |Queued(events)|
    && forall i :: |events| - |Queued(events)| <= i < |events| ==> LargeWrite(events[i], Queued(events))
  }

  ghost predicate NoLonger(left: seq<seq<Byte>>, bound: nat) {
    forall i :: 0 <= i < |left| ==> |left[i]| <= bound
  }

  ghost predicate FitIn(queued: seq<Packet>, bound: nat)
    requires AllSendable(queued)
  {
    forall i :: 0 <= i < |queued| ==> |Encode(queued[i])| <= bound
  }

  /** What is unsent are packets queued, the first perhaps in part. */
  lemma {:induction false} UnsentIsBounded(events: seq<SendEvent>, bound: nat)
    requires AllSendable(Queued(events)) && FitIn(Queued(events), bound)
    ensures |Unsent(events)| <= |Queued(events)| && NoLonger(Unsent(events), bound)
    decreases |events|
  {
    hide Encode, Unsent, Queued;
    if events == [] {
      NothingUnsent(events);
      assert events[..0] == events;
    } else {
      var i := |events| - 1;
      assert events[..i + 1] == events;
      QueuedStep(events, i);
      UnsentStep(events, i);
      FrontFits(Queued(events[..i]), Queued(events), bound);
      UnsentIsBounded(events[..i], bound);
    }
  }

  lemma FrontFits(before: seq<Packet>, now: seq<Packet>, bound: nat)
    requires AllSendable(now) && before <= now && FitIn(now, bound)
    ensures AllSendable(before) && FitIn(before, bound)
    ensures now != [] ==> |Encode(now[|now| - 1])| <= bound
  {
    forall k | 0 <= k < |before| ensures Sendable(before[k]) && |Encode(before[k])| <= bound {
      assert before[k] == now[k];
    }
  }

  /** After `m` of the last writes at most as many packets are unsent as there were, less `m`. */
  lemma {:induction false} LargeWritesDrain(events: seq<SendEvent>, m: nat)
    requires AllSendable(Queued(events)) && m <= |events|
    requires forall i :: |events| - m <= i < |events| ==> LargeWrite(events[i], Queued(events))
    ensures |Unsent(events)| <= (if |Queued(events)| <= m then 0 else |Queued(events)| - m)
    decreases m
  {
    hide Encode;
    if m == 0 {
      UnsentFewerThanQueued(events);
    } else {
      var i := |events| - 1;
      assert events[..i + 1] == events && LargeWrite(events[i], Queued(events));
      QueuedStep(events, i);
      UnsentStep(events, i);
      assert Queued(events[..i]) == Queued(events);
      LargeWritesDrain(events[..i], m - 1);
      UnsentIsBounded(events[..i], events[i].transfer);
    }
  }

  lemma {:induction false} UnsentFewerThanQueued(events: seq<SendEvent>)
    requires AllSendable(Queued(events))
    ensures |Unsent(events)| <= |Queued(events)|
    decreases |events|
  {
    hide Encode, Unsent, Queued;
    if events == [] {
      NothingUnsent(events);
      assert events[..0] == events;
    } else {
      var i := |events| - 1;
      assert events[..i + 1] == events;
      QueuedStep(events, i);
      UnsentStep(events, i);
      UnsentFewerThanQueued(events[..i]);
    }
  }

  lemma EnoughWritesDrain(events: seq<SendEvent>)
    requires AllSendable(Queued(events))
    ensures EnoughWrites(events) ==> Unsent(events) == []
  {
    hide Unsent, Encode;
    if EnoughWrites(events) { LargeWritesDrain(events, |Queued(events)|); }
  }

  lemma QueueExtends(queued: seq<Packet>, p: Packet)
    requires AllSendable(queued) && Sendable(p)
    ensures AllSendable(queued + [p]) && Stream(queued) <= Stream(queued + [p])
  {
    StreamAppend(queued, [p]);
  }

  lemma SentAll(sender: Sender, queued: seq<Packet>)
    requires sender.Valid(queued) && !sender.sending && sender.waiting == []
    ensures sender.wire == Stream(queued)
  {
    assert sender.wire + [] + [] == sender.wire;
  }

  // ---------------------------------------------------------------- the loops, step by step

  function Positions(packets: seq<RecvPacket>): seq<int> {
    seq(|packets|, i requires 0 <= i < |packets| => packets[i].pos)
  }

  /** `packets` have been parsed off the front of `all`, leaving `data`. */
  ghost predicate Parsed(all: seq<Byte>, packets: seq<Packet>, data: seq<Byte>) {
    packets + Packets(data) == Packets(all) && Rest(data) == Rest(all) && (Sane(data) <==> Sane(all))
  }

  lemma ParseNone(all: seq<Byte>)
    ensures Parsed(all, [], all)
  {
    assert [] + Packets(all) == Packets(all);
  }

  lemma ParseOne(all: seq<Byte>, packets: seq<Packet>, data: seq<Byte>)
    requires Parsed(all, packets, data) && Complete(data)
    ensures Parsed(all, packets + [FirstPacket(data)], data[FirstLength(data)..])
  {
    Associate(packets, [FirstPacket(data)], Packets(data[FirstLength(data)..]));
  }

  lemma ParseEnds(all: seq<Byte>, packets: seq<Packet>, data: seq<Byte>)
    requires Parsed(all, packets, data) && !Complete(data)
    ensures packets == Packets(all) && data == Rest(all) && (Sane(all) <==> !BadHeader(data))
  {
    assert packets + [] == packets;
  }

  /** `packets` have been delivered from `chunks`, leaving receiver `r` and the chunks `left`. */
  ghost predicate Received(chunks: seq<seq<Byte>>, packetSize: nat, packets: seq<Packet>,
                           r: Receiver, left: seq<seq<Byte>>)
  {
    && (SaneRun(r, left, packetSize) <==> SaneRun(NoBlock, chunks, packetSize))
    && Final(r, left, packetSize) == Final(NoBlock, chunks, packetSize)
    && packets + Delivered(r, left, packetSize) == Delivered(NoBlock, chunks, packetSize)
  }

  lemma ReceiveNone(chunks: seq<seq<Byte>>, packetSize: nat)
    ensures Received(chunks, packetSize, [], NoBlock, chunks)
  {
    assert [] + Delivered(NoBlock, chunks, packetSize) == Delivered(NoBlock, chunks, packetSize);
  }

  lemma ReceiveOne(chunks: seq<seq<Byte>>, packetSize: nat, packets: seq<Packet>, r: Receiver, left: seq<seq<Byte>>)
    requires Received(chunks, packetSize, packets, r, left) && left != []
    ensures var seen, next := Seen(r, left[0], packetSize), Receive(r, left[0], packetSize);
      && (Sane(seen) ==> Received(chunks, packetSize, packets + Packets(seen), next, left[1..]))
      && (!Sane(seen) ==> !SaneRun(NoBlock, chunks, packetSize))
      && packets + Packets(seen) <= Delivered(NoBlock, chunks, packetSize)
  {
    hide Seen, Receive, Packets, Sane;
    var seen, next := Seen(r, left[0], packetSize), Receive(r, left[0], packetSize);
    Associate(packets, Packets(seen), Delivered(next, left[1..], packetSize));
    assert Delivered(r, left, packetSize) == Packets(seen) + Delivered(next, left[1..], packetSize);
    IsPrefix(packets + Packets(seen), Delivered(next, left[1..], packetSize), Delivered(NoBlock, chunks, packetSize));
  }

  lemma IsPrefix<T>(front: seq<T>, back: seq<T>, all: seq<T>)
    requires front + back == all
    ensures front <= all
  {
  }

  lemma ReceiveEnds(chunks: seq<seq<Byte>>, packetSize: nat, packets: seq<Packet>, r: Receiver, left: seq<seq<Byte>>)
    requires Received(chunks, packetSize, packets, r, left) && left == []
    ensures SaneRun(NoBlock, chunks, packetSize)
    ensures r == Final(NoBlock, chunks, packetSize) && packets == Delivered(NoBlock, chunks, packetSize)
  {
    assert packets + [] == packets;
  }

  /** Only views of the current block share its buffer. */
  ghost predicate Apart(views: seq<RecvPacket>, block: DataBlock?) {
    forall k :: 0 <= k < |views| && block != null && views[k].block != block ==> views[k].block.buf != block.buf
  }

  /** Packet `p` can be read under the view in `bytes`, the front of its block. */
  ghost predicate SpelledBy(bytes: seq<Byte>, v: RecvPacket, p: Packet) {
    Sendable(p) && 0 <= v.pos <= v.End(p) <= |bytes| && bytes[v.pos..v.End(p)] == Encode(p)
  }

  lemma ViewSpells(v: RecvPacket, p: Packet)
    requires v.block.Valid() && v.Shows(p)
    ensures SpelledBy(v.block.buf[..][..v.block.tail][..v.block.head], v, p)
  {
    hide Encode;
    var bytes := v.block.buf[..];
    assert bytes[..v.block.tail][..v.block.head] == bytes[..v.block.head];
    assert bytes[..v.block.head][v.pos..v.End(p)] == bytes[v.pos..v.End(p)];
  }

  lemma ViewStays(block: DataBlock, was: seq<Byte>, head: nat, v: RecvPacket, p: Packet)
    requires v.block == block && head <= |was| && Undisturbed(block, head, was) && SpelledBy(was[..head], v, p)
    ensures v.Shows(p)
  {
    hide Encode;
    var bytes := block.buf[..];
    assert bytes[..|was|][..head] == bytes[..head];
    assert bytes[..head][v.pos..v.End(p)] == bytes[v.pos..v.End(p)];
  }
}
