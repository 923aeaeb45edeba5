module DataBlocks {
  import opened Bytes
  import opened Framing

  /** `DataBlock<Size>`: a fixed buffer of five packet sizes with a read and a write cursor. */
  class DataBlock {
    const packetSize: nat
    const buf: array<Byte>
    var head: int
    var tail: int

    function MaxSize(): nat { packetSize * 5 }

    ghost predicate Valid()
      reads this
    {
      buf.Length == MaxSize() && 0 <= head <= tail <= MaxSize()
    }

    /** The bytes between the cursors. */
    function Data(): (bytes: seq<Byte>)
      reads this, buf
      requires Valid()
      ensures |bytes| == tail - head
    {
      buf[head..tail]
    }

    function RemainSize(): int
      reads this
    {
      MaxSize() - tail
    }

    constructor (packetSize: nat)
      ensures Valid() && fresh(buf) && this.packetSize == packetSize && head == tail == 0
    {
      this.packetSize := packetSize;
      buf := new Byte[packetSize * 5](_ => 0);
      head, tail := 0, 0;
    }

    /**
     Only the upper end is checked; a length below zero moves the head back, and the cursors stay
     in order exactly while the head does not leave the buffer.
     */
    method Consume(size: int) returns (ok: bool)
      requires Valid()
      modifies this`head
      ensures ok <==> size <= old(tail - head)
      ensures head == if ok then old(head) + size else old(head)
      ensures Valid() <==> !ok || old(head) + size >= 0
    {
      if size > tail - head {
        return false;
      }
      head := head + size;
      return true;
    }

    method Update(size: nat) returns (ok: bool)
      requires Valid()
      modifies this`tail
      ensures Valid()
      ensures ok <==> old(tail) + size <= MaxSize()
      ensures tail == if ok then old(tail) + size else old(tail)
    {
      if tail + size > MaxSize() {
        return false;
      }
      tail := tail + size;
      return true;
    }
  }

  /** `memcpy`: the bytes from index `at` on; everything else stays. */
  method CopyBytes(to: array<Byte>, at: nat, bytes: seq<Byte>)
    requires at + |bytes| <= to.Length
    modifies to
    ensures to[..] == old(to[..at]) + bytes + old(to[at + |bytes|..])
  {
    ghost var was := to[..];
    for i := 0 to |bytes|
      invariant forall k :: 0 <= k < to.Length && !(at <= k < at + i) ==> to[k] == was[k]
      invariant forall k :: 0 <= k < i ==> to[at + k] == bytes[k]
    {
      to[at + i] := bytes[i];
    }
    assert forall k :: 0 <= k < to.Length ==> to[..][k] == (was[..at] + bytes + was[at + |bytes|..])[k];
  }

  lemma Copied(was: seq<Byte>, now: seq<Byte>, at: nat, bytes: seq<Byte>, head: nat)
    requires head <= at && at + |bytes| <= |was| && now == was[..at] + bytes + was[at + |bytes|..]
    ensures |now| == |was| && now[..at] == was[..at]
    ensures now[head..at + |bytes|] == was[head..at] + bytes
  {
  }

  /** The head has not gone back and the bytes there were are still there. */
  ghost predicate Undisturbed(block: DataBlock, head: int, bytes: seq<Byte>)
    reads block, block.buf
  {
    block.Valid() && head <= block.head && |bytes| <= block.tail && block.buf[..][..|bytes|] == bytes
  }

  /** `RecvPacket`: a view of a block, sharing its bytes. */
  datatype RecvPacket = RecvPacket(block: DataBlock, pos: int)
  {
    /** Where the view of packet `p` ends. */
    function End(p: Packet): int { pos + HEADER_SIZE + |p.body| }

    /** The bytes under the view are packet `p`. */
    ghost predicate Spells(p: Packet)
      reads block.buf
    {
      Sendable(p) && 0 <= pos <= End(p) <= block.buf.Length && block.buf[pos..End(p)] == Encode(p)
    }

    /** And they have been consumed, so nothing will be received over them. */
    ghost predicate Shows(p: Packet)
      reads block`head, block.buf
    {
      Spells(p) && End(p) <= block.head
    }
  }
}

module NetworkMessages {
  import opened Bytes
  import opened Framing
  import opened Receiving
  import opened DataBlocks

  /** `NetworkMessage<PacketType>`. */
  class NetworkMessage {
    const packetSize: nat
    var curBlock: DataBlock?

    ghost predicate Valid()
      reads this, curBlock
    {
      curBlock != null ==> curBlock.Valid() && curBlock.packetSize == packetSize
    }

    /** The state that matters: how full the block is and what in it is unread. */
    ghost function View(): Receiver
      reads this, curBlock, if curBlock == null then {} else {curBlock.buf}
      requires Valid()
    {
      if curBlock == null then NoBlock else Filling(curBlock.tail, curBlock.Data())
    }

    constructor (packetSize: nat)
      ensures Valid() && View() == NoBlock && this.packetSize == packetSize
    {
      this.packetSize := packetSize;
      curBlock := null;
    }

    /**
     Afterwards there is room for one packet size; the block is replaced exactly if it has less. A
     replaced block is left as it was; its unread bytes are copied to the front of the new one, whose
     cursors nevertheless stay at zero.
     */
    method GetBufInfo()
      requires Valid()
      modifies this`curBlock
      ensures Valid() && curBlock != null && curBlock.RemainSize() >= packetSize
      ensures View() == WithRoom(old(View()), packetSize)
      ensures curBlock == old(curBlock) || (fresh(curBlock) && fresh(curBlock.buf))
      ensures old(curBlock) != null ==> (curBlock == old(curBlock) <==> !NeedsNewBlock(old(View()), packetSize))
      ensures old(curBlock) != null && curBlock != old(curBlock) ==>
        curBlock.buf[..|old(View()).unread|] == old(View()).unread
    {
      if curBlock == null {
        var newBlock := new DataBlock(packetSize);
        curBlock := newBlock;
      } else if curBlock.RemainSize() < packetSize {
        var newBlock := new DataBlock(packetSize);
        CopyBytes(newBlock.buf, 0, curBlock.Data());
        curBlock := newBlock;
      }
    }

    /**
     The socket writes `bytes` behind the tail, and `Update` moves the tail over them: it never
     refuses. Nothing before the old tail changes.
     */
    method Fill(bytes: seq<Byte>)
      requires Valid() && curBlock != null && |bytes| <= packetSize <= curBlock.RemainSize()
      modifies curBlock`tail, curBlock.buf
      ensures Valid() && curBlock.head == old(curBlock.head) && curBlock.tail == old(curBlock.tail) + |bytes|
      ensures curBlock.buf[..][..old(curBlock.tail)] == old(curBlock.buf[..][..curBlock.tail])
      ensures curBlock.Data() == old(curBlock.Data()) + bytes
    {
      var block := curBlock;
      ghost var was, start := block.buf[..], block.tail;
      CopyBytes(block.buf, block.tail, bytes);
      Copied(was, block.buf[..], start, bytes, block.head);
      var ok := block.Update(|bytes|);
      assert block.Data() == block.buf[..][block.head..block.tail];
    }

    /** A header is there that no sender within the limits produces. */
    function AtBadHeader(): bool
      reads this, curBlock, if curBlock == null then {} else {curBlock.buf}
      requires Valid() && curBlock != null
    {
      BadHeader(curBlock.Data())
    }

    /**
     For every input: a packet is found when the two tests pass, and the head moves by the sum of the
     header's length field and the header size, as an `int`. It moves on by at least a header and
     within the data exactly if the length field is in 0 .. 2^31 - 9, and then the view handed out
     shows the packet at the front.
     */
    method GetNetMessage() returns (found: bool, packet: RecvPacket)
      requires Valid() && curBlock != null
      modifies curBlock`head
      ensures packet == RecvPacket(curBlock, old(curBlock.head))
      ensures found <==> Accepted(old(curBlock.Data()))
      ensures curBlock.head == old(curBlock.head) + if found then Total(old(curBlock.Data())) else 0
      ensures found ==>
        (old(curBlock.head) + HEADER_SIZE <= curBlock.head <= curBlock.tail
         <==> 0 <= SizeField(old(curBlock.Data())) <= 0x7FFF_FFF7)
      ensures !old(AtBadHeader()) ==> Valid() && (found <==> Complete(old(curBlock.Data())))
      ensures !old(AtBadHeader()) && found ==>
        && curBlock.Data() == old(curBlock.Data())[FirstLength(old(curBlock.Data()))..]
        && curBlock.head > old(curBlock.head)
        && packet.Shows(FirstPacket(old(curBlock.Data())))
    {
      packet := RecvPacket(curBlock, curBlock.head);
      ghost var data := curBlock.Data();
      if curBlock.tail - curBlock.head < HEADER_SIZE {
        return false, packet;
      }
      AcceptedMovesOnIffGood(data);
      var size := SizeField(curBlock.buf[curBlock.head..curBlock.tail]);
      var total := Wrap32(size + HEADER_SIZE);
      if curBlock.tail - curBlock.head < total {
        return false, packet;
      }
      var ok := curBlock.Consume(total);
      found := true;
      if Complete(data) {
        EncodeInvertsFirst(data);
        assert curBlock.buf[packet.pos..curBlock.head] == data[..FirstLength(data)];
      }
    }
  }
}
