/**
 `MemoryPool`: fixed-size blocks cut from chunks, the free ones linked through their own first eight
 bytes. Block sizes are multiples of eight, as every bucket size is.
 */
module MemoryPools {
  import opened Arithmetic
  import opened Bytes
  import opened ByteMemory

  const NULL: Address := 0
  const CHUNK_HEADER: nat := 16

  function First(list: seq<Address>): Address { if list == [] then NULL else list[0] }

  function Members(list: seq<Address>): set<Address> {
    if list == [] then {} else {list[0]} + Members(list[1..])
  }

  /** Following the links stored in the blocks spells `list` and ends in null. */
  ghost predicate Linked(memory: Memory, list: seq<Address>) {
    list == [] ||
    (&& list[0] != NULL && Mapped(memory, list[0], WORD) && list[0] !in Members(list[1..])
     && Load(memory, list[0]) == First(list[1..])
     && Linked(memory, list[1..]))
  }

  lemma {:induction false} LinkedSame(memory: Memory, after: Memory, list: seq<Address>)
    requires Linked(memory, list) && forall b :: b in Members(list) ==> Same(memory, after, b, WORD)
    ensures Linked(after, list)
  {
    if list != [] {
      LoadSame(memory, after, list[0]);
      LinkedSame(memory, after, list[1..]);
    }
  }

  lemma {:induction false} LinkedMapped(memory: Memory, list: seq<Address>)
    requires Linked(memory, list)
    ensures forall b :: b in Members(list) ==> Mapped(memory, b, WORD)
  {
    if list != [] { LinkedMapped(memory, list[1..]); }
  }

  /** A change of `n` bytes at `a` that no link overlaps leaves the list as it was. */
  lemma LinkedBeside(memory: Memory, after: Memory, list: seq<Address>, a: Address, n: nat)
    requires Linked(memory, list) && SameBeside(memory, after, a, n)
    requires forall b :: b in Members(list) ==> b + WORD <= a || a + n <= b
    ensures Linked(after, list)
  {
    LinkedMapped(memory, list);
    forall b | b in Members(list) ensures Same(memory, after, b, WORD) {
      assert forall k :: b <= k < b + WORD ==> k in memory;
    }
    LinkedSame(memory, after, list);
  }

  /** A block in front of the list, holding a link to what was first. */
  lemma LinkFront(memory: Memory, list: seq<Address>, a: Address)
    requires Linked(memory, list) && a != NULL && First(list) < ADDRESSES
    requires forall b :: b in Members(list) ==> b + WORD <= a || a + WORD <= b
    ensures Linked(Store(memory, a, First(list)), [a] + list)
  {
    StoreLoad(memory, a, First(list));
    LinkedBeside(memory, Store(memory, a, First(list)), list, a, WORD);
    assert ([a] + list)[1..] == list;
  }

  // ---------------------------------------------------------------- where blocks lie

  /** Block `k` of the chunk at `base`. */
  function Block(base: Address, k: nat, size: nat): Address { base + k * size }

  /** The first `n` blocks, highest first: the order in which `Alloc` threads them. */
  function Threaded(base: Address, n: nat, size: nat): (list: seq<Address>)
    ensures |list| == n
  {
    if n == 0 then [] else [Block(base, n - 1, size)] + Threaded(base, n - 1, size)
  }

  lemma {:induction false} ThreadedMembers(base: Address, n: nat, size: nat, a: Address)
    requires size > 0
    ensures a in Members(Threaded(base, n, size)) <==> exists k :: 0 <= k < n && a == Block(base, k, size)
  {
    if n > 0 {
      ThreadedMembers(base, n - 1, size, a);
      assert Threaded(base, n, size)[1..] == Threaded(base, n - 1, size);
    }
  }

  lemma BlocksApart(base: Address, j: nat, k: nat, size: nat)
    requires j < k
    ensures Block(base, j, size) + size <= Block(base, k, size)
  {
    assert (j + 1) * size <= k * size;
  }

  /** All blocks of a number of chunks, or all bytes of a number of blocks. */
  function Capacity(count: nat, chunks: nat): nat { count * chunks }

  lemma OneMoreChunk(count: nat, chunks: nat)
    ensures Capacity(count, 0) == 0 && Capacity(count, chunks + 1) == Capacity(count, chunks) + count
  {
  }

  function CeilDiv(a: nat, b: nat): nat
    requires b > 0
  {
    (a + b - 1) / b
  }

  ghost predicate Apart(a: Address, b: Address, size: nat) { a + size <= b || b + size <= a }

  /** The block has one of the places of the chunk at `base`. */
  ghost predicate Placed(b: Address, base: Address, size: nat, count: nat) {
    exists k :: 0 <= k < count && b == Block(base, k, size)
  }

  ghost predicate InSomeChunk(b: Address, chunks: seq<Address>, size: nat, count: nat) {
    exists i :: 0 <= i < |chunks| && Placed(b, chunks[i], size, count)
  }

  /** Aligned to eight and inside the address space. */
  ghost predicate Addressable(b: Address, size: nat) { b != NULL && b % WORD == 0 && b + size <= ADDRESSES }

  /** `blocks` are aligned places in chunks, and no two overlap. */
  ghost predicate Laid(blocks: set<Address>, chunks: seq<Address>, size: nat, count: nat) {
    && (forall b :: b in blocks ==> Addressable(b, size))
    && (forall b :: b in blocks ==> InSomeChunk(b, chunks, size, count))
    && (forall a, b :: a in blocks && b in blocks && a != b ==> Apart(a, b, size))
  }

  /** Memory that `malloc` may return: aligned, inside the address space and apart from every chunk. */
  ghost predicate Mallocable(c: Address, chunks: seq<Address>, bytes: nat) {
    && c != NULL && c % 16 == 0 && c + CHUNK_HEADER + bytes <= ADDRESSES
    && (forall i :: 0 <= i < |chunks| ==> c + CHUNK_HEADER + bytes <= chunks[i] || chunks[i] + bytes <= c)
  }

  lemma PlacedInBounds(b: Address, base: Address, size: nat, count: nat)
    requires Placed(b, base, size, count)
    ensures base <= b && b + size <= base + Capacity(size, count)
  {
    var k :| 0 <= k < count && b == Block(base, k, size);
    assert (k + 1) * size <= Capacity(size, count);
  }

  lemma PlacedAligned(b: Address, base: Address, size: nat, count: nat)
    requires Placed(b, base, size, count) && base % WORD == 0 && size % WORD == 0
    ensures b % WORD == 0
  {
    var k :| 0 <= k < count && b == Block(base, k, size);
    var m := size / WORD;
    assert size == WORD * m;
    TimesWord(k, m);
    SumOfWords(base / WORD, k * m);
  }

  lemma TimesWord(k: nat, m: nat)
    ensures k * (WORD * m) == WORD * (k * m)
  {
  }

  lemma SumOfWords(x: nat, y: nat)
    ensures (WORD * x + WORD * y) % WORD == 0
  {
    assert WORD * x + WORD * y == WORD * (x + y);
  }

  lemma AfterHeader(c: Address)
    requires c % 16 == 0
    ensures (c + CHUNK_HEADER) % WORD == 0
  {
  }

  lemma PlacedApart(a: Address, b: Address, base: Address, size: nat, count: nat)
    requires Placed(a, base, size, count) && Placed(b, base, size, count) && a != b
    ensures Apart(a, b, size)
  {
    var j :| 0 <= j < count && a == Block(base, j, size);
    var k :| 0 <= k < count && b == Block(base, k, size);
    if j < k { BlocksApart(base, j, k, size); } else { BlocksApart(base, k, j, size); }
  }

  /** The blocks of a chunk lie where `malloc` promised them, clear of every block there was. */
  lemma NewBlock(b: Address, chunks: seq<Address>, c: Address, size: nat, count: nat)
    requires size % WORD == 0 && Mallocable(c, chunks, Capacity(size, count))
    requires Placed(b, c + CHUNK_HEADER, size, count)
    ensures Addressable(b, size)
  {
    hide Placed, Capacity;
    AfterHeader(c);
    PlacedInBounds(b, c + CHUNK_HEADER, size, count);
    PlacedAligned(b, c + CHUNK_HEADER, size, count);
  }

  lemma OldBlockClear(b: Address, chunks: seq<Address>, c: Address, size: nat, count: nat)
    requires Mallocable(c, chunks, Capacity(size, count)) && InSomeChunk(b, chunks, size, count)
    ensures b + size <= c + CHUNK_HEADER || c + CHUNK_HEADER + Capacity(size, count) <= b
  {
    var i :| 0 <= i < |chunks| && Placed(b, chunks[i], size, count);
    PlacedInBounds(b, chunks[i], size, count);
  }

  lemma StillInChunk(b: Address, chunks: seq<Address>, base: Address, size: nat, count: nat)
    requires InSomeChunk(b, chunks, size, count) || Placed(b, base, size, count)
    ensures InSomeChunk(b, chunks + [base], size, count)
  {
    var after := chunks + [base];
    if Placed(b, base, size, count) {
      assert Placed(b, after[|chunks|], size, count);
    } else {
      var i :| 0 <= i < |chunks| && Placed(b, chunks[i], size, count);
      assert Placed(b, after[i], size, count);
    }
  }

  lemma LayOne(a: Address, b: Address, blocks: set<Address>, chunks: seq<Address>, c: Address, size: nat, count: nat)
    requires Laid(blocks, chunks, size, count) && Mallocable(c, chunks, Capacity(size, count)) && a != b
    requires a in blocks || Placed(a, c + CHUNK_HEADER, size, count)
    requires b in blocks || Placed(b, c + CHUNK_HEADER, size, count)
    ensures Apart(a, b, size)
  {
    var base := c + CHUNK_HEADER;
    if a !in blocks { PlacedInBounds(a, base, size, count); } else { OldBlockClear(a, chunks, c, size, count); }
    if b !in blocks { PlacedInBounds(b, base, size, count); } else { OldBlockClear(b, chunks, c, size, count); }
    if a !in blocks && b !in blocks { PlacedApart(a, b, base, size, count); }
  }

  /** No place of a new chunk was a block. */
  lemma NewIsNotOld(b: Address, blocks: set<Address>, chunks: seq<Address>, c: Address, size: nat, count: nat)
    requires size > 0 && Laid(blocks, chunks, size, count) && Mallocable(c, chunks, Capacity(size, count))
    requires Placed(b, c + CHUNK_HEADER, size, count)
    ensures b !in blocks
  {
    PlacedInBounds(b, c + CHUNK_HEADER, size, count);
    if b in blocks { OldBlockClear(b, chunks, c, size, count); }
  }

  lemma ThreadedArePlaced(base: Address, count: nat, size: nat)
    requires size > 0
    ensures forall b :: b in Members(Threaded(base, count, size)) ==> Placed(b, base, size, count)
  {
    forall b | b in Members(Threaded(base, count, size)) ensures Placed(b, base, size, count) {
      ThreadedMembers(base, count, size, b);
    }
  }

  /** A new chunk's blocks can be added to those there are. */
  lemma LayChunk(blocks: set<Address>, chunks: seq<Address>, c: Address, size: nat, count: nat)
    requires size > 0 && size % WORD == 0
    requires Laid(blocks, chunks, size, count) && Mallocable(c, chunks, Capacity(size, count))
    ensures var list := Threaded(c + CHUNK_HEADER, count, size);
      Laid(Members(list) + blocks, chunks + [c + CHUNK_HEADER], size, count) && Members(list) !! blocks
  {
    hide Threaded, Members, Placed, Mallocable, InSomeChunk, Apart, Addressable;
    var base := c + CHUNK_HEADER;
    var list := Threaded(base, count, size);
    ThreadedArePlaced(base, count, size);
    forall b | b in Members(list) ensures b !in blocks && Addressable(b, size) {
      NewIsNotOld(b, blocks, chunks, c, size, count);
      NewBlock(b, chunks, c, size, count);
    }
    forall b | b in Members(list) + blocks ensures InSomeChunk(b, chunks + [base], size, count) {
      StillInChunk(b, chunks, base, size, count);
    }
    forall a, b | a in Members(list) + blocks && b in Members(list) + blocks && a != b ensures Apart(a, b, size) {
      LayOne(a, b, blocks, chunks, c, size, count);
    }
  }

  /** `n` bytes somewhere inside block `b` touch no other block. */
  lemma InsideOneBlock(blocks: set<Address>, chunks: seq<Address>, size: nat, count: nat,
                       b: Address, offset: nat, n: nat)
    requires Laid(blocks, chunks, size, count) && b in blocks && offset + n <= size
    ensures forall a :: a in blocks && a != b ==> a + size <= b + offset || b + offset + n <= a
  {
    forall a | a in blocks && a != b ensures a + size <= b + offset || b + offset + n <= a {
      assert Apart(a, b, size);
    }
  }

  lemma BlockStands(blocks: set<Address>, chunks: seq<Address>, size: nat, count: nat, b: Address)
    requires Laid(blocks, chunks, size, count) && b in blocks
    ensures InSomeChunk(b, chunks, size, count) && Addressable(b, size)
    ensures forall a :: a in blocks && a != b ==> Apart(a, b, size)
  {
  }

  /** Moving one block between the list and the blocks in use. */
  lemma Give(free: seq<Address>, outstanding: set<Address>, b: Address)
    requires b in outstanding && Members(free) !! outstanding
    ensures Members([b] + free) !! outstanding - {b}
    ensures Members([b] + free) + (outstanding - {b}) == Members(free) + outstanding
    ensures |outstanding - {b}| == |outstanding| - 1
  {
    assert ([b] + free)[1..] == free;
  }

  lemma Take(free: seq<Address>, outstanding: set<Address>)
    requires free != [] && free[0] !in Members(free[1..]) && Members(free) !! outstanding
    ensures Members(free[1..]) !! outstanding + {free[0]}
    ensures Members(free[1..]) + (outstanding + {free[0]}) == Members(free) + outstanding
    ensures |outstanding + {free[0]}| == |outstanding| + 1
    ensures free[0] !in outstanding && free[0] in Members(free) + outstanding
  {
  }

  // ---------------------------------------------------------------- the pool as a value

  /** `outstanding` are the blocks in use, `used` how many there were after each call so far. */
  datatype Pool = Pool(
    size: nat,
    count: nat,
    memory: Memory,
    head: Address,
    chunks: seq<Address>,
    free: seq<Address>,
    outstanding: set<Address>,
    used: seq<nat>)
  {
    /** The most blocks ever in use at once. */
    function Peak(): nat { MaxOf(used) }

    function Blocks(): set<Address> { Members(free) + outstanding }

    /** The free list is threaded through memory; it and the blocks in use share out all blocks. */
    ghost predicate Shape() {
      && size >= WORD && size % WORD == 0 && count >= 1
      && head == First(free) && Linked(memory, free)
      && Members(free) !! outstanding
      && Laid(Blocks(), chunks, size, count)
      && |free| + |outstanding| == Capacity(count, |chunks|)
      && |outstanding| <= Peak() <= Capacity(count, |chunks|)
    }

    /** And the last chunk was needed for the peak. */
    ghost predicate Valid() {
      Shape() && (chunks != [] ==> Capacity(count, |chunks| - 1) < Peak())
    }
  }

  function Empty(size: nat, count: nat, memory: Memory): Pool {
    Pool(size, count, memory, NULL, [], [], {}, [])
  }

  /** Bytes of blocks in one of its chunks. */
  function ChunkBytes(p: Pool): nat { Capacity(p.size, p.count) }

  ghost predicate CanGrow(p: Pool, c: Address) { Mallocable(c, p.chunks, Capacity(p.size, p.count)) }

  /** No byte of the blocks has changed. */
  ghost predicate Untouched(memory: Memory, after: Memory, blocks: set<Address>, size: nat) {
    forall b, k :: b in blocks && b <= k < b + size && k in memory ==> k in after && after[k] == memory[k]
  }

  /** After `Release(b)`. */
  function Released(p: Pool, b: Address): Pool {
    var outstanding := p.outstanding - {b};
    p.(memory := Store(p.memory, b, p.head), head := b, free := [b] + p.free, outstanding := outstanding,
       used := p.used + [|outstanding|])
  }

  /** After the front block has been handed out. */
  function HandedOut(p: Pool): Pool
    requires p.free != [] && Mapped(p.memory, p.head, WORD)
  {
    var outstanding := p.outstanding + {p.head};
    p.(head := Load(p.memory, p.head), free := p.free[1..], outstanding := outstanding,
       used := p.used + [|outstanding|])
  }

  function MaxOf(s: seq<nat>): nat {
    if s == [] then 0 else
      var last, before := s[|s| - 1], MaxOf(s[..|s| - 1]);
      if last > before then last else before
  }

  lemma MaxOneMore(s: seq<nat>, x: nat)
    ensures MaxOf(s + [x]) == if x > MaxOf(s) then x else MaxOf(s)
  {
    assert (s + [x])[..|s|] == s;
  }

  lemma {:induction false} MaxIsGreatest(s: seq<nat>)
    ensures forall i :: 0 <= i < |s| ==> s[i] <= MaxOf(s)
    ensures s != [] ==> MaxOf(s) in s
  {
    if s != [] {
      MaxIsGreatest(s[..|s| - 1]);
      assert s == s[..|s| - 1] + [s[|s| - 1]];
    }
  }

  lemma EmptyValid(size: nat, count: nat, memory: Memory)
    requires size >= WORD && size % WORD == 0 && count >= 1
    ensures Empty(size, count, memory).Valid()
  {
    OneMoreChunk(count, 0);
    assert Empty(size, count, memory).Blocks() == {};
  }

  lemma FirstIsAddress(free: seq<Address>, outstanding: set<Address>, chunks: seq<Address>, size: nat, count: nat)
    requires Laid(Members(free) + outstanding, chunks, size, count) && size > 0
    ensures First(free) < ADDRESSES
  {
    if free != [] { assert free[0] in Members(free) + outstanding; }
  }

  lemma ReleaseLinks(p: Pool, b: Address)
    requires p.Valid() && b in p.outstanding
    ensures Linked(Released(p, b).memory, [b] + p.free) && b != NULL
    ensures Untouched(p.memory, Released(p, b).memory, p.outstanding - {b}, p.size)
  {
    hide Laid, Capacity, Load, Store, Linked;
    InsideOneBlock(p.Blocks(), p.chunks, p.size, p.count, b, 0, WORD);
    BlockStands(p.Blocks(), p.chunks, p.size, p.count, b);
    FirstIsAddress(p.free, p.outstanding, p.chunks, p.size, p.count);
    LinkFront(p.memory, p.free, b);
    StoreLoad(p.memory, b, p.head);
  }

  /** A block in use can be linked in front; the bytes of the other blocks in use stay. */
  lemma ReleaseValid(p: Pool, b: Address)
    requires p.Valid() && b in p.outstanding
    ensures Released(p, b).Valid() && Released(p, b).Blocks() == p.Blocks()
    ensures Untouched(p.memory, Released(p, b).memory, p.outstanding - {b}, p.size)
  {
    hide Laid, Capacity, Load, Store, Linked, Untouched, MaxOf;
    ReleaseLinks(p, b);
    MaxOneMore(p.used, |p.outstanding - {b}|);
    Give(p.free, p.outstanding, b);
  }

  /** `Alloc`: with the list empty, a chunk at `c` whose blocks `memory` links becomes the list. */
  lemma GrownShape(p: Pool, c: Address, memory: Memory)
    requires p.Valid() && p.head == NULL && CanGrow(p, c)
    requires Linked(memory, Threaded(c + CHUNK_HEADER, p.count, p.size))
    ensures var list := Threaded(c + CHUNK_HEADER, p.count, p.size);
      p.(memory := memory, head := First(list), free := list, chunks := p.chunks + [c + CHUNK_HEADER]).Shape()
    ensures |p.outstanding| == p.Peak() == Capacity(p.count, |p.chunks|)
  {
    hide Laid, Mallocable, Capacity;
    NullMeansEmpty(p);
    assert p.free == [] && p.Blocks() == p.outstanding;
    LayChunk(p.outstanding, p.chunks, c, p.size, p.count);
    OneMoreChunk(p.count, |p.chunks|);
  }

  /**
   What is handed out was not in use, is an aligned place in a chunk, and overlaps no block in use.
   The pool stays valid if it was, or if it has just grown with all earlier blocks in use.
   */
  lemma HandOutValid(p: Pool)
    requires p.Shape() && p.free != []
    requires p.Valid() || |p.outstanding| == p.Peak() == Capacity(p.count, |p.chunks| - 1)
    ensures Mapped(p.memory, p.head, WORD) && HandedOut(p).Valid() && HandedOut(p).Blocks() == p.Blocks()
    ensures p.head !in p.outstanding && p.head % WORD == 0
    ensures InSomeChunk(p.head, p.chunks, p.size, p.count)
    ensures forall a :: a in p.outstanding ==> Apart(a, p.head, p.size)
  {
    hide Linked, Capacity, Laid, InSomeChunk;
    FirstIsBlock(p);
    HandOutShape(p);
    BlockStands(p.Blocks(), p.chunks, p.size, p.count, p.head);
  }

  lemma FirstIsBlock(p: Pool)
    requires p.Shape() && p.free != []
    ensures p.head == p.free[0] && p.head in p.Blocks()
  {
  }

  lemma HandOutShape(p: Pool)
    requires p.Shape() && p.free != []
    requires p.Valid() || |p.outstanding| == p.Peak() == Capacity(p.count, |p.chunks| - 1)
    ensures Mapped(p.memory, p.head, WORD) && HandedOut(p).Valid() && HandedOut(p).Blocks() == p.Blocks()
    ensures p.head !in p.outstanding
  {
    hide Laid, Capacity, Load, Mapped;
    MaxOneMore(p.used, |p.outstanding + {p.head}|);
    Take(p.free, p.outstanding);
    var r := HandedOut(p);
    assert r.head == First(r.free) && Linked(r.memory, r.free);
    assert r.Blocks() == p.Blocks();
    assert |r.free| + |r.outstanding| == Capacity(r.count, |r.chunks|);
  }

  /** Whatever byte the user writes inside a block in use, the pool and the other blocks stay intact. */
  lemma UserWriteValid(p: Pool, b: Address, offset: nat, byte: Byte)
    requires p.Valid() && b in p.outstanding && offset < p.size
    ensures p.(memory := p.memory[b + offset := byte]).Valid()
    ensures Untouched(p.memory, p.memory[b + offset := byte], p.outstanding - {b}, p.size)
  {
    hide Laid, Capacity, Linked, Load;
    InsideOneBlock(p.Blocks(), p.chunks, p.size, p.count, b, offset, 1);
    LinkedBeside(p.memory, p.memory[b + offset := byte], p.free, b + offset, 1);
  }

  /** Every block, listed or in use, is aligned, and its link, if it holds one, lies inside it. */
  lemma BlocksAreAligned(p: Pool)
    requires p.Valid()
    ensures forall b :: b in p.Blocks() ==> b % WORD == 0 && b + WORD <= b + p.size <= ADDRESSES
  {
    forall b | b in p.Blocks() ensures b % WORD == 0 && b + WORD <= b + p.size <= ADDRESSES {
      BlockStands(p.Blocks(), p.chunks, p.size, p.count, b);
    }
  }

  /** Nothing leaks, and the pool grows no further than the most blocks ever in use at once. */
  lemma ChunksMatchPeak(p: Pool)
    requires p.Valid()
    ensures |p.chunks| == CeilDiv(p.Peak(), p.count)
    ensures (forall i :: 0 <= i < |p.used| ==> p.used[i] <= p.Peak()) && (p.used != [] ==> p.Peak() in p.used)
    ensures |p.free| + |p.outstanding| == p.count * |p.chunks|
  {
    hide Laid, Linked;
    MaxIsGreatest(p.used);
    if p.chunks != [] {
      CeilIs(p.Peak(), p.count, |p.chunks|);
    } else {
      OneMoreChunk(p.count, 0);
      CeilIs0(p.count);
    }
  }

  lemma NullMeansEmpty(p: Pool)
    requires p.Shape()
    ensures p.head == NULL <==> p.free == []
    ensures p.size >= WORD && p.size % WORD == 0 && p.count >= 1
  {
  }

  lemma ValidIsShape(p: Pool)
    requires p.Valid()
    ensures p.Shape()
  {
  }

  lemma CeilIs0(b: nat)
    requires b > 0
    ensures CeilDiv(0, b) == 0
  {
  }

  lemma CeilIs(a: nat, b: nat, n: nat)
    requires b > 0 && n > 0 && b * (n - 1) < a <= b * n
    ensures CeilDiv(a, b) == n
  {
    var x := a + b - 1;
    assert b * n == b * (n - 1) + b;
    assert x == b * (x / b) + x % b;
    assert b * (x / b - n) == x - x % b - b * n;
    Multiple(b, x / b - n);
  }

  // ---------------------------------------------------------------- pools that share memory

  predicate InChunks(k: Address, chunks: seq<Address>, bytes: nat) {
    exists i :: 0 <= i < |chunks| && chunks[i] <= k < chunks[i] + bytes
  }

  /** Nothing outside the chunks has changed. */
  ghost predicate Local(memory: Memory, after: Memory, chunks: seq<Address>, bytes: nat) {
    forall k: Address :: !InChunks(k, chunks, bytes) ==>
      (k in after <==> k in memory) && (k in memory ==> after[k] == memory[k])
  }

  lemma LocalIfInside(memory: Memory, after: Memory, chunks: seq<Address>, bytes: nat, i: nat, a: Address, n: nat)
    requires SameBeside(memory, after, a, n)
    requires i < |chunks| && chunks[i] <= a && a + n <= chunks[i] + bytes
    ensures Local(memory, after, chunks, bytes)
  {
  }

  lemma LocalToBlock(p: Pool, after: Memory, b: Address, offset: nat, n: nat)
    requires p.Valid() && b in p.Blocks() && offset + n <= p.size
    requires SameBeside(p.memory, after, b + offset, n)
    ensures Local(p.memory, after, p.chunks, ChunkBytes(p))
  {
    BlockStands(p.Blocks(), p.chunks, p.size, p.count, b);
    var i :| 0 <= i < |p.chunks| && Placed(b, p.chunks[i], p.size, p.count);
    PlacedInBounds(b, p.chunks[i], p.size, p.count);
    LocalIfInside(p.memory, after, p.chunks, ChunkBytes(p), i, b + offset, n);
  }

  /** No chunk of the one overlaps a chunk of the other. */
  ghost predicate PoolsApart(p: Pool, q: Pool) {
    forall i, j :: 0 <= i < |p.chunks| && 0 <= j < |q.chunks| ==>
      p.chunks[i] + ChunkBytes(p) <= q.chunks[j] || q.chunks[j] + ChunkBytes(q) <= p.chunks[i]
  }

  /** A chunk of `bytes` at `c`, its header in front, overlaps no chunk of `q`. */
  ghost predicate ClearOf(c: Address, bytes: nat, q: Pool) {
    forall j :: 0 <= j < |q.chunks| ==>
      c + CHUNK_HEADER + bytes <= q.chunks[j] || q.chunks[j] + ChunkBytes(q) <= c
  }

  lemma BlockInChunks(p: Pool, b: Address)
    requires p.Valid() && b in p.Blocks()
    ensures forall k :: b <= k < b + p.size ==> InChunks(k, p.chunks, ChunkBytes(p))
  {
    BlockStands(p.Blocks(), p.chunks, p.size, p.count, b);
    var i :| 0 <= i < |p.chunks| && Placed(b, p.chunks[i], p.size, p.count);
    PlacedInBounds(b, p.chunks[i], p.size, p.count);
  }

  lemma ForeignBytes(p: Pool, q: Pool, k: Address)
    requires PoolsApart(p, q) && InChunks(k, q.chunks, ChunkBytes(q))
    ensures !InChunks(k, p.chunks, ChunkBytes(p))
  {
    hide ChunkBytes;
  }

  /** What one pool does inside its chunks changes no byte of another's blocks. */
  lemma OtherBytesStay(q: Pool, after: Memory, p: Pool, b: Address)
    requires q.Valid() && PoolsApart(p, q) && Local(q.memory, after, p.chunks, ChunkBytes(p)) && b in q.Blocks()
    ensures forall k :: b <= k < b + q.size ==>
      (k in after <==> k in q.memory) && (k in q.memory ==> after[k] == q.memory[k])
  {
    hide Pool.Valid, PoolsApart, ChunkBytes, InChunks;
    BlockInChunks(q, b);
    forall k | b <= k < b + q.size ensures !InChunks(k, p.chunks, ChunkBytes(p)) {
      ForeignBytes(p, q, k);
    }
  }

  lemma NewMemoryValid(q: Pool, after: Memory)
    requires q.Valid() && Linked(after, q.free)
    ensures q.(memory := after).Valid()
  {
    hide Laid, Linked, Capacity;
  }

  lemma FreeIsMapped(q: Pool)
    requires q.Valid()
    ensures Linked(q.memory, q.free) && q.size >= WORD
    ensures forall b :: b in Members(q.free) ==> b in q.Blocks() && Mapped(q.memory, b, WORD)
  {
    LinkedMapped(q.memory, q.free);
  }

  /** So another pool stays as it was. */
  lemma OtherPoolStays(q: Pool, after: Memory, p: Pool)
    requires q.Valid() && PoolsApart(p, q) && Local(q.memory, after, p.chunks, ChunkBytes(p))
    ensures q.(memory := after).Valid() && Untouched(q.memory, after, q.outstanding, q.size)
  {
    hide Pool.Valid, PoolsApart, ChunkBytes, Local, Linked;
    FreeIsMapped(q);
    forall b | b in q.Blocks()
      ensures forall k :: b <= k < b + q.size ==>
        (k in after <==> k in q.memory) && (k in q.memory ==> after[k] == q.memory[k])
    {
      OtherBytesStay(q, after, p, b);
    }
    forall b | b in Members(q.free) ensures Same(q.memory, after, b, WORD) {
      assert b in q.Blocks();
    }
    LinkedSame(q.memory, after, q.free);
    NewMemoryValid(q, after);
    assert forall b :: b in q.outstanding ==> b in q.Blocks();
  }

  lemma BlockBounds(p: Pool, a: Address) returns (i: nat)
    requires p.Valid() && a in p.Blocks()
    ensures i < |p.chunks| && p.chunks[i] <= a && a + p.size <= p.chunks[i] + ChunkBytes(p)
  {
    BlockStands(p.Blocks(), p.chunks, p.size, p.count, a);
    i :| 0 <= i < |p.chunks| && Placed(a, p.chunks[i], p.size, p.count);
    PlacedInBounds(a, p.chunks[i], p.size, p.count);
  }

  /** Blocks of pools whose chunks are apart do not overlap. */
  lemma BlocksOfPoolsApart(p: Pool, q: Pool, a: Address, b: Address)
    requires p.Valid() && q.Valid() && PoolsApart(p, q) && a in p.Blocks() && b in q.Blocks()
    ensures a + p.size <= b || b + q.size <= a
  {
    hide Pool.Valid, ChunkBytes;
    var i := BlockBounds(p, a);
    var j := BlockBounds(q, b);
  }

  /** The memory that the pools of one thread share. */
  class Heap {
    var memory: Memory

    constructor ()
      ensures memory == map[]
    {
      memory := map[];
    }
  }

  // ---------------------------------------------------------------- the pool itself

  class MemoryPool {
    const SIZE: nat
    const COUNT: nat
    const heap: Heap
    var chunks: seq<Address>
    var head: Address

    ghost var free: seq<Address>
    ghost var outstanding: set<Address>
    ghost var used: seq<nat>

    ghost function View(): Pool
      reads this, heap
    {
      Pool(SIZE, COUNT, heap.memory, head, chunks, free, outstanding, used)
    }

    constructor (size: nat, count: nat, heap: Heap)
      requires size >= WORD && size % WORD == 0 && count >= 1
      ensures View() == Empty(size, count, heap.memory) && View().Valid() && this.heap == heap
    {
      SIZE, COUNT, this.heap := size, count, heap;
      chunks, head := [], NULL;
      free, outstanding, used := [], {}, [];
      new;
      EmptyValid(size, count, heap.memory);
    }

    /** The loop of `Alloc`: every block of the chunk points to the one below it. */
    method LinkBlocks(base: Address)
      requires SIZE >= WORD && COUNT >= 1 && base != NULL && base + Capacity(SIZE, COUNT) <= ADDRESSES
      requires Mapped(heap.memory, base, WORD) && Load(heap.memory, base) == NULL
      modifies heap`memory, `head
      ensures Linked(heap.memory, Threaded(base, COUNT, SIZE)) && head == First(Threaded(base, COUNT, SIZE))
      ensures SameBeside(old(heap.memory), heap.memory, base, Capacity(SIZE, COUNT))
    {
      hide Load, Store, Linked, Threaded, Block, Capacity, Members, Mapped;
      head := base;
      var previous := head;
      var count := 1;
      OneBlock(heap.memory, base, SIZE);
      BlockInside(base, 0, SIZE, COUNT);
      ghost var list := [base];
      while count < COUNT
        invariant 1 <= count <= COUNT
        invariant head == previous == Block(base, count - 1, SIZE) && First(list) == head
        invariant list == Threaded(base, count, SIZE) && Linked(heap.memory, list)
        invariant SameBeside(old(heap.memory), heap.memory, base, Capacity(SIZE, COUNT))
      {
        head := head + SIZE;
        BlockInside(base, count - 1, SIZE, COUNT);
        BlockInside(base, count, SIZE, COUNT);
        NextBlock(base, count, SIZE);
        LinkFront(heap.memory, list, head);
        StoreLoad(heap.memory, head, previous);
        heap.memory := Store(heap.memory, head, previous);
        list := [head] + list;
        previous := head;
        count := count + 1;
      }
    }

    /** A new chunk at `c`, cleared and threaded into a list of `COUNT` blocks. */
    method Alloc(c: Address)
      requires View().Valid() && head == NULL && CanGrow(View(), c)
      modifies heap`memory, `head, `free, `chunks
      ensures View().Shape() && |outstanding| == View().Peak() == Capacity(COUNT, old(|chunks|))
      ensures chunks == old(chunks) + [c + CHUNK_HEADER]
      ensures free == Threaded(c + CHUNK_HEADER, COUNT, SIZE)
      ensures Untouched(old(heap.memory), heap.memory, outstanding, SIZE)
      ensures SameBeside(old(heap.memory), heap.memory, c + CHUNK_HEADER, Capacity(SIZE, COUNT))
    {
      hide Pool.Shape, Pool.Valid, Linked, Capacity, Threaded, Load, Cleared, Mallocable;
      ValidIsShape(View());
      NullMeansEmpty(View());
      ghost var before := View();
      var base := c + CHUNK_HEADER;
      ChunkInside(before, c);
      heap.memory := Cleared(heap.memory, base, Capacity(SIZE, COUNT));
      FreshChunk(before.memory, base, Capacity(SIZE, COUNT));
      chunks := chunks + [base];
      LinkBlocks(base);
      free := Threaded(base, COUNT, SIZE);
      GrownShape(before, c, heap.memory);
      ChunkTouchesNone(before, c, heap.memory);
    }

    /** The front block leaves the list. */
    method TakeFront() returns (block: Address)
      requires View().Shape() && free != []
      requires View().Valid() || |outstanding| == View().Peak() == Capacity(COUNT, |chunks| - 1)
      modifies `head, `free, `outstanding, `used
      ensures block == old(head) && Mapped(heap.memory, old(head), WORD)
      ensures View() == HandedOut(old(View())) && View().Valid()
    {
      hide Pool.Shape, Pool.Valid, Capacity, Load, Mapped;
      HandOutShape(View());
      block := head;
      head := Load(heap.memory, head);
      free := free[1..];
      outstanding := outstanding + {block};
      used := used + [|outstanding|];
    }

    /**
     `c` is what `malloc` answers if it is asked. The block was not in use, is aligned, overlaps no
     block in use, and not a byte of those changes, nor any outside the chunks.
     */
    method Get(c: Address) returns (block: Address)
      requires View().Valid() && CanGrow(View(), c)
      modifies heap`memory, `chunks, `head, `free, `outstanding, `used
      ensures View().Valid() && block !in old(outstanding) && outstanding == old(outstanding) + {block}
      ensures used == old(used) + [|outstanding|]
      ensures block % WORD == 0 && InSomeChunk(block, chunks, SIZE, COUNT)
      ensures forall a :: a in old(outstanding) ==> Apart(a, block, SIZE)
      ensures Untouched(old(heap.memory), heap.memory, old(outstanding), SIZE)
      ensures Local(old(heap.memory), heap.memory, chunks, ChunkBytes(View()))
      ensures chunks == if old(free) == [] then old(chunks) + [c + CHUNK_HEADER] else old(chunks)
      ensures [block] + free == if old(free) == [] then Threaded(c + CHUNK_HEADER, COUNT, SIZE) else old(free)
    {
      hide Pool.Shape, Pool.Valid, InSomeChunk, Apart, Linked, Capacity, CanGrow, Threaded, Load, Mapped;
      ValidIsShape(View());
      NullMeansEmpty(View());
      if head == NULL {
        ghost var before := heap.memory;
        Alloc(c);
        LocalIfInside(
          before, heap.memory, chunks, Capacity(SIZE, COUNT), |chunks| - 1, c + CHUNK_HEADER, Capacity(SIZE, COUNT));
        ThreadedIsNotEmpty(c + CHUNK_HEADER, COUNT, SIZE);
      }
      HandOutValid(View());
      FirstIsBlock(View());
      block := TakeFront();
    }

    /** A block in use goes to the front of the list; the other blocks in use keep every byte. */
    method Release(ptr: Address)
      requires View().Valid() && ptr in outstanding
      modifies heap`memory, `head, `free, `outstanding, `used
      ensures View().Valid() && View() == Released(old(View()), ptr)
      ensures outstanding == old(outstanding) - {ptr} && used == old(used) + [|outstanding|]
      ensures Untouched(old(heap.memory), heap.memory, outstanding, SIZE)
      ensures Local(old(heap.memory), heap.memory, chunks, ChunkBytes(View()))
    {
      hide Pool.Shape, Pool.Valid, Store, Untouched, Local;
      ReleaseValid(View(), ptr);
      ReleaseIsLocal(View(), ptr);
      heap.memory := Store(heap.memory, ptr, head);
      head := ptr;
      free := [ptr] + free;
      outstanding := outstanding - {ptr};
      used := used + [|outstanding|];
    }

    /** The user of a block writes a byte of it. */
    method UserWrite(ptr: Address, offset: nat, byte: Byte)
      requires View().Valid() && ptr in outstanding && offset < SIZE
      modifies heap`memory
      ensures View().Valid() && heap.memory == old(heap.memory)[ptr + offset := byte]
      ensures Untouched(old(heap.memory), heap.memory, outstanding - {ptr}, SIZE)
      ensures Local(old(heap.memory), heap.memory, chunks, ChunkBytes(View()))
    {
      hide Pool.Shape, Pool.Valid, Untouched, Local;
      UserWriteValid(View(), ptr, offset, byte);
      LocalToBlock(View(), heap.memory[ptr + offset := byte], ptr, offset, 1);
      heap.memory := heap.memory[ptr + offset := byte];
    }
  }

  lemma ReleaseIsLocal(p: Pool, b: Address)
    requires p.Valid() && b in p.outstanding
    ensures Local(p.memory, Released(p, b).memory, p.chunks, ChunkBytes(p))
  {
    hide Laid, Capacity, Load, Store, Linked;
    FirstIsAddress(p.free, p.outstanding, p.chunks, p.size, p.count);
    StoreLoad(p.memory, b, p.head);
    LocalToBlock(p, Released(p, b).memory, b, 0, WORD);
  }

  lemma ThreadedIsNotEmpty(base: Address, count: nat, size: nat)
    requires count >= 1
    ensures Threaded(base, count, size) != []
  {
  }

  lemma OneBlock(memory: Memory, base: Address, size: nat)
    requires base != NULL && Mapped(memory, base, WORD) && Load(memory, base) == NULL
    ensures Threaded(base, 1, size) == [base] && Block(base, 0, size) == base && Linked(memory, [base])
    ensures First([base]) == base
  {
    assert Threaded(base, 1, size) == [Block(base, 0, size)] + Threaded(base, 0, size);
    assert [base][1..] == [] && Members([]) == {};
  }

  lemma BlockInside(base: Address, k: nat, size: nat, count: nat)
    requires k < count
    ensures base <= Block(base, k, size) && Block(base, k, size) + size <= base + Capacity(size, count)
  {
    assert (k + 1) * size <= Capacity(size, count);
  }

  lemma NextBlock(base: Address, count: nat, size: nat)
    requires count > 0 && size > 0
    ensures Block(base, count - 1, size) + size == Block(base, count, size)
    ensures Threaded(base, count + 1, size) == [Block(base, count, size)] + Threaded(base, count, size)
    ensures First(Threaded(base, count + 1, size)) == Block(base, count, size)
    ensures forall b :: b in Members(Threaded(base, count, size)) ==> b + size <= Block(base, count, size)
  {
    forall b | b in Members(Threaded(base, count, size)) ensures b + size <= Block(base, count, size) {
      ThreadedMembers(base, count, size, b);
      var k :| 0 <= k < count && b == Block(base, k, size);
      BlocksApart(base, k, count, size);
    }
  }

  lemma ChunkInside(p: Pool, c: Address)
    requires CanGrow(p, c) && p.size >= WORD && p.count >= 1
    ensures c + CHUNK_HEADER + Capacity(p.size, p.count) <= ADDRESSES
    ensures Capacity(p.size, p.count) >= WORD
  {
    assert Capacity(p.size, p.count) >= p.size * 1;
  }

  lemma FreshChunk(memory: Memory, base: Address, n: nat)
    requires n >= WORD
    ensures var after := Cleared(memory, base, n);
      Mapped(after, base, WORD) && Load(after, base) == NULL && SameBeside(memory, after, base, n)
  {
    LoadZero(Cleared(memory, base, n), base);
  }

  /** What happens within a new chunk touches no block in use. */
  lemma ChunkTouchesNone(p: Pool, c: Address, memory: Memory)
    requires p.Valid() && CanGrow(p, c)
    requires SameBeside(p.memory, memory, c + CHUNK_HEADER, Capacity(p.size, p.count))
    ensures Untouched(p.memory, memory, p.outstanding, p.size)
  {
    forall b | b in p.outstanding
      ensures b + p.size <= c + CHUNK_HEADER || c + CHUNK_HEADER + Capacity(p.size, p.count) <= b
    {
      BlockStands(p.Blocks(), p.chunks, p.size, p.count, b);
      OldBlockClear(b, p.chunks, c, p.size, p.count);
    }
  }
}

/** `TLSMemoryPool`: one thread's pools, found by size index and created on first use. */
module ThreadPools {
  import opened Buckets
  import opened Bytes
  import opened ByteMemory
  import opened MemoryPools

  /** A pool that has grown at `c`, if it has, where nothing of `q` was. */
  lemma GrowthStaysApart(p: Pool, grown: Pool, q: Pool, c: Address)
    requires PoolsApart(p, q) && (grown.chunks == p.chunks || ClearOf(c, ChunkBytes(p), q))
    requires grown.size == p.size && grown.count == p.count
    requires grown.chunks == p.chunks || grown.chunks == p.chunks + [c + CHUNK_HEADER]
    ensures PoolsApart(grown, q) && PoolsApart(q, grown)
  {
    hide Capacity;
    assert ChunkBytes(grown) == ChunkBytes(p);
  }

  lemma ClearMeansCanGrow(p: Pool, c: Address)
    requires Mallocable(c, [], ChunkBytes(p)) && ClearOf(c, ChunkBytes(p), p)
    ensures CanGrow(p, c)
  {
  }

  /** Pools by index, each cutting blocks of two to the index plus two bytes, their chunks apart. */
  ghost predicate ViewsOk(views: map<int, Pool>, allocCount: nat, memory: Memory) {
    && (forall i :: i in views ==> ViewOk(i, views[i], allocCount, memory))
    && (forall i, j :: i in views && j in views && i != j ==> PoolsApart(views[i], views[j]))
  }

  ghost predicate ViewOk(i: int, p: Pool, allocCount: nat, memory: Memory) {
    i >= 1 && p.size == Power2(i + 2) && p.count == allocCount && p.memory == memory && p.Valid()
  }

  /** `after` is `before` with a block handed out or taken back, and perhaps a chunk more at `c`. */
  ghost predicate Moved(before: Pool, after: Pool, c: Address) {
    && after.Valid() && after.size == before.size && after.count == before.count
    && (after.chunks == before.chunks || after.chunks == before.chunks + [c + CHUNK_HEADER])
    && Local(before.memory, after.memory, after.chunks, ChunkBytes(after))
  }

  /** What one pool did leaves each other pool in order, and not a byte of its blocks in use changed. */
  lemma OtherPool(before: Pool, after: Pool, q: Pool, c: Address)
    requires before.Valid() && q.Valid() && q.memory == before.memory && Moved(before, after, c)
    requires PoolsApart(before, q) && (after.chunks == before.chunks || ClearOf(c, ChunkBytes(before), q))
    ensures q.(memory := after.memory).Valid() && Untouched(q.memory, after.memory, q.outstanding, q.size)
    ensures PoolsApart(after, q.(memory := after.memory)) && PoolsApart(q.(memory := after.memory), after)
    ensures forall a, b :: a in after.Blocks() && b in q.Blocks() ==> a + after.size <= b || b + q.size <= a
  {
    hide Pool.Valid, ClearOf, Local, Untouched, Capacity, Members;
    GrowthStaysApart(before, after, q, c);
    OtherPoolStays(q, after.memory, after);
    forall a, b | a in after.Blocks() && b in q.Blocks() ensures a + after.size <= b || b + q.size <= a {
      BlocksOfPoolsApart(after, q, a, b);
    }
  }

  /** The pools once one of them has moved. */
  function Updated(views: map<int, Pool>, idx: int, after: Pool): map<int, Pool> {
    map i | i in views :: if i == idx then after else views[i].(memory := after.memory)
  }

  lemma UpdatedOk(views: map<int, Pool>, allocCount: nat, memory: Memory, idx: int, after: Pool, c: Address)
    requires ViewsOk(views, allocCount, memory) && idx in views && Moved(views[idx], after, c)
    requires after.chunks == views[idx].chunks
      || forall i :: i in views && i != idx ==> ClearOf(c, ChunkBytes(views[idx]), views[i])
    ensures ViewsOk(Updated(views, idx, after), allocCount, after.memory)
    ensures forall i :: i in views && i != idx ==>
      && Untouched(memory, after.memory, views[i].outstanding, views[i].size)
      && forall a, b :: a in after.Blocks() && b in views[i].Blocks() ==>
        a + after.size <= b || b + views[i].size <= a
  {
    hide Pool.Valid, ClearOf, Local, Untouched, PoolsApart, Power2;
    var before, now := views[idx], Updated(views, idx, after);
    assert ViewOk(idx, before, allocCount, memory);
    forall i | i in views && i != idx
      ensures ViewOk(i, now[i], allocCount, after.memory) && PoolsApart(after, now[i]) && PoolsApart(now[i], after)
      ensures Untouched(memory, after.memory, views[i].outstanding, views[i].size)
      ensures forall a, b :: a in after.Blocks() && b in views[i].Blocks() ==>
        a + after.size <= b || b + views[i].size <= a
    {
      assert ViewOk(i, views[i], allocCount, memory);
      OtherPool(before, after, views[i], c);
    }
    forall i, j | i in views && j in views && i != j ensures PoolsApart(now[i], now[j]) {
      if i != idx && j != idx {
        assert PoolsApart(views[i], views[j]);
        MemoryIsNoMatter(views[i], views[j], after.memory);
      }
    }
  }

  lemma MemoryIsNoMatter(p: Pool, q: Pool, memory: Memory)
    requires PoolsApart(p, q)
    ensures PoolsApart(p.(memory := memory), q.(memory := memory))
  {
    assert ChunkBytes(p.(memory := memory)) == ChunkBytes(p) && ChunkBytes(q.(memory := memory)) == ChunkBytes(q);
  }

  /** `c` is an answer `malloc` may give to a request for a chunk: clear of every chunk of every pool. */
  ghost predicate Answer(c: Address, bytes: nat, views: map<int, Pool>) {
    Mallocable(c, [], bytes) && forall i :: i in views ==> ClearOf(c, bytes, views[i])
  }

  class TLSMemoryPools {
    const allocCount: nat
    const heap: Heap
    var pools: map<int, MemoryPool>

    ghost function Views(): map<int, Pool>
      reads this, heap, pools.Values, set i | i in pools :: pools[i].heap
    {
      map i | i in pools :: pools[i].View()
    }

    /** The pools are different ones, all on this memory. */
    ghost predicate Wired()
      reads this, pools.Values
    {
      && (forall i :: i in pools ==> pools[i].heap == heap)
      && (forall i, j :: i in pools && j in pools && i != j ==> pools[i] != pools[j])
    }

    ghost predicate Valid()
      reads this, heap, pools.Values, set i | i in pools :: pools[i].heap
    {
      allocCount >= 1 && Wired() && ViewsOk(Views(), allocCount, heap.memory)
    }

    constructor (allocCount: nat)
      requires allocCount >= 1
      ensures Valid() && pools == map[] && fresh(heap)
    {
      this.allocCount := allocCount;
      heap := new Heap();
      pools := map[];
    }

    /** The pool of an index, created on first use. */
    method Find(size: nat, c: Address, ghost bytes: nat) returns (pool: MemoryPool)
      requires Valid() && Answer(c, bytes, Views())
      modifies `pools
      ensures Valid() && PoolIndex(size) in pools && pool == pools[PoolIndex(size)]
      ensures pools == old(pools)[PoolIndex(size) := pool] && Answer(c, bytes, Views())
      ensures PoolIndex(size) !in old(pools) ==> fresh(pool) && pool.outstanding == {}
      ensures forall i :: i in old(pools) ==> pools[i] == old(pools)[i] && Views()[i] == old(Views())[i]
    {
      hide Power2, BitWidth, BitCeil, Pool.Valid, Pool.Shape, ViewsOk, Answer;
      var idx := PoolIndex(size);
      IndexNamesBucket(size);
      if idx !in pools {
        var created := new MemoryPool(BucketSize(size), allocCount, heap);
        ghost var views := Views();
        pools := pools[idx := created];
        assert Views() == views[idx := created.View()];
        NewPoolOk(views, allocCount, heap.memory, idx, created.View(), c, bytes);
      }
      pool := pools[idx];
    }

    /** `MemoryPool::Get` on one of the pools, seen by all of them. */
    method GetFrom(idx: int, c: Address) returns (block: Address)
      requires Valid() && idx in pools && Answer(c, ChunkBytes(pools[idx].View()), Views())
      modifies heap, pools[idx]
      ensures Valid() && block % WORD == 0
      ensures pools[idx].outstanding == old(pools[idx].outstanding) + {block}
      ensures forall i, b :: i in pools && b in old(Views())[i].outstanding ==>
        b + pools[i].SIZE <= block || block + pools[idx].SIZE <= b
      ensures forall i :: i in pools ==>
        Untouched(old(heap.memory), heap.memory, old(Views())[i].outstanding, pools[i].SIZE)
      ensures forall i :: i in pools && i != idx ==> Views()[i] == old(Views())[i].(memory := heap.memory)
    {
      hide Power2, Pool.Valid, Pool.Shape, PoolsApart, ClearOf, Local, Untouched, Capacity, ViewsOk;
      hide Mallocable, CanGrow, InSomeChunk, Linked, Threaded;
      ghost var views, memory := Views(), heap.memory;
      ViewOf(views, allocCount, memory, idx);
      ClearMeansCanGrow(views[idx], c);
      block := pools[idx].Get(c);
      ghost var after := pools[idx].View();
      assert Views() == Updated(views, idx, after);
      UpdatedOk(views, allocCount, memory, idx, after, c);
      assert block in after.Blocks();
      forall i, b | i in pools && b in views[i].outstanding
        ensures b + pools[i].SIZE <= block || block + pools[idx].SIZE <= b
      {
        assert b in views[i].Blocks();
      }
    }

    /**
     A block for a type of `size` bytes: the pool found serves exactly that type's bucket size, which
     holds it. The block overlaps no block in use of any pool, and none of their bytes change.
     */
    method Get(size: nat, c: Address) returns (block: Address, pool: MemoryPool)
      requires Valid() && Answer(c, Capacity(BucketSize(size), allocCount), Views())
      modifies `pools, heap, pools.Values
      ensures Valid() && pools == old(pools)[PoolIndex(size) := pool]
      ensures pool.SIZE == BucketSize(size) >= size && block % WORD == 0
      ensures PoolIndex(size) in old(pools) ==>
        && pool == old(pools)[PoolIndex(size)]
        && pool.outstanding == old(pools[PoolIndex(size)].outstanding) + {block}
      ensures PoolIndex(size) !in old(pools) ==> fresh(pool) && pool.outstanding == {block}
      ensures forall i, b :: i in old(pools) && b in old(Views())[i].outstanding ==>
        b + old(pools)[i].SIZE <= block || block + pool.SIZE <= b
      ensures forall i :: i in old(pools) ==>
        Untouched(old(heap.memory), heap.memory, old(Views())[i].outstanding, old(pools)[i].SIZE)
      ensures forall i :: i in old(pools) && i != PoolIndex(size) ==>
        Views()[i] == old(Views())[i].(memory := heap.memory)
    {
      hide Power2, BitWidth, BitCeil, Pool.Valid, Pool.Shape, Untouched, Capacity, ViewsOk, Answer;
      IndexNamesBucket(size);
      pool := Find(size, c, Capacity(BucketSize(size), allocCount));
      ViewOf(Views(), allocCount, heap.memory, PoolIndex(size));
      block := GetFrom(PoolIndex(size), c);
    }

    /** A block goes back to the pool its type's index finds: the one it came from. */
    method Release(size: nat, ptr: Address)
      requires Valid() && PoolIndex(size) in pools
      requires ptr in pools[PoolIndex(size)].outstanding
      modifies heap, pools.Values
      ensures Valid()
      ensures var pool := pools[PoolIndex(size)];
        pool.SIZE == BucketSize(size) && ptr !in pool.outstanding && pool.free == [ptr] + old(pool.free)
      ensures forall i :: i in pools ==>
        Untouched(old(heap.memory), heap.memory, pools[i].outstanding, pools[i].SIZE)
      ensures forall i :: i in pools && i != PoolIndex(size) ==>
        Views()[i] == old(Views())[i].(memory := heap.memory)
    {
      hide Power2, BitWidth, BitCeil, Pool.Valid, Pool.Shape, PoolsApart, ClearOf, Local, Untouched, Capacity, ViewsOk;
      IndexNamesBucket(size);
      var idx := PoolIndex(size);
      ghost var views, memory := Views(), heap.memory;
      ViewOf(views, allocCount, memory, idx);
      pools[idx].Release(ptr);
      ghost var after := pools[idx].View();
      assert Views() == Updated(views, idx, after);
      UpdatedOk(views, allocCount, memory, idx, after, 0);
      assert forall i :: i in pools && i != idx ==> pools[i].outstanding == views[i].outstanding;
    }

    /** The user of a block of any pool writes a byte of it: every pool and every other block stays. */
    method UserWrite(idx: int, ptr: Address, offset: nat, byte: Byte)
      requires Valid() && idx in pools && ptr in pools[idx].outstanding && offset < pools[idx].SIZE
      modifies heap
      ensures Valid() && heap.memory == old(heap.memory)[ptr + offset := byte]
      ensures Untouched(old(heap.memory), heap.memory, pools[idx].outstanding - {ptr}, pools[idx].SIZE)
      ensures forall i :: i in pools && i != idx ==>
        Untouched(old(heap.memory), heap.memory, pools[i].outstanding, pools[i].SIZE)
    {
      hide Power2, Pool.Valid, Pool.Shape, PoolsApart, ClearOf, Local, Untouched, Capacity, ViewsOk;
      ghost var views, memory := Views(), heap.memory;
      ViewOf(views, allocCount, memory, idx);
      pools[idx].UserWrite(ptr, offset, byte);
      ghost var after := pools[idx].View();
      assert Views() == Updated(views, idx, after);
      UpdatedOk(views, allocCount, memory, idx, after, 0);
      assert forall i :: i in pools && i != idx ==> pools[i].outstanding == views[i].outstanding;
    }
  }

  lemma NewPoolOk(views: map<int, Pool>, allocCount: nat, memory: Memory, idx: int, p: Pool,
                  c: Address, bytes: nat)
    requires ViewsOk(views, allocCount, memory) && ViewOk(idx, p, allocCount, memory) && p.chunks == []
    requires Answer(c, bytes, views)
    ensures ViewsOk(views[idx := p], allocCount, memory) && Answer(c, bytes, views[idx := p])
  {
    hide ViewOk, Mallocable;
  }

  lemma ViewOf(views: map<int, Pool>, allocCount: nat, memory: Memory, idx: int)
    requires ViewsOk(views, allocCount, memory) && idx in views
    ensures ViewOk(idx, views[idx], allocCount, memory)
  {
  }
}
