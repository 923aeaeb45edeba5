/** Memory as bytes; a link is the eight bytes of an address, least significant first. */
module ByteMemory {
  import opened Bytes

  type Address = nat

  type Memory = map<Address, Byte>

  const WORD: nat := 8
  const ADDRESSES: nat := 0x1_0000_0000_0000_0000

  predicate Mapped(memory: Memory, a: Address, n: nat) {
    forall k :: a <= k < a + n ==> k in memory
  }

  function Load(memory: Memory, a: Address): nat
    requires Mapped(memory, a, WORD)
  {
    Value(seq(WORD, i requires 0 <= i < WORD => memory[a + i]))
  }

  /** `bytes` written from `a` on. */
  function Put(memory: Memory, a: Address, bytes: seq<Byte>): (after: Memory)
    ensures forall k: Address :: k in after <==> k in memory || a <= k < a + |bytes|
    ensures forall k: Address :: k in after ==> after[k] == if a <= k < a + |bytes| then bytes[k - a] else memory[k]
    decreases |bytes|
  {
    if bytes == [] then memory else
      var n := |bytes| - 1;
      Put(memory, a, bytes[..n])[a + n := bytes[n]]
  }

  function Store(memory: Memory, a: Address, word: nat): Memory {
    Put(memory, a, Digits(word, WORD))
  }

  /** The bytes at `a` are the same in both. */
  ghost predicate Same(memory: Memory, after: Memory, a: Address, n: nat) {
    Mapped(memory, a, n) && Mapped(after, a, n) && forall k :: a <= k < a + n ==> after[k] == memory[k]
  }

  /** Nothing has changed but between `a` and `a + n`. */
  ghost predicate SameBeside(memory: Memory, after: Memory, a: Address, n: nat) {
    forall k: Address :: !(a <= k < a + n) ==> (k in after <==> k in memory) && (k in memory ==> after[k] == memory[k])
  }

  lemma EightBytes()
    ensures Power256(WORD) == ADDRESSES
  {
    FourMoreBytes(4);
    FourMoreBytes(0);
    assert Power256(0) == 1;
  }

  lemma FourMoreBytes(n: nat)
    ensures Power256(n + 4) == 0x1_0000_0000 * Power256(n)
  {
    assert Power256(n + 4) == 256 * Power256(n + 3);
    assert Power256(n + 3) == 256 * Power256(n + 2);
    assert Power256(n + 2) == 256 * Power256(n + 1);
    assert Power256(n + 1) == 256 * Power256(n);
  }

  /** An address stored is loaded again, and no byte beside its eight has changed. */
  lemma StoreLoad(memory: Memory, a: Address, word: nat)
    requires word < ADDRESSES
    ensures var after := Store(memory, a, word);
      Mapped(after, a, WORD) && Load(after, a) == word && SameBeside(memory, after, a, WORD)
  {
    var after := Store(memory, a, word);
    EightBytes();
    ValueOfDigits(word, WORD);
    assert seq(WORD, i requires 0 <= i < WORD => after[a + i]) == Digits(word, WORD);
  }

  lemma LoadSame(memory: Memory, after: Memory, a: Address)
    requires Same(memory, after, a, WORD)
    ensures Load(after, a) == Load(memory, a)
  {
    assert seq(WORD, i requires 0 <= i < WORD => after[a + i]) == seq(WORD, i requires 0 <= i < WORD => memory[a + i]);
  }

  /** `memset` to zero. */
  function Cleared(memory: Memory, base: Address, n: nat): Memory {
    Put(memory, base, seq(n, _ => 0))
  }

  lemma {:induction false} ZeroValue(bytes: seq<Byte>)
    requires forall i :: 0 <= i < |bytes| ==> bytes[i] == 0
    ensures Value(bytes) == 0
  {
    if bytes != [] { ZeroValue(bytes[1..]); }
  }

  lemma LoadZero(memory: Memory, a: Address)
    requires Mapped(memory, a, WORD) && forall k :: a <= k < a + WORD ==> memory[k] == 0
    ensures Load(memory, a) == 0
  {
    ZeroValue(seq(WORD, i requires 0 <= i < WORD => memory[a + i]));
  }
}
