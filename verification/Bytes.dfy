/** Bytes, and numbers in memory: least significant byte first. */
module Bytes {

  type Byte = b: int | 0 <= b < 256

  /** The `n` low bytes of `u`, least significant first. */
  function Digits(u: nat, n: nat): (bytes: seq<Byte>)
    ensures |bytes| == n
  {
    if n == 0 then [] else [u % 256] + Digits(u / 256, n - 1)
  }

  function Value(bytes: seq<Byte>): nat {
    if bytes == [] then 0 else bytes[0] as int + 256 * Value(bytes[1..])
  }

  function Power256(n: nat): nat {
    if n == 0 then 1 else 256 * Power256(n - 1)
  }

  lemma {:induction false} ValueOfDigits(u: nat, n: nat)
    requires u < Power256(n)
    ensures Value(Digits(u, n)) == u
  {
    if n > 0 {
      assert Digits(u, n)[1..] == Digits(u / 256, n - 1);
      ValueOfDigits(u / 256, n - 1);
    }
  }

  lemma {:induction false} DigitsOfValue(bytes: seq<Byte>)
    ensures Value(bytes) < Power256(|bytes|) && Digits(Value(bytes), |bytes|) == bytes
  {
    if bytes != [] {
      DigitsOfValue(bytes[1..]);
      assert Value(bytes) / 256 == Value(bytes[1..]);
      assert bytes == [bytes[0]] + bytes[1..];
    }
  }
}
