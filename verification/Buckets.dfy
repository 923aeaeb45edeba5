/** Bucket sizes and indices: `BucketSize_v` and `GetSizeIndexBitwise`. */
module Buckets {

  function Power2(n: nat): (p: nat)
    ensures p >= 1
  {
    if n == 0 then 1 else 2 * Power2(n - 1)
  }

  /** `std::bit_width`. */
  function BitWidth(x: nat): nat {
    if x == 0 then 0 else 1 + BitWidth(x / 2)
  }

  /** `std::bit_ceil`: the least power of two that is not below `x`. */
  function BitCeil(x: nat): nat {
    if x <= 1 then 1 else 2 * BitCeil((x + 1) / 2)
  }

  function AtLeast8(size: nat): nat { if size < 8 then 8 else size }

  function BucketSize(size: nat): nat { BitCeil(AtLeast8(size)) }

  function GetSizeIndexBitwise(size: nat): int { BitWidth(AtLeast8(size) - 1) - 2 }

  /** `TLSMemoryPool::IDX`. */
  function PoolIndex(size: nat): int { GetSizeIndexBitwise(BucketSize(size)) }

  lemma {:induction false} WidthBounds(x: nat)
    ensures x < Power2(BitWidth(x))
    ensures x > 0 ==> Power2(BitWidth(x) - 1) <= x
  {
    if x > 0 {
      WidthBounds(x / 2);
    }
  }

  lemma {:induction false} PowersGrow(m: nat, n: nat)
    requires m < n
    ensures 2 * Power2(m) <= Power2(n)
  {
    if m + 1 < n {
      PowersGrow(m, n - 1);
    }
  }

  lemma {:induction false} WidthIsUnique(x: nat, n: nat)
    requires n > 0 && Power2(n - 1) <= x < Power2(n)
    ensures BitWidth(x) == n
  {
    WidthBounds(x);
    if BitWidth(x) < n {
      if BitWidth(x) < n - 1 { PowersGrow(BitWidth(x), n - 1); }
    } else if n < BitWidth(x) {
      if n < BitWidth(x) - 1 { PowersGrow(n, BitWidth(x) - 1); }
    }
  }

  lemma {:induction false} CeilBounds(x: nat)
    requires x >= 1
    ensures x <= BitCeil(x) && (x > 1 ==> BitCeil(x) < 2 * x)
  {
    if x > 1 {
      CeilBounds((x + 1) / 2);
    }
  }

  lemma {:induction false} CeilIsPower(x: nat)
    requires x >= 1
    ensures BitCeil(x) == Power2(BitWidth(x - 1))
  {
    if x > 1 {
      var half := (x + 1) / 2;
      CeilIsPower(half);
      assert half - 1 == (x - 1) / 2;
      assert Power2(1 + BitWidth(half - 1)) == 2 * Power2(BitWidth(half - 1));
    }
  }

  /** Beyond seven, a number is at least three bits wide. */
  lemma ThreeBits(x: nat)
    requires x >= 7
    ensures BitWidth(x) >= 3
  {
    WidthBounds(x);
    if BitWidth(x) < 3 {
      PowersGrow(BitWidth(x), 3);
      Eight();
    }
  }

  lemma Eight()
    ensures Power2(3) == 8
  {
    assert Power2(1) == 2 && Power2(2) == 4;
  }

  lemma WidthBelowPower(n: nat)
    requires n > 0
    ensures BitWidth(Power2(n) - 1) == n
  {
    WidthIsUnique(Power2(n) - 1, n);
  }

  /** The bucket of a size has that size's index, and is two to the index plus two. */
  lemma IndexNamesBucket(size: nat)
    ensures GetSizeIndexBitwise(size) >= 1
    ensures BucketSize(size) == Power2(GetSizeIndexBitwise(size) + 2)
    ensures GetSizeIndexBitwise(BucketSize(size)) == GetSizeIndexBitwise(size)
    ensures size <= BucketSize(size) && BucketSize(size) >= 8 && BucketSize(size) % 8 == 0
  {
    hide BitWidth, BitCeil, Power2;
    var s := AtLeast8(size);
    ThreeBits(s - 1);
    CeilIsPower(s);
    CeilBounds(s);
    EightDivides(BitWidth(s - 1));
    WidthBelowPower(BitWidth(s - 1));
  }

  lemma {:induction false} EightDivides(n: nat)
    requires n >= 3
    ensures Power2(n) % 8 == 0 && Power2(n) >= 8
  {
    if n == 3 {
      assert Power2(1) == 2 && Power2(2) == 4;
    } else {
      EightDivides(n - 1);
    }
  }

  /** The bucket is the tightest power of two: half of it would be too small, or below eight. */
  lemma BucketIsTight(size: nat)
    ensures size > 8 ==> BucketSize(size) < 2 * size
    ensures size <= 8 ==> BucketSize(size) == 8
  {
    CeilBounds(AtLeast8(size));
    if size <= 8 {
      assert BitCeil(1) == 1 && BitCeil(2) == 2 && BitCeil(4) == 4 && BitCeil(8) == 8;
    }
  }

  /** Two types share a pool exactly when they share a bucket size. */
  lemma SameIndexIffSameBucket(a: nat, b: nat)
    ensures GetSizeIndexBitwise(a) == GetSizeIndexBitwise(b) <==> BucketSize(a) == BucketSize(b)
  {
    IndexNamesBucket(a);
    IndexNamesBucket(b);
  }
}
