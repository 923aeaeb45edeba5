/** Sums of a natural-number weight over a sequence; used to count threads at a program point. */
module Counting {

  function SumBy<T>(s: seq<T>, weight: T -> nat): nat
  {
    if s == [] then 0 else weight(s[0]) + SumBy(s[1..], weight)
  }

  lemma {:induction false} SumUpdate<T>(s: seq<T>, i: nat, x: T, weight: T -> nat)
    requires i < |s|
    ensures SumBy(s[i := x], weight) + weight(s[i]) == SumBy(s, weight) + weight(x)
  {
    if i == 0 {
      assert s[i := x][1..] == s[1..];
    } else {
      assert s[i := x][1..] == s[1..][i - 1 := x];
      SumUpdate(s[1..], i - 1, x, weight);
    }
  }

  lemma {:induction false} SumZero<T>(s: seq<T>, weight: T -> nat)
    requires forall j :: 0 <= j < |s| ==> weight(s[j]) == 0
    ensures SumBy(s, weight) == 0
  {
    if s != [] {
      SumZero(s[1..], weight);
    }
  }

  lemma {:induction false} SumSingle<T>(s: seq<T>, i: nat, weight: T -> nat)
    requires i < |s|
    requires forall j :: 0 <= j < |s| && j != i ==> weight(s[j]) == 0
    ensures SumBy(s, weight) == weight(s[i])
  {
    if i == 0 {
      SumZero(s[1..], weight);
    } else {
      assert weight(s[0]) == 0;
      forall j | 0 <= j < |s[1..]| && j != i - 1 ensures weight(s[1..][j]) == 0 {
        assert s[1..][j] == s[j + 1];
      }
      SumSingle(s[1..], i - 1, weight);
    }
  }

  lemma {:induction false} SumAtLeast<T>(s: seq<T>, i: nat, weight: T -> nat)
    requires i < |s|
    ensures weight(s[i]) <= SumBy(s, weight)
  {
    if i > 0 {
      SumAtLeast(s[1..], i - 1, weight);
    }
  }

  lemma {:induction false} SumPair<T>(s: seq<T>, i: nat, j: nat, weight: T -> nat)
    requires i < j < |s|
    ensures weight(s[i]) + weight(s[j]) <= SumBy(s, weight)
  {
    if i == 0 {
      SumAtLeast(s[1..], j - 1, weight);
    } else {
      SumPair(s[1..], i - 1, j - 1, weight);
    }
  }

  /** A sum that is positive has a positive term. */
  lemma {:induction false} SumWitness<T>(s: seq<T>, weight: T -> nat) returns (i: nat)
    requires SumBy(s, weight) > 0
    ensures i < |s| && weight(s[i]) > 0
  {
    if weight(s[0]) > 0 {
      i := 0;
    } else {
      var k := SumWitness(s[1..], weight);
      i := k + 1;
    }
  }
}
