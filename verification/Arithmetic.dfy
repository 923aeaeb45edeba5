/** Facts about products that the verifier is better told than left to find. */
module Arithmetic {

  lemma Multiple(n: nat, k: int)
    requires n > 0
    ensures k >= 1 ==> n * k >= n
    ensures k <= -1 ==> n * k + n <= 0
  {
  }

  lemma Remainder(q: nat, m: nat, n: nat)
    requires m < n
    ensures (q * n + m) % n == m
  {
    var x := q * n + m;
    assert x == n * (x / n) + x % n;
    assert n * (x / n - q) == m - x % n;
    Multiple(n, x / n - q);
  }

  lemma Distributes(n: nat, a: nat, b: nat)
    ensures n * (a + b) == n * a + n * b
  {
  }
}
