/** Division facts the solver needs spelt out. */
module Arithmetic {
  lemma Multiples(p: nat, e: int)
    ensures e > 0 ==> p * e >= p
    ensures e < 0 ==> p * e <= 0 - p
  {
  }

  lemma Quotient(x: nat, p: nat, d: nat, r: nat)
    requires x == p * d + r && r < p
    ensures x / p == d && x % p == r
  {
    var e := x / p - d;
    assert p * e == r - x % p by { assert x == p * (x / p) + x % p; assert p * e == p * (x / p) - p * d; }
    Multiples(p, e);
  }
}
