/** Division facts that the solver needs spelled out. */
module Arithmetic {
  lemma QuotientIs(x: nat, d: nat, q: nat, r: nat)
    requires d > 0 && x == q * d + r && r < d
    ensures x / d == q
  {
    var p := x / d;
    assert x == p * d + x % d;
    assert (p - q) * d == r - x % d;
    if p > q { Mono(1, p - q, d); } else if p < q { Mono(1, q - p, d); }
  }

  lemma Mono(a: nat, b: nat, d: nat)
    requires a <= b
    ensures a * d <= b * d
  { }

  lemma SameProduct(x: nat, y: nat, d: nat)
    requires x * d == y * d && d > 0
    ensures x == y
  { }

  lemma QuotientBound(x: nat, q: nat, d: nat)
    requires x < q * d
    ensures d > 0 && x / d < q
  { }

  lemma QuotientSum(p: nat, r: nat, q: nat, r': nat, d: nat)
    requires r < d && r' < d
    ensures (p * d + r + (q * d + r')) / d == p + q + (if r + r' < d then 0 else 1)
  {
    var carry := if r + r' < d then 0 else 1;
    assert p * d + q * d + carry * d == (p + q + carry) * d;
    QuotientIs(p * d + r + (q * d + r'), d, p + q + carry, r + r' - carry * d);
  }

  lemma Decompose(x: nat, d: nat) returns (q: nat, r: nat)
    requires d > 0
    ensures x == q * d + r && r < d && q == x / d && r == x % d
  {
    q, r := x / d, x % d;
  }
}
