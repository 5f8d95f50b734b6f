/** Absolute values, maxima and relative deviations of reals. */
module Reals {
  function Abs(x: real): real {
    if x < 0.0 then -x else x
  }

  function Max(x: real, y: real): real {
    if x < y then y else x
  }

  /** The values differ by at most this fraction of the larger magnitude, or of 1. */
  ghost predicate Near(x: real, y: real, fraction: real) {
    exists m :: Magnitude(x, y, m) && Spans(x - y, fraction * m)
  }

  predicate Spans(difference: real, bound: real) {
    -bound <= difference <= bound
  }

  predicate Magnitude(x: real, y: real, m: real) {
    m == x || m == -x || m == y || m == -y || m == 1.0
  }

  lemma Products(d: real, m: real, g: real)
    requires m > 0.0
    ensures d / m <= g <==> d <= g * m
  {
    var q := d / m;
    assert q * m == d;
    if g < q {
      Signs(q - g, m);
    } else {
      Signs(g - q, m);
    }
  }

  lemma Signs(x: real, y: real)
    requires y > 0.0
    ensures x > 0.0 <==> x * y > 0.0
    ensures x == 0.0 <==> x * y == 0.0
  {
    assert x * y == 0.0 <==> x == 0.0;
  }

  lemma Monotone(g: real, m: real, n: real)
    requires g >= 0.0 && m <= n
    ensures g * m <= g * n
  {
    assert g * (n - m) >= 0.0;
  }

  lemma NearIff(x: real, y: real, d: real, m: real, g: real)
    requires Magnitude(x, y, m) && (forall k :: Magnitude(x, y, k) ==> k <= m) && g >= 0.0
    requires d >= 0.0 && (d == x - y || d == y - x)
    ensures d <= g * m <==> Near(x, y, g)
  {
    if Near(x, y, g) {
      var k :| Magnitude(x, y, k) && Spans(x - y, g * k);
      Wider(x - y, d, g, k, m);
    } else {
      assert !Spans(x - y, g * m);
    }
  }

  lemma Wider(difference: real, d: real, g: real, k: real, m: real)
    requires g >= 0.0 && k <= m && Spans(difference, g * k) && (d == difference || d == -difference)
    ensures d <= g * m
  {
    Monotone(g, k, m);
  }
}
