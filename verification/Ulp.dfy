/** Distances in units in the last place by ordering the bit patterns of doubles as integers. */
module Ulp {
  const MANTISSA: int := 0x10_0000_0000_0000
  const TOP: int := 0x8000_0000_0000_0000
  /** The first magnitude that is infinite: all exponent bits set. */
  const INFINITE: int := 0x7FF0_0000_0000_0000

  /** A finite double: its sign bit and the 63 bits below it (section 3.4 of IEEE 754-2019). */
  datatype Double = Double(negative: bool, magnitude: nat)

  predicate Finite(x: Double) {
    x.magnitude < INFINITE
  }

  // ---------------------------------------------------------------- values

  function Pow2(n: nat): (r: nat)
    ensures r >= 1
  {
    if n == 0 then 1 else 2 * Pow2(n - 1)
  }

  /** The absolute value in units of the smallest subnormal: exponent bits u / 2^52, fraction u % 2^52. */
  function Size(u: nat): nat {
    var e, m := u / MANTISSA, u % MANTISSA;
    if e == 0 then m else (MANTISSA + m) * Pow2(e - 1)
  }

  function Value(x: Double): int {
    if x.negative then 0 - Size(x.magnitude) else Size(x.magnitude)
  }

  lemma SizeSteps(u: nat)
    ensures Size(u) < Size(u + 1)
  { }

  lemma {:induction false} SizeGrows(u: nat, v: nat)
    requires u < v
    ensures Size(u) < Size(v)
    decreases v - u
  {
    SizeSteps(v - 1);
    if u < v - 1 {
      SizeGrows(u, v - 1);
    }
  }

  // ---------------------------------------------------------------- the ordered integer

  /** The bits read as a signed 64-bit integer. */
  function Bits(x: Double): int {
    if x.negative then x.magnitude - TOP else x.magnitude
  }

  /** Negative patterns are reflected, so that integers order as values do. */
  function Ordered(x: Double): int {
    if Bits(x) < 0 then -TOP - Bits(x) else Bits(x)
  }

  /** Order and equality of the integers are order and equality of the values; both zeros are zero. */
  lemma OrderedAsValues(x: Double, y: Double)
    requires Finite(x) && Finite(y)
    ensures Ordered(x) < Ordered(y) <==> Value(x) < Value(y)
    ensures Ordered(x) == Ordered(y) <==> Value(x) == Value(y)
  {
    var u, v := x.magnitude, y.magnitude;
    if u < v { SizeGrows(u, v); } else if v < u { SizeGrows(v, u); }
    if u > 0 { SizeGrows(0, u); }
    if v > 0 { SizeGrows(0, v); }
  }

  function AtKey(k: int): Double {
    if k < 0 then Double(true, -k) else Double(false, k)
  }

  /** Between two values every integer is a representable value, and there are no others: the distance
      of the integers is the number of representable steps. */
  lemma EveryStepIsRepresentable(x: Double, y: Double, k: int)
    requires Finite(x) && Finite(y) && Ordered(x) <= k <= Ordered(y)
    ensures Finite(AtKey(k)) && Ordered(AtKey(k)) == k && Value(x) <= Value(AtKey(k)) <= Value(y)
  {
    OrderedAsValues(x, AtKey(k));
    OrderedAsValues(AtKey(k), y);
  }

  lemma NothingBetweenNeighbours(k: int, z: Double)
    requires -INFINITE < k < INFINITE - 1 && Finite(z)
    ensures !(Value(AtKey(k)) < Value(z) < Value(AtKey(k + 1)))
  {
    OrderedAsValues(AtKey(k), z);
    OrderedAsValues(z, AtKey(k + 1));
  }

  // ---------------------------------------------------------------- the distances

  function Abs(x: int): nat {
    if x < 0 then -x else x
  }

  /** Wrap-around into a signed 64-bit integer. */
  function Wrap(x: int): (r: int)
    ensures -TOP <= r < TOP
  {
    (x + TOP) % (2 * TOP) - TOP
  }

  /** The distance as computed: the difference wraps, and the absolute value of the minimum is itself. */
  function Distance(x: Double, y: Double): int {
    var d := Wrap(Ordered(x) - Ordered(y));
    if d == -TOP then d else Abs(d)
  }

  function Steps(x: Double, y: Double): nat {
    Abs(Ordered(x) - Ordered(y))
  }

  lemma WrapFits(x: int)
    ensures -TOP <= x < TOP ==> Wrap(x) == x
  { }

  /** The computed distance counts the steps exactly when their number fits; otherwise it is too small. */
  lemma DistanceIffFits(x: Double, y: Double)
    requires Finite(x) && Finite(y)
    ensures Distance(x, y) == Steps(x, y) <==> Steps(x, y) < TOP
    ensures Distance(x, y) != Steps(x, y) ==> Distance(x, y) < Steps(x, y) && x.negative != y.negative
  { }

  /** The two largest doubles of opposite sign come out 2^53 + 2 steps apart. */
  lemma OppositeExtremesWrap()
    ensures var big := INFINITE - 1;
            Distance(Double(false, big), Double(true, big)) == 2 * MANTISSA + 2
            && Steps(Double(false, big), Double(true, big)) == 2 * big
  { }

  datatype Extended = Fin(value: int) | Inf

  /** The same-sign distance: zero for equal values, infinite across signs. */
  function Ulps(x: Double, y: Double): Extended {
    if Value(x) == Value(y) then Fin(0)
    else if (Bits(x) < 0) != (Bits(y) < 0) then Inf
    else Fin(Abs(Bits(x) - Bits(y)))
  }

  /** Both agree on every pair that one of them calls finite. */
  lemma UlpsAgree(x: Double, y: Double)
    requires Finite(x) && Finite(y)
    ensures x.negative == y.negative ==> Ulps(x, y) == Fin(Distance(x, y))
    ensures Ulps(x, y).Fin? ==> Ulps(x, y).value == Distance(x, y) == Steps(x, y)
    ensures Ulps(x, y).Inf? <==> x.negative != y.negative && Value(x) != Value(y)
  {
    OrderedAsValues(x, y);
    WrapFits(Ordered(x) - Ordered(y));
  }
}
