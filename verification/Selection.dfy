/** Benchmark points: the iterations at the cumulative-leapfrog quantiles (k + 1/2) / points. */
module Selection {
  import opened Arithmetic

  datatype Result<T> = Ok(value: T) | Err(message: string)

  /** The leapfrog steps of the first n iterations. */
  function Cumulative(leapfrogs: seq<nat>, n: nat): nat
    requires n <= |leapfrogs|
  {
    if n == 0 then 0 else Cumulative(leapfrogs, n - 1) + leapfrogs[n - 1]
  }

  function Total(leapfrogs: seq<nat>): nat {
    Cumulative(leapfrogs, |leapfrogs|)
  }

  /** The first n iterations reach quantile k, compared in integers. */
  predicate Reaches(leapfrogs: seq<nat>, points: nat, n: nat, k: nat)
    requires n <= |leapfrogs|
  {
    2 * points * Cumulative(leapfrogs, n) >= (2 * k + 1) * Total(leapfrogs)
  }

  /** Iteration i is the first to reach quantile k. */
  predicate Picks(leapfrogs: seq<nat>, points: nat, i: nat, k: nat) {
    i < |leapfrogs| && !Reaches(leapfrogs, points, i, k) && Reaches(leapfrogs, points, i + 1, k)
  }

  /** In integers what the share of leapfrog steps says: it has come to (k + 1/2) / points. */
  lemma ReachesIsShare(leapfrogs: seq<nat>, points: nat, n: nat, k: nat)
    requires n <= |leapfrogs| && points > 0 && Total(leapfrogs) > 0
    ensures Reaches(leapfrogs, points, n, k) <==>
            Cumulative(leapfrogs, n) as real / Total(leapfrogs) as real >= (k as real + 0.5) / points as real
  {
    Fractions(Cumulative(leapfrogs, n) as real, Total(leapfrogs) as real, k as real + 0.5, points as real);
    AsReals(points, Cumulative(leapfrogs, n), k, Total(leapfrogs));
  }

  lemma Fractions(c: real, t: real, h: real, p: real)
    requires t > 0.0 && p > 0.0
    ensures c / t >= h / p <==> p * c >= h * t
  {
    var x, y := c / t, h / p;
    assert x * t == c && y * p == h;
    Scale(x, y, t * p);
    assert x * (t * p) == p * c && y * (t * p) == h * t;
  }

  lemma Scale(x: real, y: real, f: real)
    requires f > 0.0
    ensures x >= y <==> x * f >= y * f
  {
    assert (x - y) * f == x * f - y * f;
  }

  lemma AsReals(points: nat, c: nat, k: nat, t: nat)
    ensures points as real * c as real >= (k as real + 0.5) * t as real <==> 2 * points * c >= (2 * k + 1) * t
  {
    var left, right := points * c, (2 * k + 1) * t;
    assert left as real == points as real * c as real;
    assert right as real == (2 * k + 1) as real * t as real;
    assert (2 * k + 1) as real == 2.0 * (k as real + 0.5);
    assert right as real == 2.0 * ((k as real + 0.5) * t as real);
    assert 2 * points * c == 2 * left;
  }

  lemma QuantileIsReached(total: nat, points: nat, k: nat)
    requires k < points
    ensures 2 * points * total >= (2 * k + 1) * total
  {
    Mono(2 * k + 1, 2 * points, total);
  }

  lemma QuantilesGrow(total: nat, k: nat)
    ensures (2 * (k + 1) + 1) * total >= (2 * k + 1) * total
  { }

  /** For every quantile the first iteration that reaches it; refused without a leapfrog step. */
  method SelectIterations(leapfrogs: seq<nat>, points: nat) returns (r: Result<seq<nat>>)
    ensures r.Err? <==> leapfrogs == [] || Total(leapfrogs) == 0
    ensures r.Ok? ==> |r.value| == points && forall k :: 0 <= k < points ==> Picks(leapfrogs, points, r.value[k], k)
  {
    var total := 0;
    for i := 0 to |leapfrogs|
      invariant total == Cumulative(leapfrogs, i)
    {
      total := total + leapfrogs[i];
    }
    if leapfrogs == [] || total <= 0 {
      return Err("the reference run did no leapfrog steps");
    }
    var chosen: seq<nat>, cumulative, at := [], 0, 0;
    for k := 0 to points
      invariant at <= |leapfrogs| && cumulative == Cumulative(leapfrogs, at)
      invariant |chosen| == k && forall j :: 0 <= j < k ==> Picks(leapfrogs, points, chosen[j], j)
      invariant !Reaches(leapfrogs, points, at, k)
    {
      QuantileIsReached(total, points, k);
      while true
        invariant at < |leapfrogs| && cumulative == Cumulative(leapfrogs, at) && !Reaches(leapfrogs, points, at, k)
        decreases |leapfrogs| - at
      {
        var reached := cumulative + leapfrogs[at];
        if 2 * points * reached >= (2 * k + 1) * total {
          break;
        }
        cumulative, at := reached, at + 1;
      }
      chosen := chosen + [at];
      QuantilesGrow(total, k);
    }
    return Ok(chosen);
  }

  // ---------------------------------------------------------------- what a selection is

  ghost predicate Selected(leapfrogs: seq<nat>, points: nat, chosen: seq<nat>) {
    |chosen| == points && forall k :: 0 <= k < points ==> Picks(leapfrogs, points, chosen[k], k)
  }

  lemma {:induction false} CumulativeGrows(leapfrogs: seq<nat>, m: nat, n: nat)
    requires m <= n <= |leapfrogs|
    ensures Cumulative(leapfrogs, m) <= Cumulative(leapfrogs, n)
    decreases n - m
  {
    if m < n {
      CumulativeGrows(leapfrogs, m, n - 1);
    }
  }

  lemma ReachesGrows(leapfrogs: seq<nat>, points: nat, m: nat, n: nat, k: nat)
    requires m <= n <= |leapfrogs| && Reaches(leapfrogs, points, m, k)
    ensures Reaches(leapfrogs, points, n, k)
  {
    CumulativeGrows(leapfrogs, m, n);
    var c, d := Cumulative(leapfrogs, m), Cumulative(leapfrogs, n);
    Mono(c, d, 2 * points);
  }

  /** Indices never decrease, so the stored iterations pass the order check, and each did some steps. */
  lemma SelectionIsOrdered(leapfrogs: seq<nat>, points: nat, chosen: seq<nat>, j: nat, k: nat)
    requires Selected(leapfrogs, points, chosen) && j <= k < points
    ensures chosen[j] <= chosen[k] < |leapfrogs| && leapfrogs[chosen[k]] > 0
  {
    assert Picks(leapfrogs, points, chosen[j], j) && Picks(leapfrogs, points, chosen[k], k);
    if chosen[k] < chosen[j] {
      Mono(2 * j + 1, 2 * k + 1, Total(leapfrogs));
      assert Reaches(leapfrogs, points, chosen[k] + 1, j);
      ReachesGrows(leapfrogs, points, chosen[k] + 1, chosen[j], j);
    }
  }

  // ---------------------------------------------------------------- how often an iteration is picked

  /** How many quantiles the first n iterations reach. */
  function QuantilesReached(leapfrogs: seq<nat>, points: nat, n: nat): nat
    requires n <= |leapfrogs| && Total(leapfrogs) > 0
  {
    (2 * points * Cumulative(leapfrogs, n) + Total(leapfrogs)) / (2 * Total(leapfrogs))
  }

  lemma OddMultiples(x: nat, total: nat, k: nat)
    requires total > 0
    ensures x >= (2 * k + 1) * total <==> k < (x + total) / (2 * total)
  {
    var d := 2 * total;
    var q, r := (x + total) / d, (x + total) % d;
    assert x + total == q * d + r;
    assert (2 * k + 1) * total + total == (k + 1) * d;
    if k < q {
      Mono(k + 1, q, d);
    } else {
      Mono(q, k, d);
      assert (k + 1) * d == k * d + d;
    }
  }

  lemma ReachesCounted(leapfrogs: seq<nat>, points: nat, n: nat, k: nat)
    requires n <= |leapfrogs| && Total(leapfrogs) > 0
    ensures Reaches(leapfrogs, points, n, k) <==> k < QuantilesReached(leapfrogs, points, n)
  {
    OddMultiples(2 * points * Cumulative(leapfrogs, n), Total(leapfrogs), k);
  }

  function Times(chosen: seq<nat>, n: nat, i: nat): nat
    requires n <= |chosen|
  {
    if n == 0 then 0 else Times(chosen, n - 1, i) + if chosen[n - 1] == i then 1 else 0
  }

  lemma {:induction false} TimesInRange(chosen: seq<nat>, n: nat, i: nat, lo: nat, hi: nat)
    requires n <= |chosen| && lo <= hi && forall k :: 0 <= k < |chosen| ==> (chosen[k] == i <==> lo <= k < hi)
    ensures Times(chosen, n, i) == if n <= lo then 0 else if n <= hi then n - lo else hi - lo
  {
    if n > 0 {
      TimesInRange(chosen, n - 1, i, lo, hi);
    }
  }

  /** Iteration i is picked for exactly the quantiles it is first to reach. */
  lemma PickedFor(leapfrogs: seq<nat>, points: nat, chosen: seq<nat>, i: nat, k: nat)
    requires Selected(leapfrogs, points, chosen) && Total(leapfrogs) > 0 && i < |leapfrogs| && k < points
    ensures chosen[k] == i <==> QuantilesReached(leapfrogs, points, i) <= k < QuantilesReached(leapfrogs, points, i + 1)
  {
    ReachesCounted(leapfrogs, points, i, k);
    ReachesCounted(leapfrogs, points, i + 1, k);
    var c := chosen[k];
    assert Picks(leapfrogs, points, c, k);
    if Picks(leapfrogs, points, i, k) {
      if c < i {
        ReachesGrows(leapfrogs, points, c + 1, i, k);
      } else if i < c {
        ReachesGrows(leapfrogs, points, i + 1, c, k);
      }
    }
  }

  lemma QuotientDifference(a: nat, b: nat, d: nat)
    requires d > 0
    ensures a / d + b / d <= (a + b) / d <= a / d + b / d + if b % d == 0 then 0 else 1
  {
    var p, r := Decompose(a, d);
    var q, s := Decompose(b, d);
    QuotientSum(p, r, q, s, d);
  }

  lemma HalvesCancel(a: nat, t: nat)
    requires t > 0
    ensures (2 * a) / (2 * t) == a / t && ((2 * a) % (2 * t) == 0 <==> a % t == 0)
  {
    var q, r := a / t, a % t;
    assert 2 * a == q * (2 * t) + 2 * r;
    QuotientIs(2 * a, 2 * t, q, 2 * r);
    assert (2 * a) / (2 * t) * (2 * t) == q * (2 * t);
  }

  lemma ReachedBySoFar(leapfrogs: seq<nat>, points: nat, n: nat)
    requires n <= |leapfrogs| && Total(leapfrogs) > 0
    ensures QuantilesReached(leapfrogs, points, n) <= points
  {
    var total := Total(leapfrogs);
    CumulativeGrows(leapfrogs, n, |leapfrogs|);
    ReachesCounted(leapfrogs, points, n, points);
    Mono(Cumulative(leapfrogs, n), total, 2 * points);
    Mono(2 * points, 2 * points + 1, total);
    assert (2 * points + 1) * total == 2 * points * total + total;
  }

  lemma Share(points: nat, c: nat, l: nat, total: nat)
    requires total > 0
    ensures var lo, hi := (2 * points * c + total) / (2 * total), (2 * points * (c + l) + total) / (2 * total);
            (points * l) / total <= hi - lo <= (points * l) / total + if (points * l) % total == 0 then 0 else 1
  {
    var a, b := 2 * points * c + total, 2 * (points * l);
    assert 2 * points * (c + l) == 2 * points * c + b;
    QuotientDifference(a, b, 2 * total);
    HalvesCancel(points * l, total);
  }

  /** Iteration i is picked floor or ceiling of points * l_i / total times. */
  lemma SelectionIsFair(leapfrogs: seq<nat>, points: nat, chosen: seq<nat>, i: nat)
    requires Selected(leapfrogs, points, chosen) && Total(leapfrogs) > 0 && i < |leapfrogs|
    ensures var share, total := points * leapfrogs[i], Total(leapfrogs);
            share / total <= Times(chosen, points, i) <= share / total + if share % total == 0 then 0 else 1
  {
    var lo, hi := QuantilesReached(leapfrogs, points, i), QuantilesReached(leapfrogs, points, i + 1);
    Share(points, Cumulative(leapfrogs, i), leapfrogs[i], Total(leapfrogs));
    ReachedBySoFar(leapfrogs, points, i + 1);
    forall k | 0 <= k < |chosen| ensures chosen[k] == i <==> lo <= k < hi {
      PickedFor(leapfrogs, points, chosen, i, k);
    }
    assert lo <= hi by {
      QuotientAtLeastZero(points * leapfrogs[i], Total(leapfrogs));
    }
    TimesInRange(chosen, points, i, lo, hi);
  }

  lemma QuotientAtLeastZero(x: nat, d: nat)
    requires d > 0
    ensures x / d >= 0
  { }
}
