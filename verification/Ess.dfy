/** Effective sample size by Geyer's initial monotone sequence, over exact reals.

    `raw[k]` is the estimated autocorrelation at lag k - 1; index 0 is unused, as in the source.
*/
module Ess {
  function Pair(raw: seq<real>, j: nat): real
    requires 2 * j + 2 < |raw|
  {
    raw[2 * j + 1] + raw[2 * j + 2]
  }

  /** The smallest of the pair sums 0 to j. */
  function RunningMin(raw: seq<real>, j: nat): real
    requires 2 * j + 2 < |raw|
  {
    if j == 0 then Pair(raw, 0)
    else if Pair(raw, j) > RunningMin(raw, j - 1) then RunningMin(raw, j - 1) else Pair(raw, j)
  }

  /** How many leading pairs are positive, looking no further than the source's loop does. */
  ghost predicate StopsAt(n: nat, raw: seq<real>, m: nat)
    requires |raw| == n + 1
  {
    && 2 * m + 2 <= n
    && (forall j :: 0 <= j < m ==> Pair(raw, j) > 0.0)
    && (2 * m + 5 >= n || Pair(raw, m) <= 0.0)
    && (m > 0 ==> 2 * m + 4 <= n)
  }

  lemma StopIsUnique(n: nat, raw: seq<real>, l: nat, m: nat)
    requires |raw| == n + 1 && StopsAt(n, raw, l) && StopsAt(n, raw, m)
    ensures l == m
  { }

  /** The single lag after the last pair that counts. */
  function LastEven(raw: seq<real>, m: nat): real
    requires 2 * m + 2 < |raw|
  {
    if Pair(raw, m) >= 0.0 || raw[2 * m + 1] > 0.0 then raw[2 * m + 1] else 0.0
  }

  ghost predicate Copied(rho: seq<real>, raw: seq<real>, m: nat) {
    2 * m < |rho| && 2 * m < |raw| && forall k :: 1 <= k <= 2 * m ==> rho[k] == raw[k]
  }

  /** First pass: keep positive pairs; t stays even and every access is in bounds. */
  method InitialPositive(n: nat, raw: seq<real>) returns (rho: array<real>, maxT: nat)
    requires n >= 3 && |raw| == n + 1 && raw[1] == 1.0
    ensures fresh(rho) && rho.Length == n + 2
    ensures maxT % 2 == 0 && StopsAt(n, raw, maxT / 2) && Copied(rho[..], raw, maxT / 2)
    ensures rho[maxT + 1] == LastEven(raw, maxT / 2)
  {
    rho := new real[n + 2](_ => 0.0);
    var t := 0;
    var even := 1.0;
    rho[t + 1] := even;
    var odd := raw[t + 2];
    rho[t + 2] := odd;
    ghost var m := 0;
    while t < n - 5 && even + odd > 0.0
      invariant t == 2 * m && 2 * m + 2 <= n && (m > 0 ==> 2 * m + 4 <= n)
      invariant even == raw[t + 1] && odd == raw[t + 2]
      invariant forall j :: 0 <= j < m ==> Pair(raw, j) > 0.0
      invariant Copied(rho[..], raw, m)
      invariant if m == 0 || Pair(raw, m) >= 0.0 then rho[t + 1] == even && rho[t + 2] == odd else rho[t + 1] == 0.0
      invariant forall k :: t + 2 < k < n + 2 ==> rho[k] == 0.0
      decreases n - t
    {
      t := t + 2;
      m := m + 1;
      even := raw[t + 1];
      odd := raw[t + 2];
      if even + odd >= 0.0 {
        rho[t + 1] := even;
        rho[t + 2] := odd;
      }
    }
    maxT := t;
    assert maxT / 2 == m;
    if even > 0.0 {
      rho[maxT + 1] := even;
    }
  }

  ghost predicate Lowered(rho: seq<real>, raw: seq<real>, m: nat) {
    2 * m < |rho| && 2 * m < |raw| && forall j :: 0 <= j < m ==> rho[2 * j + 1] + rho[2 * j + 2] == RunningMin(raw, j)
  }

  /** Second pass: a pair larger than its predecessor becomes the predecessor's average, twice. */
  method Monotone(raw: seq<real>, rho: array<real>, maxT: nat)
    requires maxT % 2 == 0 && maxT + 1 < rho.Length && maxT < |raw| && Copied(rho[..], raw, maxT / 2)
    modifies rho
    ensures Lowered(rho[..], raw, maxT / 2)
    ensures rho[maxT + 1] == old(rho[maxT + 1])
  {
    var t := 0;
    ghost var m := maxT / 2;
    ghost var j := 0;
    while t <= maxT - 4
      invariant t == 2 * j && (m > 0 ==> j < m) && (m == 0 ==> j == 0)
      invariant forall i :: 0 <= i <= j && i < m ==> rho[2 * i + 1] + rho[2 * i + 2] == RunningMin(raw, i)
      invariant forall k :: 2 * j + 2 < k <= maxT ==> rho[k] == raw[k]
      invariant rho[maxT + 1] == old(rho[maxT + 1])
      decreases maxT - t
    {
      t := t + 2;
      j := j + 1;
      if rho[t + 1] + rho[t + 2] > rho[t - 1] + rho[t] {
        rho[t + 1] := (rho[t - 1] + rho[t]) / 2.0;
        rho[t + 2] := rho[t + 1];
      }
    }
  }

  function SumTo(rho: seq<real>, n: nat): real
    requires n < |rho|
  {
    if n == 0 then 0.0 else SumTo(rho, n - 1) + rho[n]
  }

  function MinSum(raw: seq<real>, m: nat): real
    requires 2 * m < |raw|
  {
    if m == 0 then 0.0 else MinSum(raw, m - 1) + RunningMin(raw, m - 1)
  }

  lemma {:induction false} PairsAddUp(rho: seq<real>, raw: seq<real>, m: nat)
    requires Lowered(rho, raw, m)
    ensures SumTo(rho, 2 * m) == MinSum(raw, m)
  {
    if m > 0 {
      PairsAddUp(rho, raw, m - 1);
      assert SumTo(rho, 2 * m) == SumTo(rho, 2 * m - 2) + rho[2 * m - 1] + rho[2 * m];
      assert rho[2 * (m - 1) + 1] + rho[2 * (m - 1) + 2] == RunningMin(raw, m - 1);
    }
  }

  function AtLeast(x: real, floor: real): real {
    if x < floor then floor else x
  }

  /** size / tau, where tau counts the running minima of the leading positive pairs and one lag more. */
  method EffectiveSize(n: nat, raw: seq<real>, size: real, log10size: real) returns (ess: real, ghost m: nat)
    requires n >= 3 && |raw| == n + 1 && raw[1] == 1.0 && size > 0.0 && log10size > 0.0
    ensures StopsAt(n, raw, m)
    ensures ess * AtLeast(-1.0 + 2.0 * MinSum(raw, m) + LastEven(raw, m), 1.0 / log10size) == size
    ensures 0.0 < ess <= size * log10size
  {
    var rho, maxT := InitialPositive(n, raw);
    m := maxT / 2;
    Monotone(raw, rho, maxT);
    var sum := 0.0;
    for k := 1 to maxT + 1
      invariant sum == SumTo(rho[..], k - 1)
    {
      sum := sum + rho[k];
    }
    PairsAddUp(rho[..], raw, m);
    var tau := AtLeast(-1.0 + 2.0 * sum + rho[maxT + 1], 1.0 / log10size);
    ess := size / tau;
    Bounded(size, tau, log10size);
  }

  lemma Bounded(size: real, tau: real, l: real)
    requires size > 0.0 && l > 0.0 && tau >= 1.0 / l
    ensures tau > 0.0 && 0.0 < size / tau <= size * l && size / tau * tau == size
  { }

  /** The lowered pair sums are positive and never increase, and none exceeds its raw pair sum. */
  lemma {:induction false} MinimaDecrease(raw: seq<real>, i: nat, j: nat)
    requires i <= j && 2 * j + 2 < |raw| && forall k :: 0 <= k <= j ==> Pair(raw, k) > 0.0
    ensures 0.0 < RunningMin(raw, j) <= RunningMin(raw, i) && RunningMin(raw, j) <= Pair(raw, i)
    ensures exists k :: 0 <= k <= j && RunningMin(raw, j) == Pair(raw, k)
    decreases j
  {
    if j == 0 {
      assert RunningMin(raw, 0) == Pair(raw, 0);
    } else {
      MinimaDecrease(raw, if i < j then i else j - 1, j - 1);
      var k :| 0 <= k <= j - 1 && RunningMin(raw, j - 1) == Pair(raw, k);
      assert RunningMin(raw, j) == Pair(raw, k) || RunningMin(raw, j) == Pair(raw, j);
    }
  }
}
