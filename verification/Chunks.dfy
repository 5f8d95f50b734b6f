/** The fixed partition of observations 1..n into contiguous chunks. */
module Chunks {
  import opened Arithmetic

  /** The largest value of a 32-bit `int` and of a 64-bit `int64_t`. */
  const INT_MAX: int := 0x7fff_ffff
  const INT64_MAX: int := 0x7fff_ffff_ffff_ffff

  /** Chunk k covers the observations after cut k up to and including cut k + 1. */
  function Cuts(n: nat, chunks: nat): (r: seq<int>)
    requires chunks > 0
    ensures |r| == chunks + 1
  {
    seq(chunks + 1, (k: nat) => n * k / chunks)
  }

  predicate InChunk(cuts: seq<int>, k: nat, i: int)
    requires k + 1 < |cuts|
  {
    cuts[k] + 1 <= i <= cuts[k + 1]
  }

  lemma QuotientSplit(a: nat, b: nat, d: nat)
    requires d > 0
    ensures a / d + b / d <= (a + b) / d <= a / d + b / d + (if b % d == 0 then 0 else 1)
  {
    var p, r := Decompose(a, d);
    var q, r' := Decompose(b, d);
    QuotientSum(p, r, q, r', d);
  }

  /** Cut k lies at the share k / chunks of n, rounded down: the cuts run from 0 to n and each chunk holds the
      floor or the ceiling of n / chunks observations. */
  lemma CutsAreEven(n: nat, chunks: nat)
    requires chunks > 0
    ensures var cuts := Cuts(n, chunks);
            && cuts[0] == 0 && cuts[chunks] == n
            && forall k :: 0 <= k < chunks ==>
                 n / chunks <= cuts[k + 1] - cuts[k] <= n / chunks + (if n % chunks == 0 then 0 else 1)
    ensures var cuts := Cuts(n, chunks);
            forall k :: 0 <= k <= chunks ==> cuts[k] * chunks <= n * k < (cuts[k] + 1) * chunks
  {
    var cuts := Cuts(n, chunks);
    forall k | 0 <= k <= chunks ensures cuts[k] * chunks <= n * k < (cuts[k] + 1) * chunks {
      var q, r := Decompose(n * k, chunks);
      assert cuts[k] == q && (q + 1) * chunks == q * chunks + chunks;
    }
    QuotientIs(n * chunks, chunks, n, 0);
    QuotientIs(0, chunks, 0, 0);
    assert n * 0 == 0;
    forall k | 0 <= k < chunks
      ensures n / chunks <= cuts[k + 1] - cuts[k] <= n / chunks + (if n % chunks == 0 then 0 else 1)
    {
      assert n * (k + 1) == n * k + n;
      QuotientSplit(n * k, n, chunks);
    }
  }

  lemma {:induction false} Ascending(cuts: seq<int>, k: nat, k': nat)
    requires k <= k' < |cuts|
    requires forall k :: 0 <= k < |cuts| - 1 ==> cuts[k] <= cuts[k + 1]
    ensures cuts[k] <= cuts[k']
    decreases k' - k
  {
    if k < k' {
      Ascending(cuts, k, k' - 1);
      assert cuts[k' - 1] <= cuts[k' - 1 + 1];
    }
  }

  lemma {:induction false} FirstReaching(cuts: seq<int>, i: int, top: nat) returns (k: nat)
    requires top + 1 < |cuts| && cuts[0] < i <= cuts[top + 1]
    ensures k <= top && InChunk(cuts, k, i)
  {
    if top == 0 || i > cuts[top] {
      k := top;
    } else {
      k := FirstReaching(cuts, i, top - 1);
    }
  }

  /** Every observation 1..n lies in exactly one chunk, and nothing else lies in any. */
  lemma ChunksPartition(n: nat, chunks: nat, i: int)
    requires chunks > 0
    ensures 1 <= i <= n <==> exists k :: 0 <= k < chunks && InChunk(Cuts(n, chunks), k, i)
    ensures forall k, k' | 0 <= k < k' < chunks ::
      !(InChunk(Cuts(n, chunks), k, i) && InChunk(Cuts(n, chunks), k', i))
  {
    var cuts := Cuts(n, chunks);
    CutsAreEven(n, chunks);
    assert n / chunks >= 0;
    if 1 <= i <= n {
      var k := FirstReaching(cuts, i, chunks - 1);
    }
    forall k | 0 <= k < chunks && InChunk(cuts, k, i) ensures 1 <= i <= n {
      Ascending(cuts, 0, k);
      Ascending(cuts, k + 1, chunks);
    }
    forall k, k' | 0 <= k < k' < chunks ensures !(InChunk(cuts, k, i) && InChunk(cuts, k', i)) {
      Ascending(cuts, k + 1, k');
    }
  }

  lemma ProductFits(n: nat, k: nat)
    requires n <= INT_MAX && k <= INT_MAX
    ensures n * k <= INT64_MAX
  {
    Mono(n, INT_MAX, k);
  }

  lemma CutsBounded(n: nat, chunks: nat, k: nat)
    requires chunks > 0 && k <= chunks
    ensures 0 <= Cuts(n, chunks)[k] <= n
  { }

  /** With `int` sizes the products are formed in 64 bits and never overflow, and every cut fits `int`. */
  lemma NoOverflow(n: nat, chunks: nat)
    requires n <= INT_MAX && 0 < chunks <= INT_MAX
    ensures forall k :: 0 <= k <= chunks ==> n * k <= INT64_MAX
    ensures forall k :: 0 <= k <= chunks ==> 0 <= Cuts(n, chunks)[k] <= INT_MAX
  {
    forall k | 0 <= k <= chunks ensures n * k <= INT64_MAX { ProductFits(n, k); }
    forall k | 0 <= k <= chunks ensures 0 <= Cuts(n, chunks)[k] <= INT_MAX { CutsBounded(n, chunks, k); }
  }
}
