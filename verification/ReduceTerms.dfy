/** The reduction tree: terms are added six at a time until one slot is left. */
module ReduceTerms {
  /** out = the sum of the inputs. */
  datatype Add = Add(ins: seq<nat>, out: nat)

  ghost predicate AllBelow(slots: seq<nat>, n: nat) {
    forall j :: 0 <= j < |slots| ==> slots[j] < n
  }

  lemma BelowSplits(a: seq<nat>, b: seq<nat>, n: nat)
    ensures AllBelow(a + b, n) <==> AllBelow(a, n) && AllBelow(b, n)
  {
    if AllBelow(a + b, n) {
      assert forall j :: 0 <= j < |a| ==> a[j] == (a + b)[j];
      assert forall j :: 0 <= j < |b| ==> b[j] == (a + b)[|a| + j];
    }
  }

  // ---------------------------------------------------------------- what the added ops compute

  ghost function SumAt(mem: seq<real>, slots: seq<nat>): real
    requires AllBelow(slots, |mem|)
  {
    if slots == [] then 0.0 else SumAt(mem, slots[..|slots| - 1]) + mem[slots[|slots| - 1]]
  }

  ghost predicate OpOk(op: Add, out: nat) {
    op.out == out && 2 <= |op.ins| <= 6 && AllBelow(op.ins, out)
  }

  /** Each added op has 2 to 6 inputs, all older than its own new slot. */
  ghost predicate WellBuilt(base: nat, added: seq<Add>) {
    forall i :: 0 <= i < |added| ==> OpOk(added[i], base + i)
  }

  /** The forward sweep: memory before the first added op, then one slot per op. */
  ghost function Forward(base: nat, added: seq<Add>, n: nat, mem: seq<real>): (r: seq<real>)
    requires WellBuilt(base, added) && |mem| == base && n <= |added|
    ensures |r| == base + n
  {
    if n == 0 then mem else
      var before := Forward(base, added, n - 1, mem);
      before + [SumAt(before, added[n - 1].ins)]
  }

  function Count(slots: seq<nat>, s: nat): nat {
    if slots == [] then 0 else Count(slots[..|slots| - 1], s) + if slots[|slots| - 1] == s then 1 else 0
  }

  /** How often slot s is still to be added up after the first n ops. */
  function Left(terms: seq<nat>, added: seq<Add>, n: nat, s: nat): int
    requires n <= |added|
  {
    if n == 0 then Count(terms, s)
    else Left(terms, added, n - 1, s) - Count(added[n - 1].ins, s) + if added[n - 1].out == s then 1 else 0
  }

  ghost predicate TakesFrom(terms: seq<nat>, added: seq<Add>, i: nat)
    requires i < |added|
  {
    forall s: nat :: Count(added[i].ins, s) <= Left(terms, added, i, s)
  }

  /** Every op takes its inputs from what is left, none of them more often than it is there. */
  ghost predicate Consumes(terms: seq<nat>, added: seq<Add>) {
    forall i :: 0 <= i < |added| ==> TakesFrom(terms, added, i)
  }

  ghost predicate Leaves(terms: seq<nat>, added: seq<Add>, cur: seq<nat>) {
    forall s: nat :: Left(terms, added, |added|, s) == Count(cur, s)
  }

  function Excess(added: seq<Add>, n: nat): int
    requires n <= |added|
  {
    if n == 0 then 0 else Excess(added, n - 1) + |added[n - 1].ins| - 1
  }

  // ---------------------------------------------------------------- the invariant of the rounds

  /** The ops added so far leave exactly the slots of cur to be added up, each term being used once. */
  ghost predicate Progress(base: nat, terms: seq<nat>, added: seq<Add>, cur: seq<nat>) {
    && AllBelow(terms, base) && AllBelow(cur, base + |added|)
    && WellBuilt(base, added)
    && Excess(added, |added|) + |cur| == |terms|
    && Consumes(terms, added) && Leaves(terms, added, cur)
  }

  /** Whatever the terms hold, the slots of cur add up to the same. */
  ghost predicate SumKept(base: nat, terms: seq<nat>, added: seq<Add>, cur: seq<nat>) {
    && Progress(base, terms, added, cur)
    && forall mem: seq<real> | |mem| == base :: SumIs(base, terms, added, cur, mem)
  }

  ghost predicate SumIs(base: nat, terms: seq<nat>, added: seq<Add>, cur: seq<nat>, mem: seq<real>)
    requires Progress(base, terms, added, cur) && |mem| == base
  {
    SumAt(Forward(base, added, |added|, mem), cur) == SumAt(mem, terms)
  }

  lemma {:induction false} SumSplits(mem: seq<real>, a: seq<nat>, b: seq<nat>)
    requires AllBelow(a, |mem|) && AllBelow(b, |mem|)
    ensures AllBelow(a + b, |mem|) && SumAt(mem, a + b) == SumAt(mem, a) + SumAt(mem, b)
  {
    BelowSplits(a, b, |mem|);
    if b == [] {
      assert a + b == a;
    } else {
      assert (a + b)[..|a + b| - 1] == a + b[..|b| - 1];
      SumSplits(mem, a, b[..|b| - 1]);
    }
  }

  lemma {:induction false} SumLonger(mem: seq<real>, last: real, a: seq<nat>)
    requires AllBelow(a, |mem|)
    ensures AllBelow(a, |mem + [last]|) && SumAt(mem + [last], a) == SumAt(mem, a)
  {
    if a != [] {
      SumLonger(mem, last, a[..|a| - 1]);
    }
  }

  /** Replacing a chunk by a slot that holds its sum keeps the total. */
  lemma ChunkSum(mem: seq<real>, left: seq<nat>, chunk: seq<nat>, right: seq<nat>)
    requires AllBelow(left, |mem|) && AllBelow(chunk, |mem|) && AllBelow(right, |mem|)
    ensures AllBelow(left + chunk + right, |mem|) && AllBelow(left + [|mem|] + right, |mem| + 1)
    ensures SumAt(mem + [SumAt(mem, chunk)], left + [|mem|] + right) == SumAt(mem, left + chunk + right)
  {
    var sum := SumAt(mem, chunk);
    var after := mem + [sum];
    SumSplits(mem, left, chunk);
    SumSplits(mem, left + chunk, right);
    SumLonger(mem, sum, left);
    SumLonger(mem, sum, right);
    SumSplits(after, left, [|mem|]);
    SumSplits(after, left + [|mem|], right);
    assert SumAt(after, [|mem|]) == SumAt(after, []) + sum;
  }

  lemma {:induction false} CountSplits(a: seq<nat>, b: seq<nat>, s: nat)
    ensures Count(a + b, s) == Count(a, s) + Count(b, s)
  {
    if b == [] {
      assert a + b == a;
    } else {
      assert (a + b)[..|a + b| - 1] == a + b[..|b| - 1];
      CountSplits(a, b[..|b| - 1], s);
    }
  }

  lemma {:induction false} SameLeft(terms: seq<nat>, added: seq<Add>, op: Add, n: nat, s: nat)
    requires n <= |added|
    ensures Left(terms, added + [op], n, s) == Left(terms, added, n, s)
  {
    if n > 0 {
      SameLeft(terms, added, op, n - 1, s);
    }
  }

  lemma {:induction false} SameExcess(added: seq<Add>, op: Add, n: nat)
    requires n <= |added|
    ensures Excess(added + [op], n) == Excess(added, n)
  {
    if n > 0 {
      SameExcess(added, op, n - 1);
    }
  }

  lemma {:induction false} SameForward(base: nat, added: seq<Add>, op: Add, n: nat, mem: seq<real>)
    requires WellBuilt(base, added) && WellBuilt(base, added + [op]) && n <= |added| && |mem| == base
    ensures Forward(base, added + [op], n, mem) == Forward(base, added, n, mem)
  {
    if n > 0 {
      SameForward(base, added, op, n - 1, mem);
    }
  }

  /** Adding up a chunk of what is left is progress. */
  lemma ChunkIsProgress(base: nat, terms: seq<nat>, added: seq<Add>, left: seq<nat>, chunk: seq<nat>, right: seq<nat>)
    requires Progress(base, terms, added, left + chunk + right) && 2 <= |chunk| <= 6
    ensures AllBelow(left, base + |added|) && AllBelow(chunk, base + |added|) && AllBelow(right, base + |added|)
    ensures Progress(base, terms, added + [Add(chunk, base + |added|)], left + [base + |added|] + right)
  {
    var n := base + |added|;
    BelowSplits(left + chunk, right, n);
    BelowSplits(left, chunk, n);
    BelowSplits(left + [n], right, n + 1);
    BelowSplits(left, [n], n + 1);
    ChunkLeaves(terms, added, left, chunk, right, n);
    SameExcess(added, Add(chunk, n), |added|);
  }

  lemma ChunkLeaves(terms: seq<nat>, added: seq<Add>, left: seq<nat>, chunk: seq<nat>, right: seq<nat>, out: nat)
    requires Consumes(terms, added) && Leaves(terms, added, left + chunk + right)
    ensures var added' := added + [Add(chunk, out)];
            Consumes(terms, added') && Leaves(terms, added', left + [out] + right)
  {
    var added' := added + [Add(chunk, out)];
    forall s: nat
      ensures Left(terms, added', |added'|, s) == Count(left + [out] + right, s)
      ensures Count(chunk, s) <= Left(terms, added, |added|, s)
    {
      ChunkCounts(terms, added, left, chunk, right, out, s);
    }
    forall i | 0 <= i < |added'| ensures TakesFrom(terms, added', i) {
      if i < |added| {
        assert TakesFrom(terms, added, i);
      }
      forall s: nat ensures Count(added'[i].ins, s) <= Left(terms, added', i, s) {
        SameLeft(terms, added, Add(chunk, out), i, s);
      }
    }
  }

  lemma ChunkCounts(terms: seq<nat>, added: seq<Add>, left: seq<nat>, chunk: seq<nat>, right: seq<nat>, out: nat,
                    s: nat)
    requires Left(terms, added, |added|, s) == Count(left + chunk + right, s)
    ensures Left(terms, added + [Add(chunk, out)], |added| + 1, s) == Count(left + [out] + right, s)
    ensures Count(chunk, s) <= Left(terms, added, |added|, s)
  {
    SameLeft(terms, added, Add(chunk, out), |added|, s);
    CountSplits(left + chunk, right, s);
    CountSplits(left, chunk, s);
    CountSplits(left + [out], right, s);
    CountSplits(left, [out], s);
    assert Count([out], s) == Count([], s) + if out == s then 1 else 0;
  }

  lemma ChunkKeepsSum(base: nat, terms: seq<nat>, added: seq<Add>, left: seq<nat>, chunk: seq<nat>, right: seq<nat>)
    requires SumKept(base, terms, added, left + chunk + right) && 2 <= |chunk| <= 6
    ensures SumKept(base, terms, added + [Add(chunk, base + |added|)], left + [base + |added|] + right)
  {
    var op := Add(chunk, base + |added|);
    ChunkIsProgress(base, terms, added, left, chunk, right);
    forall mem: seq<real> | |mem| == base ensures SumIs(base, terms, added + [op], left + [op.out] + right, mem) {
      assert SumIs(base, terms, added, left + chunk + right, mem);
      SameForward(base, added, op, |added|, mem);
      ChunkSum(Forward(base, added, |added|, mem), left, chunk, right);
    }
  }

  lemma Regroup(left: seq<nat>, cur: seq<nat>, i: nat, n: nat)
    requires i + n <= |cur|
    ensures left + cur[i..] == left + cur[i..i + n] + cur[i + n..]
  { }

  /** Cut into sixes, the first i slots of cur became next: one addition per chunk in order, except that
      a single slot left over is passed on. */
  ghost predicate Sixes(cur: seq<nat>, base: nat, i: nat, next: seq<nat>, made: seq<Add>) {
    && i <= |cur| && |next| == (i + 5) / 6 && |made| == (i + 4) / 6 && (i < |cur| ==> i % 6 == 0)
    && (forall k :: 0 <= k < |made| ==>
          next[k] == base + k && made[k] == Add(cur[6 * k..if 6 * k + 6 < i then 6 * k + 6 else i], base + k))
    && (i % 6 == 1 ==> next[|next| - 1] == cur[i - 1])
  }

  lemma SixMore(cur: seq<nat>, base: nat, i: nat, n: nat, next: seq<nat>, made: seq<Add>, item: nat, more: seq<Add>)
    requires Sixes(cur, base, i, next, made) && i < |cur| && n == if |cur| - i < 6 then |cur| - i else 6
    requires if n == 1 then more == [] && item == cur[i]
             else item == base + |made| && more == [Add(cur[i..i + n], item)]
    ensures Sixes(cur, base, i + n, next + [item], made + more)
  {
    var q := i / 6;
    assert i == 6 * q;
    assert (i + n + 5) / 6 == q + 1 && (i + n + 4) / 6 == q + |more|;
  }

  /** How many additions reduce n terms: six terms, or what is left of at least two, make one. */
  function Additions(n: nat): nat {
    if n <= 1 then 0 else (n + 4) / 6 + Additions((n + 5) / 6)
  }

  class Graph {
    var slots: nat
    var ops: seq<Add>

    /** The graph is what it was before, then the ops added since. */
    ghost predicate Holds(before: seq<Add>, base: nat, added: seq<Add>)
      reads this
    {
      ops == before + added && slots == base + |added|
    }

    /** A single term is passed on, more become one addition; left and right are what else is to be added up. */
    method Take(chunk: seq<nat>, ghost before: seq<Add>, ghost base: nat, ghost added: seq<Add>, ghost terms: seq<nat>,
                ghost left: seq<nat>, ghost right: seq<nat>) returns (item: nat, ghost more: seq<Add>)
      requires Holds(before, base, added) && 1 <= |chunk| <= 6 && SumKept(base, terms, added, left + chunk + right)
      modifies this
      ensures Holds(before, base, added + more) && SumKept(base, terms, added + more, left + [item] + right)
      ensures if |chunk| == 1 then more == [] && item == chunk[0]
              else more == [Add(chunk, item)] && item == base + |added|
    {
      if |chunk| == 1 {
        item, more := chunk[0], [];
        assert chunk == [item] && added + more == added;
      } else {
        ChunkKeepsSum(base, terms, added, left, chunk, right);
        item := slots;
        more := [Add(chunk, item)];
        ops := ops + [Add(chunk, item)];
        slots := slots + 1;
        assert before + added + more == before + (added + more);
      }
    }

    /** One round: chunks of six become one new slot each, a single term left over is passed on. */
    method Round(cur: seq<nat>, ghost before: seq<Add>, ghost base: nat, ghost added: seq<Add>, ghost terms: seq<nat>)
      returns (next: seq<nat>, ghost more: seq<Add>)
      requires |cur| > 1 && Holds(before, base, added) && SumKept(base, terms, added, cur)
      modifies this
      ensures Holds(before, base, added + more) && SumKept(base, terms, added + more, next) && 1 <= |next| < |cur|
      ensures Sixes(cur, base + |added|, |cur|, next, more)
    {
      next, more := [], [];
      var i := 0;
      assert next + cur[i..] == cur && added + more == added;
      while i < |cur|
        invariant i <= |cur| && Holds(before, base, added + more)
        invariant SumKept(base, terms, added + more, next + cur[i..])
        invariant Sixes(cur, base + |added|, i, next, more)
      {
        next, more, i := TakeSix(cur, i, next, more, before, base, added, terms);
      }
      assert next + cur[i..] == next;
    }

    method TakeSix(cur: seq<nat>, i: nat, next: seq<nat>, ghost more: seq<Add>, ghost before: seq<Add>,
                   ghost base: nat, ghost added: seq<Add>, ghost terms: seq<nat>)
      returns (next': seq<nat>, ghost more': seq<Add>, i': nat)
      requires i < |cur| && |cur| > 1 && Holds(before, base, added + more)
      requires SumKept(base, terms, added + more, next + cur[i..])
      requires Sixes(cur, base + |added|, i, next, more)
      modifies this
      ensures i < i' <= |cur| && Holds(before, base, added + more')
      ensures SumKept(base, terms, added + more', next' + cur[i'..]) && Sixes(cur, base + |added|, i', next', more')
    {
      var n := if |cur| - i < 6 then |cur| - i else 6;
      var item;
      ghost var one;
      item, one := TakeNext(cur, i, n, next, more, before, base, added, terms);
      SixMore(cur, base + |added|, i, n, next, more, item, one);
      next', more', i' := next + [item], more + one, i + n;
    }

    method TakeNext(cur: seq<nat>, i: nat, n: nat, ghost next: seq<nat>, ghost more: seq<Add>,
                    ghost before: seq<Add>, ghost base: nat, ghost added: seq<Add>, ghost terms: seq<nat>)
      returns (item: nat, ghost one: seq<Add>)
      requires 1 <= n <= 6 && i + n <= |cur| && Holds(before, base, added + more)
      requires SumKept(base, terms, added + more, next + cur[i..])
      modifies this
      ensures Holds(before, base, added + (more + one))
      ensures SumKept(base, terms, added + (more + one), (next + [item]) + cur[i + n..])
      ensures if n == 1 then one == [] && item == cur[i]
              else item == base + |added + more| && one == [Add(cur[i..i + n], item)]
    {
      Regroup(next, cur, i, n);
      item, one := Take(cur[i..i + n], before, base, added + more, terms, next, cur[i + n..]);
      assert added + more + one == added + (more + one);
    }

    /** Only additions of 2 to 6 older slots are appended, six terms at a time; every term is used exactly once, and for
        whatever memory the terms live in, the result is their sum. */
    method ReduceTerms(terms: seq<nat>) returns (result: nat, ghost added: seq<Add>)
      requires terms != [] && AllBelow(terms, slots)
      modifies this
      ensures ops == old(ops) + added && slots == old(slots) + |added|
      ensures Progress(old(slots), terms, added, [result]) && result < old(slots) + |added|
      ensures |added| == Additions(|terms|) && (2 <= |terms| <= 6 ==> added == [Add(terms, old(slots))])
      ensures forall mem: seq<real> | |mem| == old(slots) ::
        Forward(old(slots), added, |added|, mem)[result] == SumAt(mem, terms)
    {
      ghost var base, before := slots, ops;
      var cur := terms;
      added := [];
      while |cur| > 1
        invariant cur != [] && Holds(before, base, added)
        invariant SumKept(base, terms, added, cur)
        invariant |added| + Additions(|cur|) == Additions(|terms|) && (added == [] ==> cur == terms)
        invariant 2 <= |terms| <= 6 && added != [] ==> added == [Add(terms, base)] && |cur| == 1
        decreases |cur|
      {
        ghost var was, more := cur, [];
        cur, more := Round(cur, before, base, added, terms);
        added := added + more;
        assert |terms| <= 6 ==> was == terms == was[..|was|] && more == [Add(was[0..|was|], base)];
      }
      assert cur == [cur[0]];
      result := cur[0];
      assert [result][0] < base + |added|;
      forall mem: seq<real> | |mem| == base ensures Forward(base, added, |added|, mem)[result] == SumAt(mem, terms) {
        ResultIsTheSum(base, terms, added, result, mem);
      }
    }
  }

  // ---------------------------------------------------------------- the gradient

  ghost function Pull(ins: seq<nat>, seed: real, adj: seq<real>): (r: seq<real>)
    requires AllBelow(ins, |adj|)
    ensures |r| == |adj|
  {
    if ins == [] then adj else
      var before := Pull(ins[..|ins| - 1], seed, adj);
      before[ins[|ins| - 1] := before[ins[|ins| - 1]] + seed]
  }

  /** The reverse sweep down to op i. */
  ghost function Backward(base: nat, added: seq<Add>, i: nat, adj: seq<real>): (r: seq<real>)
    requires WellBuilt(base, added) && i <= |added| && |adj| == base + |added|
    ensures |r| == |adj|
    decreases |added| - i
  {
    if i == |added| then adj else
      var after := Backward(base, added, i + 1, adj);
      assert OpOk(added[i], base + i);
      Pull(added[i].ins, after[added[i].out], after)
  }

  lemma {:induction false} PullCounts(ins: seq<nat>, adj: seq<real>, s: nat)
    requires AllBelow(ins, |adj|) && s < |adj|
    ensures Pull(ins, 1.0, adj)[s] == adj[s] + Count(ins, s) as real
  {
    if ins != [] {
      PullCounts(ins[..|ins| - 1], adj, s);
    }
  }

  lemma {:induction false} NoneAbove(slots: seq<nat>, n: nat, s: nat)
    requires AllBelow(slots, n) && s >= n
    ensures Count(slots, s) == 0
  {
    if slots != [] {
      NoneAbove(slots[..|slots| - 1], n, s);
    }
  }

  lemma {:induction false} LeftIsOld(base: nat, terms: seq<nat>, added: seq<Add>, n: nat, s: nat)
    requires WellBuilt(base, added) && n <= |added| && AllBelow(terms, base) && s >= base + n
    ensures Left(terms, added, n, s) == 0
  {
    if n == 0 {
      NoneAbove(terms, base, s);
    } else {
      assert OpOk(added[n - 1], base + (n - 1));
      LeftIsOld(base, terms, added, n - 1, s);
      NoneAbove(added[n - 1].ins, base + (n - 1), s);
    }
  }

  ghost predicate Seeded(adj: seq<real>, result: nat) {
    forall s :: 0 <= s < |adj| ==> adj[s] == if s == result then 1.0 else 0.0
  }

  ghost predicate Counts(adj: seq<real>, terms: seq<nat>, added: seq<Add>, base: nat, i: nat)
    requires i <= |added|
  {
    base + i <= |adj| && forall s :: 0 <= s < base + i ==> adj[s] == Left(terms, added, i, s) as real
  }

  /** Before op i, a slot's adjoint is the number of times it is still to be added up. */
  lemma {:induction false} AdjointsCount(base: nat, terms: seq<nat>, added: seq<Add>, result: nat, i: nat,
                                         adj: seq<real>)
    requires Progress(base, terms, added, [result]) && i <= |added| && |adj| == base + |added| && Seeded(adj, result)
    ensures Counts(Backward(base, added, i, adj), terms, added, base, i)
    decreases |added| - i
  {
    if i == |added| {
      forall s: nat | s < base + i ensures Left(terms, added, i, s) == if s == result then 1 else 0 {
        assert Count([result], s) == Count([], s) + if result == s then 1 else 0;
      }
    } else {
      AdjointsCount(base, terms, added, result, i + 1, adj);
      OpCounts(base, terms, added, i, Backward(base, added, i + 1, adj));
    }
  }

  lemma OpCounts(base: nat, terms: seq<nat>, added: seq<Add>, i: nat, after: seq<real>)
    requires i < |added| && WellBuilt(base, added) && AllBelow(terms, base) && Counts(after, terms, added, base, i + 1)
    ensures AllBelow(added[i].ins, |after|) && added[i].out < |after|
    ensures Counts(Pull(added[i].ins, after[added[i].out], after), terms, added, base, i)
  {
    var op := added[i];
    assert OpOk(op, base + i);
    LeftIsOld(base, terms, added, i, op.out);
    NoneAbove(op.ins, op.out, op.out);
    assert after[op.out] == 1.0;
    forall s: nat | s < base + i ensures Pull(op.ins, 1.0, after)[s] == Left(terms, added, i, s) as real {
      PullCounts(op.ins, after, s);
      AsReal(Left(terms, added, i + 1, s), Count(op.ins, s));
    }
  }

  lemma AsReal(a: int, b: int)
    ensures a as real + b as real == (a + b) as real
  { }

  /** Seeding the result with 1 gives every term the adjoint 1, once per occurrence. */
  lemma TermsGetOne(base: nat, terms: seq<nat>, added: seq<Add>, result: nat, adj: seq<real>, j: nat)
    requires Progress(base, terms, added, [result]) && |adj| == base + |added| && j < |terms| && Seeded(adj, result)
    ensures Backward(base, added, 0, adj)[terms[j]] == Count(terms, terms[j]) as real
  {
    AdjointsCount(base, terms, added, result, 0, adj);
  }

  /** The forward sweep yields the sum of the terms. */
  lemma ResultIsTheSum(base: nat, terms: seq<nat>, added: seq<Add>, result: nat, mem: seq<real>)
    requires SumKept(base, terms, added, [result]) && |mem| == base
    ensures Forward(base, added, |added|, mem)[result] == SumAt(mem, terms)
  {
    assert SumIs(base, terms, added, [result], mem);
    var after := Forward(base, added, |added|, mem);
    assert SumAt(after, [result]) == SumAt(after, []) + after[result];
  }
}
