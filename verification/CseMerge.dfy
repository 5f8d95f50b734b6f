/** Merging active duplicates: the survivor pulls once with the sum of the adjoints, where the original
    graph pulls once per duplicate. For additive pullbacks over a commutative, associative addition no
    parameter sees the difference.
*/
module CseMerge {
  import opened Options
  import opened Sums
  import opened OpGraph
  import opened Cse

  // ---------------------------------------------------------------- additive pullbacks

  /** The update of this input adds an amount that does not depend on the adjoint it replaces. */
  ghost predicate Accumulates<V(!new), W, A(!new)>(k: Kernels<V, W, A>, m: Addition<A>, sig: Sig, j: nat) {
    forall v, o, seed, a :: k.pull(sig, j, v, o, seed, a) == m.add(a, k.pull(sig, j, v, o, seed, m.zero))
  }

  /** That amount is additive in the output's adjoint. */
  ghost predicate Linear<V(!new), W, A(!new)>(k: Kernels<V, W, A>, m: Addition<A>, sig: Sig, j: nat) {
    && (forall v, o :: k.pull(sig, j, v, o, (m.zero, m.zero), m.zero) == m.zero)
    && (forall v, o, a, b ::
          k.pull(sig, j, v, o, (m.add(a, b), m.add(a, b)), m.zero) ==
          m.add(k.pull(sig, j, v, o, (a, a), m.zero), k.pull(sig, j, v, o, (b, b), m.zero)))
  }

  /** Ops accumulate into what they only read, and pure ops do so linearly; an in-place op may do
      anything to the adjoint of a slot that it writes. */
  ghost predicate AdditivePulls<V(!new), W, A(!new)>(k: Kernels<V, W, A>, m: Addition<A>, ops: seq<Op>) {
    forall i: nat, j: nat | i < |ops| && j < |ops[i].ins| && !WritesTo(ops[i], ops[i].ins[j]) ::
      Accumulates(k, m, ops[i].sig, j) && (Pure(k, ops[i]) ==> Linear(k, m, ops[i].sig, j))
  }

  /** What a pullback adds to slot x, for inputs `ins` with values v and output value o. */
  function Amount<V, W, A>(k: Kernels<V, W, A>, m: Addition<A>, sig: Sig, ins: seq<nat>, n: nat, v: seq<V>, o: V,
                           seed: (A, A), x: nat): A
    requires n <= |ins|
  {
    if n == 0 then m.zero else
      m.add(Amount(k, m, sig, ins, n - 1, v, o, seed, x),
            if ins[n - 1] == x then k.pull(sig, n - 1, v, o, seed, m.zero) else m.zero)
  }

  lemma {:induction false} AmountElsewhere<V, W, A(!new)>(k: Kernels<V, W, A>, m: Addition<A>, sig: Sig, ins: seq<nat>,
                                                          n: nat, v: seq<V>, o: V, seed: (A, A), x: nat)
    requires n <= |ins| && Commutes(m) && x !in ins
    ensures Amount(k, m, sig, ins, n, v, o, seed, x) == m.zero
  {
    if n > 0 {
      AmountElsewhere(k, m, sig, ins, n - 1, v, o, seed, x);
      Neutral(m, m.zero);
    }
  }

  lemma {:induction false} AmountOfZero<V(!new), W, A(!new)>(k: Kernels<V, W, A>, m: Addition<A>, sig: Sig,
                                                             ins: seq<nat>, n: nat, v: seq<V>, o: V, x: nat)
    requires n <= |ins| && Commutes(m) && forall j: nat :: j < n ==> Linear(k, m, sig, j)
    ensures Amount(k, m, sig, ins, n, v, o, (m.zero, m.zero), x) == m.zero
  {
    if n > 0 {
      AmountOfZero(k, m, sig, ins, n - 1, v, o, x);
      assert Linear(k, m, sig, n - 1);
      Neutral(m, m.zero);
    }
  }

  lemma {:induction false} AmountAdds<V(!new), W, A(!new)>(k: Kernels<V, W, A>, m: Addition<A>, sig: Sig, ins: seq<nat>,
                                                           n: nat, v: seq<V>, o: V, a: A, b: A, x: nat)
    requires n <= |ins| && Commutes(m) && forall j: nat :: j < n ==> Linear(k, m, sig, j)
    ensures Amount(k, m, sig, ins, n, v, o, (m.add(a, b), m.add(a, b)), x) ==
            m.add(Amount(k, m, sig, ins, n, v, o, (a, a), x), Amount(k, m, sig, ins, n, v, o, (b, b), x))
  {
    Neutral(m, m.zero);
    if n > 0 {
      AmountAdds(k, m, sig, ins, n - 1, v, o, a, b, x);
      assert Linear(k, m, sig, n - 1);
      var d, d' := k.pull(sig, n - 1, v, o, (a, a), m.zero), k.pull(sig, n - 1, v, o, (b, b), m.zero);
      var here := ins[n - 1] == x;
      Interchange(m, Amount(k, m, sig, ins, n - 1, v, o, (a, a), x), Amount(k, m, sig, ins, n - 1, v, o, (b, b), x),
                  if here then d else m.zero, if here then d' else m.zero);
    }
  }

  /** Pulling with a sum of adjoints adds the sum of the amounts. */
  lemma {:induction false} AmountOfTotal<V(!new), W, A(!new)>(k: Kernels<V, W, A>, m: Addition<A>, sig: Sig,
                                                              ins: seq<nat>, v: seq<V>, o: V, x: nat, terms: seq<A>,
                                                              amounts: seq<A>)
    requires Commutes(m) && (forall j: nat :: j < |ins| ==> Linear(k, m, sig, j)) && |terms| == |amounts|
    requires forall y :: 0 <= y < |terms| ==>
      amounts[y] == Amount(k, m, sig, ins, |ins|, v, o, (terms[y], terms[y]), x)
    ensures Amount(k, m, sig, ins, |ins|, v, o, (Total(m, terms), Total(m, terms)), x) == Total(m, amounts)
  {
    if terms == [] {
      AmountOfZero(k, m, sig, ins, |ins|, v, o, x);
    } else {
      var n := |terms| - 1;
      AmountOfTotal(k, m, sig, ins, v, o, x, terms[..n], amounts[..n]);
      AmountAdds(k, m, sig, ins, |ins|, v, o, Total(m, terms[..n]), terms[n], x);
    }
  }

  // ---------------------------------------------------------------- slots that share a name

  function ClassTerms<A>(m: Addition<A>, rename: map<nat, nat>, adj: seq<A>, x: nat): (r: seq<A>)
    ensures |r| == |adj|
    ensures forall y :: 0 <= y < |adj| ==> r[y] == if Through(rename, y) == x then adj[y] else m.zero
  {
    seq(|adj|, y requires 0 <= y < |adj| => if Through(rename, y) == x then adj[y] else m.zero)
  }

  /** The adjoints of all slots that the merged graph calls x. */
  function ClassSum<A>(m: Addition<A>, rename: map<nat, nat>, adj: seq<A>, x: nat): A {
    Total(m, ClassTerms(m, rename, adj, x))
  }

  /** No other slot is called x. */
  ghost predicate Alone(rename: map<nat, nat>, x: nat) {
    forall y: nat :: Through(rename, y) == x ==> y == x
  }

  lemma AloneSum<A(!new)>(m: Addition<A>, rename: map<nat, nat>, adj: seq<A>, x: nat)
    requires Commutes(m) && Alone(rename, x) && x !in rename && x < |adj|
    ensures ClassSum(m, rename, adj, x) == adj[x]
  {
    TotalOfOne(m, ClassTerms(m, rename, adj, x), x);
  }

  lemma ClassGains<A(!new)>(m: Addition<A>, rename: map<nat, nat>, adj: seq<A>, x: nat, y: nat, more: A)
    requires Commutes(m) && y < |adj|
    ensures ClassSum(m, rename, adj[y := m.add(adj[y], more)], x) ==
            m.add(ClassSum(m, rename, adj, x), if Through(rename, y) == x then more else m.zero)
  {
    var terms := ClassTerms(m, rename, adj, x);
    var after := ClassTerms(m, rename, adj[y := m.add(adj[y], more)], x);
    if Through(rename, y) == x {
      TotalAt(m, terms, y, more);
      assert after == terms[y := m.add(terms[y], more)];
    } else {
      assert after == terms;
      Neutral(m, ClassSum(m, rename, adj, x));
    }
  }

  /** A pullback that accumulates everywhere adds its amount to every class of slots. */
  lemma {:induction false} PullAccumulates<V(!new), W, A(!new)>(k: Kernels<V, W, A>, m: Addition<A>,
                                                                rename: map<nat, nat>, op: Op, n: nat, mem: seq<V>,
                                                                seed: (A, A), adj: seq<A>, x: nat)
    requires Commutes(m) && OpInRange(op, |mem|) && |adj| == |mem| && n <= |op.ins|
    requires forall j: nat :: j < n ==> Accumulates(k, m, op.sig, j)
    ensures ClassSum(m, rename, PullInputs(k, op, n, mem, seed, adj), x) ==
            m.add(ClassSum(m, rename, adj, x),
                  Amount(k, m, op.sig, ThroughAll(rename, op.ins), n, Gather(mem, op.ins), mem[op.out], seed, x))
  {
    Neutral(m, ClassSum(m, rename, adj, x));
    if n > 0 {
      PullAccumulates(k, m, rename, op, n - 1, mem, seed, adj, x);
      var before := PullInputs(k, op, n - 1, mem, seed, adj);
      var s := op.ins[n - 1];
      var more := k.pull(op.sig, n - 1, Gather(mem, op.ins), mem[op.out], seed, m.zero);
      assert Accumulates(k, m, op.sig, n - 1);
      ClassGains(m, rename, before, x, s, more);
      var amount := Amount(k, m, op.sig, ThroughAll(rename, op.ins), n - 1, Gather(mem, op.ins), mem[op.out], seed, x);
      Regroup(m, ClassSum(m, rename, adj, x), amount, if Through(rename, s) == x then more else m.zero);
    }
  }

  lemma {:induction false} PullFrame<V, W, A>(k: Kernels<V, W, A>, op: Op, n: nat, mem: seq<V>, seed: (A, A),
                                              adj: seq<A>, s: nat)
    requires OpInRange(op, |mem|) && |adj| == |mem| && n <= |op.ins| && s < |adj| && s !in op.ins
    ensures PullInputs(k, op, n, mem, seed, adj)[s] == adj[s]
  {
    if n > 0 {
      PullFrame(k, op, n - 1, mem, seed, adj, s);
    }
  }

  // ---------------------------------------------------------------- what the pass leaves

  /** No kept op from a up to b writes slot s. */
  ghost predicate Untouched(ops: seq<Op>, ops': seq<Option<Op>>, a: nat, b: nat, s: nat) {
    forall i :: a <= i < b && i < |ops| && i < |ops'| && ops'[i].Some? ==> !WritesTo(ops[i], s)
  }

  /** Two ops that compute the same: same signature, same inputs once renamed, one output of their own. */
  ghost predicate Twins<V, W, A>(k: Kernels<V, W, A>, rename: map<nat, nat>, a: Op, b: Op) {
    && Pure(k, a) && Pure(k, b) && a.sig == b.sig && ThroughAll(rename, a.ins) == ThroughAll(rename, b.ins)
  }

  /** Renamed slot d: its dropped op comes after the survivor's, with no write to the inputs in between. */
  ghost predicate Dropped<V, W, A>(k: Kernels<V, W, A>, ops: seq<Op>, rename: map<nat, nat>, ops': seq<Option<Op>>,
                                   d: nat)
    requires d in rename && |ops'| <= |ops|
  {
    var n, at := FirstWrite(ops, d), FirstWrite(ops, rename[d]);
    && at < n < |ops'| && ops'[n].None? && ops'[at].Some?
    && ops[n].out == d && ops[at].out == rename[d] && Twins(k, rename, ops[at], ops[n])
    && forall j :: 0 <= j < |ops[n].ins| ==> Untouched(ops, ops', at, n, Through(rename, ops[n].ins[j]))
  }

  /** A kept op is the original one with its inputs renamed, and writes no renamed slot. */
  ghost predicate KeptAt(ops: seq<Op>, rename: map<nat, nat>, ops': seq<Option<Op>>, i: nat)
    requires i < |ops| == |ops'|
  {
    && (ops'[i].Some? ==> ops'[i].value.sig == ops[i].sig && ops'[i].value.ins == ThroughAll(rename, ops[i].ins)
                          && ops'[i].value.out == ops[i].out && ops'[i].value.out2 == ops[i].out2
                          && forall s :: WritesTo(ops[i], s) ==> s !in rename)
    && (ops'[i].None? ==> ops[i].out in rename && FirstWrite(ops, ops[i].out) == i)
    && (forall s :: WritesTo(ops[i], s) ==> FirstWrite(ops, s) <= i)
    && (forall d :: d in rename && WritesTo(ops[i], rename[d]) ==> i == FirstWrite(ops, rename[d]))
  }

  ghost predicate DroppedAt<V, W, A>(k: Kernels<V, W, A>, ops: seq<Op>, rename: map<nat, nat>, ops': seq<Option<Op>>,
                                     slots: nat, d: nat)
    requires |ops'| == |ops| && d in rename
  {
    d < slots && rename[d] < slots && rename[d] !in rename && Dropped(k, ops, rename, ops', d)
  }

  ghost predicate Merged<V, W, A>(k: Kernels<V, W, A>, ops: seq<Op>, rename: map<nat, nat>, ops': seq<Option<Op>>,
                                  slots: nat) {
    && |ops'| == |ops| && InRange(ops, slots) && Ranged(ops', slots) && DefinedBeforeUse(ops)
    && (forall d {:trigger DroppedAt(k, ops, rename, ops', slots, d)} ::
          d in rename ==> DroppedAt(k, ops, rename, ops', slots, d))
    && (forall i :: 0 <= i < |ops| ==> KeptAt(ops, rename, ops', i))
  }

  // ---------------------------------------------------------------- amounts still to come

  /** What dropping the writer of d withholds from slot x until its survivor is pulled. */
  function Withheld<V, W, A>(k: Kernels<V, W, A>, m: Addition<A>, ops: seq<Op>, rename: map<nat, nat>, mem: seq<V>,
                             d: nat, a: A, x: nat): A
    requires InRange(ops, |mem|) && FirstWrite(ops, d) < |ops|
  {
    var op := ops[FirstWrite(ops, d)];
    Amount(k, m, op.sig, ThroughAll(rename, op.ins), |op.ins|, Gather(mem, op.ins), mem[op.out], (a, a), x)
  }

  /** The sweep has passed the duplicate but not yet the survivor. */
  predicate Owed(ops: seq<Op>, rename: map<nat, nat>, i: nat, d: nat) {
    d in rename && i <= FirstWrite(ops, d) < |ops| && FirstWrite(ops, rename[d]) < i
  }

  function DebtTerms<V, W, A>(k: Kernels<V, W, A>, m: Addition<A>, ops: seq<Op>, rename: map<nat, nat>, mem: seq<V>,
                              i: nat, adj: seq<A>, x: nat): (r: seq<A>)
    requires InRange(ops, |mem|)
    ensures |r| == |adj|
    ensures forall d :: 0 <= d < |adj| ==>
      r[d] == if Owed(ops, rename, i, d) then Withheld(k, m, ops, rename, mem, d, adj[d], x) else m.zero
  {
    seq(|adj|, d requires 0 <= d < |adj| =>
      if Owed(ops, rename, i, d) then Withheld(k, m, ops, rename, mem, d, adj[d], x) else m.zero)
  }

  function Debt<V, W, A>(k: Kernels<V, W, A>, m: Addition<A>, ops: seq<Op>, rename: map<nat, nat>, mem: seq<V>,
                         i: nat, adj: seq<A>, x: nat): A
    requires InRange(ops, |mem|)
  {
    Total(m, DebtTerms(k, m, ops, rename, mem, i, adj, x))
  }

  /** A slot that a kept op writes is owed nothing by what comes after it. */
  lemma WrittenOwesNothing<V, W, A(!new)>(k: Kernels<V, W, A>, m: Addition<A>, ops: seq<Op>, rename: map<nat, nat>,
                                          ops': seq<Option<Op>>, mem: seq<V>, i: nat, adj: seq<A>, x: nat)
    requires Commutes(m) && Merged(k, ops, rename, ops', |mem|) && |adj| == |mem|
    requires i < |ops| && ops'[i].Some? && WritesTo(ops[i], x)
    ensures Debt(k, m, ops, rename, mem, i + 1, adj, x) == m.zero
  {
    var terms := DebtTerms(k, m, ops, rename, mem, i + 1, adj, x);
    forall d | 0 <= d < |adj| ensures terms[d] == m.zero {
      if Owed(ops, rename, i + 1, d) {
        assert DroppedAt(k, ops, rename, ops', |mem|, d);
        var op := ops[FirstWrite(ops, d)];
        var ins := ThroughAll(rename, op.ins);
        assert x !in ins;
        AmountElsewhere(k, m, op.sig, ins, |ins|, Gather(mem, op.ins), mem[op.out], (adj[d], adj[d]), x);
      }
    }
    TotalOfZeros(m, terms);
  }

  /** Going down from op i, no adjoint of a duplicate behind it changes any more. */
  lemma DuplicatesStay<V, W, A>(k: Kernels<V, W, A>, ops: seq<Op>, mem: seq<V>, i: nat, seed: (A, A), adj: seq<A>,
                                d: nat)
    requires InRange(ops, |mem|) && DefinedBeforeUse(ops) && |adj| == |mem| && i < |ops|
    requires d < |adj| && i <= FirstWrite(ops, d) < |ops|
    ensures PullInputs(k, ops[i], |ops[i].ins|, mem, seed, adj)[d] == adj[d]
  {
    assert d !in ops[i].ins by {
      assert Pending(ops, i, d);
    }
    PullFrame(k, ops[i], |ops[i].ins|, mem, seed, adj, d);
  }
}
