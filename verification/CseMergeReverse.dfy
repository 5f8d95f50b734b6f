/** The reverse sweeps of the original graph and of the one with active duplicates merged, op by op: the
    adjoints of all slots that share a name add up to the merged adjoint and what its duplicates still owe.
*/
module CseMergeReverse {
  import opened Options
  import opened Sums
  import opened OpGraph
  import opened Cse
  import opened CseReverse
  import opened CseMerge

  /** What the two sweeps and their graphs have in common at every op. */
  ghost predicate Setting<V(!new), W, A(!new)>(k: Kernels<V, W, A>, m: Addition<A>, ops: seq<Op>, rename: map<nat, nat>,
                                               ops': seq<Option<Op>>, mem: seq<V>, mem': seq<V>) {
    && Commutes(m) && AdditivePulls(k, m, ops) && Merged(k, ops, rename, ops', |mem|)
    && SameRenamed(rename, mem, mem')
  }

  predicate BalancedAt<V, W, A(==)>(k: Kernels<V, W, A>, m: Addition<A>, ops: seq<Op>, rename: map<nat, nat>,
                                    mem: seq<V>, i: nat, adj: seq<A>, adj': seq<A>, x: nat)
    requires InRange(ops, |mem|) && |adj| == |adj'|
  {
    x < |adj| && x !in rename ==>
      ClassSum(m, rename, adj, x) == m.add(adj'[x], Debt(k, m, ops, rename, mem, i, adj, x))
  }

  ghost predicate Balanced<V, W, A>(k: Kernels<V, W, A>, m: Addition<A>, ops: seq<Op>, rename: map<nat, nat>,
                                    mem: seq<V>, i: nat, adj: seq<A>, adj': seq<A>) {
    && InRange(ops, |mem|) && |adj| == |adj'| == |mem|
    && forall x :: BalancedAt(k, m, ops, rename, mem, i, adj, adj', x)
  }

  /** A pure op whose output is written here for the first time accumulates linearly into every input. */
  lemma PureAccumulates<V(!new), W, A(!new)>(k: Kernels<V, W, A>, m: Addition<A>, ops: seq<Op>, i: nat)
    requires AdditivePulls(k, m, ops) && DefinedBeforeUse(ops) && i < |ops| && Pure(k, ops[i])
    requires FirstWrite(ops, ops[i].out) == i
    ensures forall j: nat :: j < |ops[i].ins| ==> Accumulates(k, m, ops[i].sig, j) && Linear(k, m, ops[i].sig, j)
  {
    forall j: nat | j < |ops[i].ins| ensures Accumulates(k, m, ops[i].sig, j) && Linear(k, m, ops[i].sig, j) {
      assert !Pending(ops, i, ops[i].ins[j]);
      assert !WritesTo(ops[i], ops[i].ins[j]);
    }
  }

  /** The adjoints after the original's pull of op i. */
  function Pulled<V, W, A>(k: Kernels<V, W, A>, ops: seq<Op>, mem: seq<V>, i: nat, adj: seq<A>): (r: seq<A>)
    requires InRange(ops, |mem|) && |adj| == |mem| && i < |ops|
    ensures |r| == |adj|
  {
    PullInputs(k, ops[i], |ops[i].ins|, mem, SeedOf(ops[i], adj), adj)
  }

  /** A debt that neither begins nor ends at op i. */
  lemma SameTerm<V, W, A>(k: Kernels<V, W, A>, m: Addition<A>, ops: seq<Op>, rename: map<nat, nat>, mem: seq<V>, i: nat,
                          adj: seq<A>, x: nat, d: nat)
    requires InRange(ops, |mem|) && DefinedBeforeUse(ops) && |adj| == |mem| && i < |ops| && d < |adj|
    requires d in rename ==> FirstWrite(ops, d) != i && FirstWrite(ops, rename[d]) != i
    ensures DebtTerms(k, m, ops, rename, mem, i, Pulled(k, ops, mem, i, adj), x)[d] ==
            DebtTerms(k, m, ops, rename, mem, i + 1, adj, x)[d]
  {
    if Owed(ops, rename, i, d) {
      DuplicatesStay(k, ops, mem, i, SeedOf(ops[i], adj), adj, d);
    }
  }

  // ---------------------------------------------------------------- a dropped op

  /** The original pulls here and the merged graph does not: the amount becomes a debt. */
  lemma DroppedStep<V(!new), W, A(!new)>(k: Kernels<V, W, A>, m: Addition<A>, ops: seq<Op>, rename: map<nat, nat>,
                                         ops': seq<Option<Op>>, mem: seq<V>, mem': seq<V>, i: nat, adj: seq<A>,
                                         adj': seq<A>)
    requires Setting(k, m, ops, rename, ops', mem, mem') && i < |ops| && ops'[i].None?
    requires Balanced(k, m, ops, rename, mem, i + 1, adj, adj')
    ensures Balanced(k, m, ops, rename, mem, i, Pulled(k, ops, mem, i, adj), adj')
  {
    var op := ops[i];
    var d := op.out;
    var seed := SeedOf(op, adj);
    var full := Pulled(k, ops, mem, i, adj);
    assert KeptAt(ops, rename, ops', i);
    assert DroppedAt(k, ops, rename, ops', |mem|, d);
    PureAccumulates(k, m, ops, i);
    forall x: nat ensures BalancedAt(k, m, ops, rename, mem, i, full, adj', x) {
      assert BalancedAt(k, m, ops, rename, mem, i + 1, adj, adj', x);
      PullAccumulates(k, m, rename, op, |op.ins|, mem, seed, adj, x);
      DroppedDebt(k, m, ops, rename, ops', mem, i, adj, x);
      if x < |adj| {
        Regroup(m, adj'[x], Debt(k, m, ops, rename, mem, i + 1, adj, x),
                Withheld(k, m, ops, rename, mem, d, adj[d], x));
      }
    }
  }

  lemma DroppedDebt<V(!new), W, A(!new)>(k: Kernels<V, W, A>, m: Addition<A>, ops: seq<Op>, rename: map<nat, nat>,
                                         ops': seq<Option<Op>>, mem: seq<V>, i: nat, adj: seq<A>, x: nat)
    requires Commutes(m) && Merged(k, ops, rename, ops', |mem|) && |adj| == |mem| && i < |ops| && ops'[i].None?
    ensures ops[i].out in rename && FirstWrite(ops, ops[i].out) == i
    ensures Debt(k, m, ops, rename, mem, i, Pulled(k, ops, mem, i, adj), x) ==
            m.add(Debt(k, m, ops, rename, mem, i + 1, adj, x),
                  Withheld(k, m, ops, rename, mem, ops[i].out, adj[ops[i].out], x))
  {
    var d := ops[i].out;
    var full := Pulled(k, ops, mem, i, adj);
    assert KeptAt(ops, rename, ops', i);
    var before := DebtTerms(k, m, ops, rename, mem, i + 1, adj, x);
    var after := DebtTerms(k, m, ops, rename, mem, i, full, x);
    var more := Withheld(k, m, ops, rename, mem, d, adj[d], x);
    forall y | 0 <= y < |adj| && y != d ensures after[y] == before[y] {
      if y in rename {
        assert DroppedAt(k, ops, rename, ops', |mem|, y);
      }
      SameTerm(k, m, ops, rename, mem, i, adj, x, y);
    }
    assert DroppedAt(k, ops, rename, ops', |mem|, d);
    DuplicatesStay(k, ops, mem, i, SeedOf(ops[i], adj), adj, d);
    Neutral(m, more);
    assert after == before[d := m.add(before[d], more)];
    TotalAt(m, before, d, more);
  }

  // ---------------------------------------------------------------- a kept op that survives no duplicate

  /** No duplicate took its name from this op. */
  predicate NoSurvivor(ops: seq<Op>, rename: map<nat, nat>, i: nat) {
    forall d :: d in rename ==> FirstWrite(ops, rename[d]) != i
  }

  /** Outside the survivors and their duplicates no debt begins or ends. */
  lemma SameDebt<V, W, A(!new)>(k: Kernels<V, W, A>, m: Addition<A>, ops: seq<Op>, rename: map<nat, nat>,
                                ops': seq<Option<Op>>, mem: seq<V>, i: nat, adj: seq<A>, x: nat)
    requires Merged(k, ops, rename, ops', |mem|) && |adj| == |mem| && i < |ops| && ops'[i].Some?
    requires NoSurvivor(ops, rename, i)
    ensures Debt(k, m, ops, rename, mem, i, Pulled(k, ops, mem, i, adj), x) ==
            Debt(k, m, ops, rename, mem, i + 1, adj, x)
  {
    var full := Pulled(k, ops, mem, i, adj);
    var before := DebtTerms(k, m, ops, rename, mem, i + 1, adj, x);
    var after := DebtTerms(k, m, ops, rename, mem, i, full, x);
    forall y | 0 <= y < |adj| ensures after[y] == before[y] {
      if y in rename {
        assert DroppedAt(k, ops, rename, ops', |mem|, y);
      }
      SameTerm(k, m, ops, rename, mem, i, adj, x, y);
    }
    assert after == before;
  }

  /** A slot that the op writes has the same adjoint in both sweeps. */
  lemma WrittenAgrees<V(!new), W, A(!new)>(k: Kernels<V, W, A>, m: Addition<A>, ops: seq<Op>, rename: map<nat, nat>,
                                           ops': seq<Option<Op>>, mem: seq<V>, i: nat, adj: seq<A>, adj': seq<A>,
                                           s: nat)
    requires Commutes(m) && Merged(k, ops, rename, ops', |mem|) && i < |ops| && ops'[i].Some?
    requires Balanced(k, m, ops, rename, mem, i + 1, adj, adj') && WritesTo(ops[i], s)
    ensures s < |adj| && s !in rename && adj'[s] == ClassSum(m, rename, adj, s)
    ensures NoSurvivor(ops, rename, i) ==> Alone(rename, s) && adj'[s] == adj[s]
  {
    assert KeptAt(ops, rename, ops', i);
    assert OpInRange(ops[i], |mem|);
    WrittenOwesNothing(k, m, ops, rename, ops', mem, i, adj, s);
    assert BalancedAt(k, m, ops, rename, mem, i + 1, adj, adj', s);
    Neutral(m, adj'[s]);
    if NoSurvivor(ops, rename, i) {
      AloneSum(m, rename, adj, s);
    }
  }

  predicate LevelAt<A(==)>(m: Addition<A>, rename: map<nat, nat>, adj: seq<A>, adj': seq<A>, debt: seq<A>, x: nat) {
    x < |adj| == |adj'| == |debt| && x !in rename ==> ClassSum(m, rename, adj, x) == m.add(adj'[x], debt[x])
  }

  ghost predicate Level<A>(m: Addition<A>, rename: map<nat, nat>, adj: seq<A>, adj': seq<A>, debt: seq<A>) {
    |adj| == |adj'| == |debt| && forall x :: LevelAt(m, rename, adj, adj', debt, x)
  }

  /** A slot with a name of its own and no debt holds the same in both sweeps and may be set to anything. */
  lemma SetAlone<A(!new)>(m: Addition<A>, rename: map<nat, nat>, adj: seq<A>, adj': seq<A>, debt: seq<A>, s: nat, a: A)
    requires Commutes(m) && Level(m, rename, adj, adj', debt)
    requires s < |adj| && s !in rename && Alone(rename, s) && debt[s] == m.zero
    ensures adj[s] == adj'[s] && Level(m, rename, adj[s := a], adj'[s := a], debt)
  {
    AloneSum(m, rename, adj, s);
    Neutral(m, adj'[s]);
    assert LevelAt(m, rename, adj, adj', debt, s);
    var to, to' := adj[s := a], adj'[s := a];
    forall x: nat ensures LevelAt(m, rename, to, to', debt, x) {
      if x == s {
        AloneSum(m, rename, to, s);
        Neutral(m, a);
      } else {
        assert ClassTerms(m, rename, to, x) == ClassTerms(m, rename, adj, x);
        assert LevelAt(m, rename, adj, adj', debt, x);
      }
    }
  }

  /** Adding the same to a slot and to the slot it is called. */
  lemma AddBoth<A(!new)>(m: Addition<A>, rename: map<nat, nat>, adj: seq<A>, adj': seq<A>, debt: seq<A>, s: nat,
                          more: A)
    requires Commutes(m) && Level(m, rename, adj, adj', debt)
    requires s < |adj| && Through(rename, s) < |adj|
    ensures var t := Through(rename, s);
            Level(m, rename, adj[s := m.add(adj[s], more)], adj'[t := m.add(adj'[t], more)], debt)
  {
    var t := Through(rename, s);
    var to, to' := adj[s := m.add(adj[s], more)], adj'[t := m.add(adj'[t], more)];
    forall x: nat ensures LevelAt(m, rename, to, to', debt, x) {
      assert LevelAt(m, rename, adj, adj', debt, x);
      if x < |adj| && x !in rename {
        ClassGains(m, rename, adj, x, s, more);
        Neutral(m, ClassSum(m, rename, adj, x));
        Swap(m, adj'[x], debt[x], more);
      }
    }
  }

  /** What the pull of an op that survives no duplicate needs to know of the op and its renamed form. */
  ghost predicate SameOp<V(!new), W, A(!new)>(k: Kernels<V, W, A>, m: Addition<A>, rename: map<nat, nat>, op: Op, o: Op,
                                              mem: seq<V>, mem': seq<V>) {
    && |mem| == |mem'| && OpInRange(op, |mem|) && OpInRange(o, |mem|)
    && o.sig == op.sig && o.ins == ThroughAll(rename, op.ins)
    && Gather(mem', o.ins) == Gather(mem, op.ins) && mem'[o.out] == mem[op.out]
    && (forall j: nat :: j < |op.ins| && !WritesTo(op, op.ins[j]) ==> Accumulates(k, m, op.sig, j))
    && (forall s :: WritesTo(op, s) ==> s !in rename && Alone(rename, s))
  }

  /** After n of the op's inputs. */
  lemma {:induction false} KeptInputs<V(!new), W, A(!new)>(k: Kernels<V, W, A>, m: Addition<A>, rename: map<nat, nat>,
                                                           op: Op, o: Op, mem: seq<V>, mem': seq<V>, n: nat,
                                                           seed: (A, A), adj: seq<A>, adj': seq<A>, debt: seq<A>)
    requires Commutes(m) && SameOp(k, m, rename, op, o, mem, mem') && n <= |op.ins| && |adj| == |mem|
    requires Level(m, rename, adj, adj', debt) && forall s :: 0 <= s < |adj| && WritesTo(op, s) ==> debt[s] == m.zero
    ensures Level(m, rename, PullInputs(k, op, n, mem, seed, adj), PullInputs(k, o, n, mem', seed, adj'), debt)
  {
    if n > 0 {
      KeptInputs(k, m, rename, op, o, mem, mem', n - 1, seed, adj, adj', debt);
      var before, before' := PullInputs(k, op, n - 1, mem, seed, adj), PullInputs(k, o, n - 1, mem', seed, adj');
      var s := op.ins[n - 1];
      var v, y := Gather(mem, op.ins), mem[op.out];
      assert o.ins[n - 1] == Through(rename, s);
      if WritesTo(op, s) {
        SetAlone(m, rename, before, before', debt, s, k.pull(op.sig, n - 1, v, y, seed, before[s]));
      } else {
        assert Accumulates(k, m, op.sig, n - 1);
        AddBoth(m, rename, before, before', debt, s, k.pull(op.sig, n - 1, v, y, seed, m.zero));
      }
    }
  }

  lemma SameReads<V, W, A>(k: Kernels<V, W, A>, ops: seq<Op>, rename: map<nat, nat>, ops': seq<Option<Op>>,
                           mem: seq<V>, mem': seq<V>, i: nat)
    requires Merged(k, ops, rename, ops', |mem|) && SameRenamed(rename, mem, mem') && i < |ops| && ops'[i].Some?
    ensures var o := ops'[i].value;
            && OpInRange(o, |mem|) && OpInRange(ops[i], |mem|) && o.out == ops[i].out && o.out2 == ops[i].out2
            && o.sig == ops[i].sig && o.ins == ThroughAll(rename, ops[i].ins) && o.out !in rename
            && Gather(mem', o.ins) == Gather(mem, ops[i].ins) && mem'[o.out] == mem[ops[i].out]
  {
    assert KeptAt(ops, rename, ops', i);
    assert WritesTo(ops[i], ops[i].out);
    assert OpInRange(ops[i], |mem|);
    assert OpInRange(ops'[i].value, |mem|);
    assert Gather(mem', ops'[i].value.ins) == Gather(mem, ops[i].ins);
  }

  lemma KeptStep<V(!new), W, A(!new)>(k: Kernels<V, W, A>, m: Addition<A>, ops: seq<Op>, rename: map<nat, nat>,
                                      ops': seq<Option<Op>>, mem: seq<V>, mem': seq<V>, i: nat, adj: seq<A>,
                                      adj': seq<A>)
    requires Setting(k, m, ops, rename, ops', mem, mem') && i < |ops| && ops'[i].Some? && NoSurvivor(ops, rename, i)
    requires OpInRange(ops'[i].value, |mem'|) && Balanced(k, m, ops, rename, mem, i + 1, adj, adj')
    ensures Balanced(k, m, ops, rename, mem, i, Pulled(k, ops, mem, i, adj),
                     var o := ops'[i].value; PullInputs(k, o, |o.ins|, mem', SeedOf(o, adj'), adj'))
  {
    var op, o := ops[i], ops'[i].value;
    SameReads(k, ops, rename, ops', mem, mem', i);
    forall s: nat | WritesTo(op, s) ensures s < |adj| && adj'[s] == adj[s] {
      WrittenAgrees(k, m, ops, rename, ops', mem, i, adj, adj', s);
    }
    var seed := SeedOf(op, adj);
    assert SeedOf(o, adj') == seed by {
      assert WritesTo(op, op.out);
      assert op.out2.Some? ==> WritesTo(op, op.out2.value);
    }
    var debt := seq(|adj|, x requires 0 <= x < |adj| => Debt(k, m, ops, rename, mem, i + 1, adj, x));
    forall x | 0 <= x < |adj| && WritesTo(op, x) ensures debt[x] == m.zero {
      WrittenOwesNothing(k, m, ops, rename, ops', mem, i, adj, x);
    }
    KeptIsSameOp(k, m, ops, rename, ops', mem, mem', i);
    forall x: nat ensures LevelAt(m, rename, adj, adj', debt, x) {
      assert BalancedAt(k, m, ops, rename, mem, i + 1, adj, adj', x);
    }
    KeptInputs(k, m, rename, op, o, mem, mem', |op.ins|, seed, adj, adj', debt);
    var full, full' := Pulled(k, ops, mem, i, adj), PullInputs(k, o, |o.ins|, mem', seed, adj');
    forall x: nat ensures BalancedAt(k, m, ops, rename, mem, i, full, full', x) {
      assert LevelAt(m, rename, full, full', debt, x);
      SameDebt(k, m, ops, rename, ops', mem, i, adj, x);
    }
  }

  lemma KeptIsSameOp<V(!new), W, A(!new)>(k: Kernels<V, W, A>, m: Addition<A>, ops: seq<Op>, rename: map<nat, nat>,
                                          ops': seq<Option<Op>>, mem: seq<V>, mem': seq<V>, i: nat)
    requires Setting(k, m, ops, rename, ops', mem, mem') && i < |ops| && ops'[i].Some? && NoSurvivor(ops, rename, i)
    ensures SameOp(k, m, rename, ops[i], ops'[i].value, mem, mem')
  {
    SameReads(k, ops, rename, ops', mem, mem', i);
    assert KeptAt(ops, rename, ops', i);
    forall s: nat | WritesTo(ops[i], s) ensures Alone(rename, s) {
      assert forall d :: d in rename && rename[d] == s ==> FirstWrite(ops, rename[d]) == i;
    }
  }

  // ---------------------------------------------------------------- a survivor

  /** The survivor pulls with the sum of its class, which pays what its duplicates owe. */
  lemma SurvivorPays<V(!new), W, A(!new)>(k: Kernels<V, W, A>, m: Addition<A>, ops: seq<Op>, rename: map<nat, nat>,
                                          ops': seq<Option<Op>>, mem: seq<V>, mem': seq<V>, i: nat, adj: seq<A>, x: nat)
    requires Setting(k, m, ops, rename, ops', mem, mem') && |adj| == |mem| && i < |ops| && ops'[i].Some?
    requires Pure(k, ops[i]) && FirstWrite(ops, ops[i].out) == i && OpInRange(ops[i], |mem|)
    ensures var op := ops[i];
            var ins, v, o := ThroughAll(rename, op.ins), Gather(mem, op.ins), mem[op.out];
            var own, sum := adj[op.out], ClassSum(m, rename, adj, op.out);
            var full := Pulled(k, ops, mem, i, adj);
            m.add(Debt(k, m, ops, rename, mem, i + 1, adj, x), Amount(k, m, op.sig, ins, |ins|, v, o, (own, own), x)) ==
            m.add(Debt(k, m, ops, rename, mem, i, full, x), Amount(k, m, op.sig, ins, |ins|, v, o, (sum, sum), x))
  {
    var op := ops[i];
    var ins, v, o := ThroughAll(rename, op.ins), Gather(mem, op.ins), mem[op.out];
    var full := Pulled(k, ops, mem, i, adj);
    var terms := ClassTerms(m, rename, adj, op.out);
    var amounts := seq(|adj|, y requires 0 <= y < |adj| =>
                         Amount(k, m, op.sig, ins, |ins|, v, o, (terms[y], terms[y]), x));
    PureAccumulates(k, m, ops, i);
    AmountOfTotal(k, m, op.sig, ins, v, o, x, terms, amounts);
    var before := DebtTerms(k, m, ops, rename, mem, i + 1, adj, x);
    var after := DebtTerms(k, m, ops, rename, mem, i, full, x);
    assert KeptAt(ops, rename, ops', i);
    assert WritesTo(op, op.out);
    var own := Amount(k, m, op.sig, ins, |ins|, v, o, (adj[op.out], adj[op.out]), x);
    var paid := before[op.out := m.add(before[op.out], own)];
    forall y | 0 <= y < |adj| ensures paid[y] == m.add(after[y], amounts[y]) {
      PaidTerm(k, m, ops, rename, ops', mem, mem', i, adj, x, y);
    }
    TotalAt(m, before, op.out, own);
    TotalAdds(m, after, amounts, paid);
  }

  lemma PaidTerm<V(!new), W, A(!new)>(k: Kernels<V, W, A>, m: Addition<A>, ops: seq<Op>, rename: map<nat, nat>,
                                      ops': seq<Option<Op>>, mem: seq<V>, mem': seq<V>, i: nat, adj: seq<A>, x: nat,
                                      y: nat)
    requires Setting(k, m, ops, rename, ops', mem, mem') && |adj| == |mem| && i < |ops| && ops'[i].Some?
    requires Pure(k, ops[i]) && FirstWrite(ops, ops[i].out) == i && OpInRange(ops[i], |mem|) && y < |adj|
    requires ops[i].out !in rename
    ensures var op := ops[i];
            var ins, v, o := ThroughAll(rename, op.ins), Gather(mem, op.ins), mem[op.out];
            var full := Pulled(k, ops, mem, i, adj);
            var before := DebtTerms(k, m, ops, rename, mem, i + 1, adj, x);
            var term := ClassTerms(m, rename, adj, op.out)[y];
            var amount := Amount(k, m, op.sig, ins, |ins|, v, o, (term, term), x);
            m.add(DebtTerms(k, m, ops, rename, mem, i, full, x)[y], amount) ==
            if y == op.out then m.add(before[y], amount) else before[y]
  {
    var op := ops[i];
    var ins, v, o := ThroughAll(rename, op.ins), Gather(mem, op.ins), mem[op.out];
    Neutral(m, DebtTerms(k, m, ops, rename, mem, i + 1, adj, x)[y]);
    if Through(rename, y) != op.out {
      PureAccumulates(k, m, ops, i);
      AmountOfZero(k, m, op.sig, ins, |ins|, v, o, x);
    }
    if y in rename {
      assert DroppedAt(k, ops, rename, ops', |mem|, y);
    }
    if y in rename && rename[y] == op.out {
      TwinAmount(k, m, ops, rename, ops', mem, mem', y, adj[y], x);
    } else {
      if y in rename {
        assert FirstWrite(ops, rename[y]) != i;
        assert FirstWrite(ops, y) != i;
      }
      SameTerm(k, m, ops, rename, mem, i, adj, x, y);
    }
  }

  /** A duplicate pulls what its survivor would pull for the same adjoint. */
  lemma TwinAmount<V, W, A>(k: Kernels<V, W, A>, m: Addition<A>, ops: seq<Op>, rename: map<nat, nat>,
                            ops': seq<Option<Op>>, mem: seq<V>, mem': seq<V>, d: nat, a: A, x: nat)
    requires Merged(k, ops, rename, ops', |mem|) && SameRenamed(rename, mem, mem') && d in rename
    ensures var at := FirstWrite(ops, rename[d]);
            at < |ops| && FirstWrite(ops, d) < |ops| && OpInRange(ops[at], |mem|) &&
            var ins := ThroughAll(rename, ops[at].ins);
            Withheld(k, m, ops, rename, mem, d, a, x) ==
            Amount(k, m, ops[at].sig, ins, |ins|, Gather(mem, ops[at].ins), mem[ops[at].out], (a, a), x)
  {
    assert DroppedAt(k, ops, rename, ops', |mem|, d);
    var at, n := FirstWrite(ops, rename[d]), FirstWrite(ops, d);
    assert OpInRange(ops[at], |mem|) && OpInRange(ops[n], |mem|);
    var ins := ThroughAll(rename, ops[at].ins);
    assert |ops[at].ins| == |ins| == |ops[n].ins|;
    forall j | 0 <= j < |ins| ensures mem[ops[at].ins[j]] == mem[ops[n].ins[j]] {
      assert ins[j] == ThroughAll(rename, ops[n].ins)[j];
      assert Through(rename, ops[at].ins[j]) == Through(rename, ops[n].ins[j]);
    }
    assert Gather(mem, ops[at].ins) == Gather(mem, ops[n].ins);
  }

  lemma SurvivorStep<V(!new), W, A(!new)>(k: Kernels<V, W, A>, m: Addition<A>, ops: seq<Op>, rename: map<nat, nat>,
                                          ops': seq<Option<Op>>, mem: seq<V>, mem': seq<V>, i: nat, adj: seq<A>,
                                          adj': seq<A>)
    requires Setting(k, m, ops, rename, ops', mem, mem') && i < |ops| && ops'[i].Some?
    requires Pure(k, ops[i]) && FirstWrite(ops, ops[i].out) == i
    requires OpInRange(ops'[i].value, |mem'|) && Balanced(k, m, ops, rename, mem, i + 1, adj, adj')
    ensures Balanced(k, m, ops, rename, mem, i, Pulled(k, ops, mem, i, adj),
                     var o := ops'[i].value; PullInputs(k, o, |o.ins|, mem', SeedOf(o, adj'), adj'))
  {
    var op, o := ops[i], ops'[i].value;
    SameReads(k, ops, rename, ops', mem, mem', i);
    PureAccumulates(k, m, ops, i);
    var seed, seed' := SeedOf(op, adj), SeedOf(o, adj');
    assert WritesTo(op, op.out);
    WrittenAgrees(k, m, ops, rename, ops', mem, i, adj, adj', op.out);
    var full := Pulled(k, ops, mem, i, adj);
    var full' := PullInputs(k, o, |o.ins|, mem', seed', adj');
    forall x: nat ensures BalancedAt(k, m, ops, rename, mem, i, full, full', x) {
      assert BalancedAt(k, m, ops, rename, mem, i + 1, adj, adj', x);
      if x < |adj| {
        PullAccumulates(k, m, rename, op, |op.ins|, mem, seed, adj, x);
        MergedPull(k, m, o, mem', seed', adj', x);
        SurvivorPays(k, m, ops, rename, ops', mem, mem', i, adj, x);
        Settle(m, adj'[x], Debt(k, m, ops, rename, mem, i + 1, adj, x), Debt(k, m, ops, rename, mem, i, full, x),
               Amount(k, m, op.sig, o.ins, |o.ins|, Gather(mem, op.ins), mem[op.out], seed, x),
               Amount(k, m, op.sig, o.ins, |o.ins|, Gather(mem, op.ins), mem[op.out], seed', x));
      }
    }
  }

  lemma Settle<A(!new)>(m: Addition<A>, base: A, debt: A, left: A, own: A, all: A)
    requires Commutes(m) && m.add(debt, own) == m.add(left, all)
    ensures m.add(m.add(base, debt), own) == m.add(m.add(base, all), left)
  {
    Regroup(m, base, debt, own);
    Regroup(m, base, left, all);
    Swap(m, base, left, all);
  }

  /** In the merged graph the pull adds its amount to each single slot. */
  lemma MergedPull<V(!new), W, A(!new)>(k: Kernels<V, W, A>, m: Addition<A>, o: Op, mem: seq<V>, seed: (A, A),
                                        adj: seq<A>, x: nat)
    requires Commutes(m) && OpInRange(o, |mem|) && |adj| == |mem| && x < |adj|
    requires forall j: nat :: j < |o.ins| ==> Accumulates(k, m, o.sig, j)
    ensures PullInputs(k, o, |o.ins|, mem, seed, adj)[x] ==
            m.add(adj[x], Amount(k, m, o.sig, o.ins, |o.ins|, Gather(mem, o.ins), mem[o.out], seed, x))
  {
    PullAccumulates(k, m, map[], o, |o.ins|, mem, seed, adj, x);
    AloneSum(m, map[], adj, x);
    AloneSum(m, map[], PullInputs(k, o, |o.ins|, mem, seed, adj), x);
    assert ThroughAll(map[], o.ins) == o.ins;
  }

  // ---------------------------------------------------------------- the whole sweep

  lemma OneStep<V(!new), W, A(!new)>(k: Kernels<V, W, A>, m: Addition<A>, ops: seq<Op>, rename: map<nat, nat>,
                                     ops': seq<Option<Op>>, mem: seq<V>, mem': seq<V>, i: nat, adj: seq<A>,
                                     adj': seq<A>)
    requires Setting(k, m, ops, rename, ops', mem, mem') && i < |ops|
    requires ops'[i].Some? ==> OpInRange(ops'[i].value, |mem'|)
    requires Balanced(k, m, ops, rename, mem, i + 1, adj, adj')
    ensures Balanced(k, m, ops, rename, mem, i, Pulled(k, ops, mem, i, adj),
                     if ops'[i].None? then adj'
                     else var o := ops'[i].value; PullInputs(k, o, |o.ins|, mem', SeedOf(o, adj'), adj'))
  {
    if ops'[i].None? {
      DroppedStep(k, m, ops, rename, ops', mem, mem', i, adj, adj');
    } else if NoSurvivor(ops, rename, i) {
      KeptStep(k, m, ops, rename, ops', mem, mem', i, adj, adj');
    } else {
      var d :| d in rename && FirstWrite(ops, rename[d]) == i;
      assert DroppedAt(k, ops, rename, ops', |mem|, d);
      SurvivorStep(k, m, ops, rename, ops', mem, mem', i, adj, adj');
    }
  }

  lemma SeedsBalanced<V, W, A(!new)>(k: Kernels<V, W, A>, m: Addition<A>, ops: seq<Op>, rename: map<nat, nat>,
                                     mem: seq<V>, seeds: seq<A>, seeds': seq<A>)
    requires Commutes(m) && InRange(ops, |mem|) && |seeds| == |seeds'| == |mem| && SeedsMatch(m, rename, seeds, seeds')
    ensures Balanced(k, m, ops, rename, mem, |ops|, seeds, seeds')
  {
    NothingOwed(k, m, ops, rename, mem, |ops|, seeds);
    forall x: nat ensures BalancedAt(k, m, ops, rename, mem, |ops|, seeds, seeds', x) {
      assert SeedAt(m, rename, seeds, seeds', x);
      if x < |seeds| {
        Neutral(m, seeds'[x]);
      }
    }
  }

  /** The merged graph is seeded with the sums of the seeds whose slots now share a name. */
  ghost predicate SeedsMatch<A>(m: Addition<A>, rename: map<nat, nat>, seeds: seq<A>, seeds': seq<A>) {
    forall x :: SeedAt(m, rename, seeds, seeds', x)
  }

  predicate SeedAt<A(==)>(m: Addition<A>, rename: map<nat, nat>, seeds: seq<A>, seeds': seq<A>, x: nat) {
    x < |seeds| == |seeds'| && x !in rename ==> seeds'[x] == ClassSum(m, rename, seeds, x)
  }

  lemma PulledIs<V, W, A>(k: Kernels<V, W, A>, ops: seq<Op>, mem: seq<V>, i: nat, seeds: seq<A>)
    requires InRange(ops, |mem|) && |seeds| == |mem| && i < |ops|
    ensures Reverse(k, Whole(ops), i, mem, seeds) == Pulled(k, ops, mem, i, Reverse(k, Whole(ops), i + 1, mem, seeds))
  { }

  lemma PulledOptional<V, W, A>(k: Kernels<V, W, A>, ops: seq<Option<Op>>, mem: seq<V>, i: nat, seeds: seq<A>)
    requires Ranged(ops, |mem|) && |seeds| == |mem| && i < |ops|
    ensures var adj := Reverse(k, ops, i + 1, mem, seeds);
            Reverse(k, ops, i, mem, seeds) ==
            if ops[i].None? then adj
            else var o := ops[i].value; PullInputs(k, o, |o.ins|, mem, SeedOf(o, adj), adj)
  { }

  ghost predicate SweepsBalance<V, W, A>(k: Kernels<V, W, A>, m: Addition<A>, ops: seq<Op>, rename: map<nat, nat>,
                                         ops': seq<Option<Op>>, mem: seq<V>, mem': seq<V>, i: nat, seeds: seq<A>,
                                         seeds': seq<A>) {
    && i <= |ops| == |ops'| && InRange(ops, |mem|) && Ranged(ops', |mem'|) && |seeds| == |seeds'| == |mem| == |mem'|
    && Balanced(k, m, ops, rename, mem, i, Reverse(k, Whole(ops), i, mem, seeds), Reverse(k, ops', i, mem', seeds'))
  }

  /** The property that goes down the sweep. */
  ghost function Balance<V, W, A>(k: Kernels<V, W, A>, m: Addition<A>, ops: seq<Op>, rename: map<nat, nat>,
                                  ops': seq<Option<Op>>, mem: seq<V>, mem': seq<V>, seeds: seq<A>,
                                  seeds': seq<A>): nat -> bool {
    (i: nat) => SweepsBalance(k, m, ops, rename, ops', mem, mem', i, seeds, seeds')
  }

  lemma SweepStart<V(!new), W, A(!new)>(k: Kernels<V, W, A>, m: Addition<A>, ops: seq<Op>, rename: map<nat, nat>,
                                        ops': seq<Option<Op>>, mem: seq<V>, mem': seq<V>, seeds: seq<A>,
                                        seeds': seq<A>)
    requires Commutes(m) && InRange(ops, |mem|) && Ranged(ops', |mem'|) && |ops| == |ops'|
    requires |seeds| == |seeds'| == |mem| == |mem'| && SeedsMatch(m, rename, seeds, seeds')
    ensures Balance(k, m, ops, rename, ops', mem, mem', seeds, seeds')(|ops|)
  {
    SeedsBalanced(k, m, ops, rename, mem, seeds, seeds');
  }

  lemma SweepStep<V(!new), W, A(!new)>(k: Kernels<V, W, A>, m: Addition<A>, ops: seq<Op>, rename: map<nat, nat>,
                                       ops': seq<Option<Op>>, mem: seq<V>, mem': seq<V>, i: nat, seeds: seq<A>,
                                       seeds': seq<A>)
    requires Setting(k, m, ops, rename, ops', mem, mem') && i < |ops|
    requires Balance(k, m, ops, rename, ops', mem, mem', seeds, seeds')(i + 1)
    ensures Balance(k, m, ops, rename, ops', mem, mem', seeds, seeds')(i)
  {
    PulledIs(k, ops, mem, i, seeds);
    PulledOptional(k, ops', mem', i, seeds');
    OneStep(k, m, ops, rename, ops', mem, mem', i, Reverse(k, Whole(ops), i + 1, mem, seeds),
            Reverse(k, ops', i + 1, mem', seeds'));
  }

  lemma {:induction false} Downward(p: nat -> bool, n: nat, i: nat)
    requires i <= n && p(n) && forall j :: 0 <= j < n && p(j + 1) ==> p(j)
    ensures p(i)
    decreases n - i
  {
    if i < n {
      Downward(p, n, i + 1);
    }
  }

  lemma SweepBalanced<V(!new), W, A(!new)>(k: Kernels<V, W, A>, m: Addition<A>, ops: seq<Op>, rename: map<nat, nat>,
                                           ops': seq<Option<Op>>, mem: seq<V>, mem': seq<V>, i: nat, seeds: seq<A>,
                                           seeds': seq<A>)
    requires Setting(k, m, ops, rename, ops', mem, mem') && |seeds| == |seeds'| == |mem| && i <= |ops|
    requires SeedsMatch(m, rename, seeds, seeds')
    ensures Balance(k, m, ops, rename, ops', mem, mem', seeds, seeds')(i)
  {
    var p := Balance(k, m, ops, rename, ops', mem, mem', seeds, seeds');
    SweepStart(k, m, ops, rename, ops', mem, mem', seeds, seeds');
    forall j: nat | j < |ops| && p(j + 1) ensures p(j) {
      SweepStep(k, m, ops, rename, ops', mem, mem', j, seeds, seeds');
    }
    Downward(p, |ops|, i);
  }

  /** At both ends of the sweep nothing is owed. */
  lemma NothingOwed<V, W, A(!new)>(k: Kernels<V, W, A>, m: Addition<A>, ops: seq<Op>, rename: map<nat, nat>,
                                   mem: seq<V>, i: nat, adj: seq<A>)
    requires Commutes(m) && InRange(ops, |mem|) && (i == 0 || i == |ops|)
    ensures forall x :: Debt(k, m, ops, rename, mem, i, adj, x) == m.zero
  {
    forall x: nat ensures Debt(k, m, ops, rename, mem, i, adj, x) == m.zero {
      TotalOfZeros(m, DebtTerms(k, m, ops, rename, mem, i, adj, x));
    }
  }
}
