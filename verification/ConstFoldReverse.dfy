/** Folding keeps gradients: on update chains every parameter's adjoint is the original one. */
module ConstFoldReverse {
  import opened Options
  import opened OpGraph
  import opened ConstFold
  import opened ConstFoldProof

  /** Slots that a parameter reaches: parameters and outputs of surviving ops. */
  ghost function Reached(g: Graph, marks: seq<bool>): (r: seq<bool>)
    requires |marks| == |g.ops|
    ensures |r| == g.slots
    ensures forall s :: 0 <= s < g.slots ==> r[s] == (s in g.params || WrittenBy(g.ops, marks, false, s))
  {
    seq(g.slots, s requires 0 <= s < g.slots => s in g.params || WrittenBy(g.ops, marks, false, s))
  }

  /** No slot is written from both sides. */
  ghost predicate NoMixed(ops: seq<Op>, marks: seq<bool>)
    requires |ops| == |marks|
  {
    forall s: nat :: !(WrittenBy(ops, marks, true, s) && WrittenBy(ops, marks, false, s))
  }

  lemma ChainsAreNotMixed(g: Graph, marks: seq<bool>)
    requires ChainWrites(g.ops) && Sound(g, marks)
    ensures NoMixed(g.ops, marks)
  {
    forall s: nat ensures !(WrittenBy(g.ops, marks, true, s) && WrittenBy(g.ops, marks, false, s)) {
      forall w: nat, j: nat | w < |g.ops| && j < |g.ops| && marks[w] && !marks[j] && WritesTo(g.ops[w], s)
        ensures !WritesTo(g.ops[j], s) {
        OneSided(g, marks, s, w, j);
      }
    }
  }

  /** A folded op reads nothing that a parameter reaches, not even later in the graph. */
  lemma FoldedReadsUnreached(g: Graph, marks: seq<bool>, i: nat, j: nat)
    requires WellFormed(g) && Sound(g, marks) && NoMixed(g.ops, marks) && i < |g.ops| && marks[i] && j < |g.ops[i].ins|
    ensures g.ops[i].ins[j] < g.slots && !Reached(g, marks)[g.ops[i].ins[j]]
  {
    var s := g.ops[i].ins[j];
    assert OpInRange(g.ops[i], g.slots);
    ReadIsDefined(g.ops, i, s);
    var w := LastWriter(g.ops, i, s);
    if w.Some? {
      assert WrittenBy(g.ops, marks, true, s);
    }
  }

  /** At the end of an evaluation both graphs hold the same wherever a surviving op reads or writes. */
  lemma EndsAgree<V>(g: Graph, marks: seq<bool>, roots: set<nat>, s: nat, a: seq<V>, b: seq<V>, final: seq<V>)
    requires |marks| == |g.ops| && NoMixed(g.ops, marks) && s < g.slots
    requires InStep(g, marks, roots, |g.ops|, a, b, final, final)
    requires Needed(g.ops, marks, roots, s) || WrittenBy(g.ops, marks, false, s)
    ensures a[s] == b[s]
  {
    var w := LastWriter(g.ops, |g.ops|, s);
    assert SlotInStep(w, marks, a[s], b[s], final[s]);
    if w.Some? && marks[w.value] {
      assert WrittenBy(g.ops, marks, true, s);
    }
  }

  lemma {:induction false} ReverseFolded<V, W, A>(k: Kernels<V, W, A>, g: Graph, marks: seq<bool>, roots: set<nat>,
                                                  i: nat, a: seq<V>, b: seq<V>, final: seq<V>, adj: seq<A>)
    requires WellFormed(g) && Sound(g, marks) && NoMixed(g.ops, marks) && i <= |g.ops| && |adj| == g.slots
    requires InStep(g, marks, roots, |g.ops|, a, b, final, final)
    ensures SameWhere(Reached(g, marks),
                      Reverse(k, Whole(g.ops), i, a, adj), Reverse(k, Survivors(g.ops, marks), i, b, adj))
    decreases |g.ops| - i
  {
    if i < |g.ops| {
      ReverseFolded(k, g, marks, roots, i + 1, a, b, final, adj);
      var op := g.ops[i];
      var x, y := Reverse(k, Whole(g.ops), i + 1, a, adj), Reverse(k, Survivors(g.ops, marks), i + 1, b, adj);
      if marks[i] {
        forall j | 0 <= j < |op.ins| ensures !Reached(g, marks)[op.ins[j]] {
          FoldedReadsUnreached(g, marks, i, j);
        }
        PullNothing(k, op, |op.ins|, a, SeedOf(op, x), x, Reached(g, marks));
      } else {
        SurvivorPulls(k, g, marks, roots, i, a, b, final, x, y);
      }
    }
  }

  lemma SurvivorPulls<V, W, A>(k: Kernels<V, W, A>, g: Graph, marks: seq<bool>, roots: set<nat>, i: nat,
                               a: seq<V>, b: seq<V>, final: seq<V>, x: seq<A>, y: seq<A>)
    requires WellFormed(g) && |marks| == |g.ops| && NoMixed(g.ops, marks) && i < |g.ops| && !marks[i]
    requires InStep(g, marks, roots, |g.ops|, a, b, final, final) && SameWhere(Reached(g, marks), x, y)
    ensures OpInRange(g.ops[i], g.slots)
    ensures var op := g.ops[i];
            SameWhere(Reached(g, marks), PullInputs(k, op, |op.ins|, a, SeedOf(op, x), x),
                      PullInputs(k, op, |op.ins|, b, SeedOf(op, y), y))
  {
    var op := g.ops[i];
    assert OpInRange(op, g.slots);
    forall j | 0 <= j < |op.ins| ensures Gather(a, op.ins)[j] == Gather(b, op.ins)[j] {
      EndsAgree(g, marks, roots, op.ins[j], a, b, final);
    }
    assert WritesTo(op, op.out) && WrittenBy(g.ops, marks, false, op.out);
    EndsAgree(g, marks, roots, op.out, a, b, final);
    assert op.out2.Some? ==> WritesTo(op, op.out2.value) && WrittenBy(g.ops, marks, false, op.out2.value);
    PullSame(k, op, op, |op.ins|, a, b, SeedOf(op, x), x, y, Reached(g, marks));
  }

  /** In every evaluation of every sequence of parameter values, every parameter's adjoint is the one the
      original graph gives, for adjoint updates that need not be associative. */
  lemma FoldingPreservesGradient<V(!new), W(!new), A>(k: Kernels<V, W, A>, g: Graph, roots: set<nat>, bound: seq<V>,
                                                      w: W, thetas: seq<map<nat, V>>, t: nat, seeds: seq<A>, p: nat)
    requires WellFormed(g) && ChainWrites(g.ops) && QuietLaw(k, g) && |bound| == |seeds| == g.slots
    requires SetsParams(g, thetas) && t < |thetas| && p in g.params && p < g.slots
    ensures var marks := Settle(g, {}).0;
            var values := At(k, Whole(g.ops), thetas, t, |g.ops|, bound, w).0;
            var values' := At(k, Survivors(g.ops, marks), thetas, t, |g.ops|,
                             Filled(k, g.ops, marks, roots, bound, w), w).0;
            Reverse(k, Whole(g.ops), 0, values, seeds)[p] == Reverse(k, Survivors(g.ops, marks), 0, values', seeds)[p]
  {
    var marks := Settle(g, {}).0;
    SettledIsSound(g);
    ChainsAreClean(g, roots);
    ChainsAreNotMixed(g, marks);
    EveryEvaluationInStep(k, g, marks, roots, bound, w, thetas, t, |g.ops|);
    var values := At(k, Whole(g.ops), thetas, t, |g.ops|, bound, w).0;
    var values' := At(k, Survivors(g.ops, marks), thetas, t, |g.ops|, Filled(k, g.ops, marks, roots, bound, w), w).0;
    ReverseFolded(k, g, marks, roots, 0, values, values', Run(k, g.ops, marks, |g.ops|, bound, w), seeds);
  }
}
