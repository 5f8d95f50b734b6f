/** When folding is invisible: over every sequence of evaluations, to every surviving op, to the world
    and to the roots. */
module ConstFoldProof {
  import opened Options
  import opened OpGraph
  import opened ConstFold

  // ---------------------------------------------------------------- the folded graph

  function Survivors(ops: seq<Op>, marks: seq<bool>): (r: seq<Option<Op>>)
    requires |ops| == |marks|
    ensures |r| == |ops|
    ensures forall i :: 0 <= i < |ops| ==> r[i] == if marks[i] then None else Some(ops[i])
  {
    seq(|ops|, i requires 0 <= i < |ops| => if marks[i] then None else Some(ops[i]))
  }

  function Constants(ops: seq<Op>, marks: seq<bool>): (r: seq<Option<Op>>)
    requires |ops| == |marks|
    ensures |r| == |ops|
    ensures forall i :: 0 <= i < |ops| ==> r[i] == if marks[i] then Some(ops[i]) else None
  {
    seq(|ops|, i requires 0 <= i < |ops| => if marks[i] then Some(ops[i]) else None)
  }

  predicate WrittenBy(ops: seq<Op>, marks: seq<bool>, mark: bool, s: nat)
    requires |ops| == |marks|
  {
    exists i :: 0 <= i < |ops| && marks[i] == mark && WritesTo(ops[i], s)
  }

  /** A root, or an input of a surviving op. */
  predicate Needed(ops: seq<Op>, marks: seq<bool>, roots: set<nat>, s: nat)
    requires |ops| == |marks|
  {
    s in roots || exists i :: 0 <= i < |ops| && !marks[i] && s in ops[i].ins
  }

  /** The contents of every slot at bind time: the constant part runs once and its needed outputs
      become fills. */
  function Filled<V, W, A>(k: Kernels<V, W, A>, ops: seq<Op>, marks: seq<bool>, roots: set<nat>, bound: seq<V>,
                           w: W): (r: seq<V>)
    requires |ops| == |marks| && InRange(ops, |bound|)
    ensures |r| == |bound|
  {
    var run := Forward(k, Constants(ops, marks), |ops|, bound, w).0;
    seq(|bound|, s requires 0 <= s < |bound| =>
      if Needed(ops, marks, roots, s) && WrittenBy(ops, marks, true, s) then run[s] else bound[s])
  }

  /** Only what a surviving op or a root reads, and the constant part wrote, is filled. */
  lemma OtherSlotsStayBound<V, W, A>(k: Kernels<V, W, A>, ops: seq<Op>, marks: seq<bool>, roots: set<nat>,
                                     bound: seq<V>, w: W, s: nat)
    requires |ops| == |marks| && InRange(ops, |bound|) && s < |bound|
    requires (s !in roots && forall i :: 0 <= i < |ops| && !marks[i] ==> s !in ops[i].ins)
             || forall i :: 0 <= i < |ops| && marks[i] ==> !WritesTo(ops[i], s)
    ensures Filled(k, ops, marks, roots, bound, w)[s] == bound[s]
  { }

  // ---------------------------------------------------------------- evaluations

  /** Parameters are set before every evaluation; every other buffer keeps what it held. */
  function Load<V>(mem: seq<V>, theta: map<nat, V>): (r: seq<V>)
    ensures |r| == |mem|
    ensures forall s :: 0 <= s < |mem| ==> r[s] == if s in theta then theta[s] else mem[s]
  {
    seq(|mem|, s requires 0 <= s < |mem| => if s in theta then theta[s] else mem[s])
  }

  /** Memory and world as op i of evaluation t finds them. */
  function At<V, W, A>(k: Kernels<V, W, A>, ops: seq<Option<Op>>, thetas: seq<map<nat, V>>, t: nat, i: nat,
                       mem: seq<V>, w: W): (r: (seq<V>, W))
    requires t < |thetas| && i <= |ops| && Ranged(ops, |mem|)
    ensures |r.0| == |mem|
    decreases t
  {
    var start := if t == 0 then (mem, w) else At(k, ops, thetas, t - 1, |ops|, mem, w);
    Forward(k, ops, i, Load(start.0, thetas[t]), start.1)
  }

  /** Quiet signatures leave the world alone and do not look at it. */
  ghost predicate QuietLaw<V(!new), W(!new), A>(k: Kernels<V, W, A>, g: Graph) {
    forall sig, ins, w, w' :: g.quiet(sig) ==>
      var e, e' := k.effect(sig, ins, w), k.effect(sig, ins, w');
      e.2 == w && e.0 == e'.0 && e.1 == e'.1
  }

  ghost predicate WellFormed(g: Graph) {
    && InRange(g.ops, g.slots)
    && DefinedBeforeUse(g.ops)
    && (forall i :: 0 <= i < |g.ops| ==> g.ops[i].primal.None?)
    && (forall i, s :: 0 <= i < |g.ops| && s in g.params ==> !WritesTo(g.ops[i], s))
  }

  /** What reader i finds in slot s is a surviving op's, or is never a surviving op's. */
  ghost predicate CleanAt(ops: seq<Op>, marks: seq<bool>, i: nat, s: nat)
    requires i <= |ops| == |marks|
  {
    var w := LastWriter(ops, i, s);
    w.Some? && marks[w.value] ==> !WrittenBy(ops, marks, false, s)
  }

  ghost predicate CleanReads(ops: seq<Op>, marks: seq<bool>, roots: set<nat>)
    requires |ops| == |marks|
  {
    && (forall i, j :: 0 <= i < |ops| && !marks[i] && 0 <= j < |ops[i].ins| ==> CleanAt(ops, marks, i, ops[i].ins[j]))
    && (forall s :: s in roots ==> CleanAt(ops, marks, |ops|, s))
  }

  // ---------------------------------------------------------------- one evaluation

  /** One slot in the original, the folded and the constant memory, given its last writer so far. */
  ghost predicate SlotInStep<V>(w: Option<nat>, marks: seq<bool>, a: V, b: V, c: V)
    requires w.Some? ==> w.value < |marks|
  {
    w.Some? ==> if marks[w.value] then a == c else a == b
  }

  ghost predicate Written(ops: seq<Op>, s: nat) {
    LastWriter(ops, |ops|, s).Some?
  }

  /** Slots no op writes hold parameters, or what was bound. */
  ghost predicate Bound<V>(g: Graph, a: seq<V>, b: seq<V>, c: seq<V>)
    requires |a| == |b| == |c|
  {
    forall s :: 0 <= s < |a| && !Written(g.ops, s) ==> a[s] == b[s] && (s !in g.params ==> a[s] == c[s])
  }

  /** The fills of slots no surviving op writes are still there. */
  ghost predicate Carried<V>(ops: seq<Op>, marks: seq<bool>, roots: set<nat>, b: seq<V>, final: seq<V>)
    requires |ops| == |marks| && |b| == |final|
  {
    forall s | 0 <= s < |b| && Needed(ops, marks, roots, s) && WrittenBy(ops, marks, true, s)
               && !WrittenBy(ops, marks, false, s) :: b[s] == final[s]
  }

  /** Original memory a, folded memory b and constant run c before op i; the constant run ends in final. */
  ghost predicate InStep<V>(g: Graph, marks: seq<bool>, roots: set<nat>, i: nat, a: seq<V>, b: seq<V>, c: seq<V>,
                            final: seq<V>)
    requires i <= |g.ops| == |marks|
  {
    && |a| == |b| == |c| == |final| == g.slots
    && (forall s :: 0 <= s < |a| ==> SlotInStep(LastWriter(g.ops, i, s), marks, a[s], b[s], c[s]))
    && Bound(g, a, b, c)
    && Carried(g.ops, marks, roots, b, final)
  }

  lemma {:induction false} WriterFound(ops: seq<Op>, n: nat, h: nat, s: nat)
    requires h < n <= |ops| && WritesTo(ops[h], s)
    ensures LastWriter(ops, n, s).Some?
  { }

  lemma ReadIsDefined(ops: seq<Op>, i: nat, s: nat)
    requires i <= |ops| && !Pending(ops, i, s)
    ensures LastWriter(ops, i, s).Some? || !Written(ops, s)
  {
    FirstWriteIs(ops, 0, s);
    if FirstWrite(ops, s) < i {
      WriterFound(ops, i, FirstWrite(ops, s), s);
    }
  }

  lemma ConstantInputs<V>(g: Graph, marks: seq<bool>, roots: set<nat>, i: nat, a: seq<V>, b: seq<V>, c: seq<V>,
                          final: seq<V>)
    requires WellFormed(g) && Sound(g, marks) && i < |g.ops| && marks[i] && InStep(g, marks, roots, i, a, b, c, final)
    ensures OpInRange(g.ops[i], g.slots) && Gather(a, g.ops[i].ins) == Gather(c, g.ops[i].ins)
  {
    forall j | 0 <= j < |g.ops[i].ins| ensures a[g.ops[i].ins[j]] == c[g.ops[i].ins[j]] {
      var s := g.ops[i].ins[j];
      ReadIsDefined(g.ops, i, s);
      assert SlotInStep(LastWriter(g.ops, i, s), marks, a[s], b[s], c[s]);
    }
  }

  /** A reader that finds no mixed slot sees the same value in both graphs. */
  lemma CleanSlot<V>(g: Graph, marks: seq<bool>, roots: set<nat>, i: nat, s: nat, a: seq<V>, b: seq<V>, c: seq<V>,
                     final: seq<V>)
    requires i <= |g.ops| == |marks| && s < g.slots && InStep(g, marks, roots, i, a, b, c, final)
    requires LastWriter(g.ops, i, s).Some? || !Written(g.ops, s)
    requires CleanAt(g.ops, marks, i, s) && Needed(g.ops, marks, roots, s)
    requires c[s] == final[s]
    ensures a[s] == b[s]
  { }

  lemma ExecConstant<V(!new), W(!new), A>(k: Kernels<V, W, A>, g: Graph, op: Op, a: seq<V>, c: seq<V>, w: W, w': W)
    requires QuietLaw(k, g) && Foldable(g, op) && op.primal.None? && |a| == |c| && OpInRange(op, |a|)
    requires Gather(a, op.ins) == Gather(c, op.ins)
    ensures var r, r' := Exec(k, op, a, w), Exec(k, op, c, w');
            r.1 == w && forall s :: 0 <= s < |a| && WritesTo(op, s) ==> r.0[s] == r'.0[s]
  { }

  lemma ConstantStep<V(!new), W(!new), A>(k: Kernels<V, W, A>, g: Graph, marks: seq<bool>, roots: set<nat>, i: nat,
                              a: seq<V>, b: seq<V>, c: seq<V>, final: seq<V>, w: W, w': W)
    requires WellFormed(g) && Sound(g, marks) && QuietLaw(k, g) && i < |g.ops| && marks[i]
    requires InStep(g, marks, roots, i, a, b, c, final)
    ensures OpInRange(g.ops[i], |a|)
    ensures var r, r' := Exec(k, g.ops[i], a, w), Exec(k, g.ops[i], c, w');
            r.1 == w && InStep(g, marks, roots, i + 1, r.0, b, r'.0, final)
  {
    ConstantInputs(g, marks, roots, i, a, b, c, final);
    ExecConstant(k, g, g.ops[i], a, c, w, w');
  }

  lemma SurvivorStep<V, W, A>(k: Kernels<V, W, A>, g: Graph, marks: seq<bool>, roots: set<nat>, i: nat,
                              a: seq<V>, b: seq<V>, c: seq<V>, final: seq<V>, w: W)
    requires WellFormed(g) && |marks| == |g.ops| && i < |g.ops| && !marks[i]
    requires InStep(g, marks, roots, i, a, b, c, final)
    requires OpInRange(g.ops[i], |a|) && Gather(a, g.ops[i].ins) == Gather(b, g.ops[i].ins)
    ensures var r, r' := Exec(k, g.ops[i], a, w), Exec(k, g.ops[i], b, w);
            r.1 == r'.1 && InStep(g, marks, roots, i + 1, r.0, r'.0, c, final)
  { }

  lemma {:induction false} ConstantRunEnds<V, W, A>(k: Kernels<V, W, A>, ops: seq<Op>, marks: seq<bool>, i: nat,
                                                    n: nat, s: nat, mem: seq<V>, w: W)
    requires i <= n <= |ops| == |marks| && InRange(ops, |mem|) && s < |mem|
    requires forall h :: i <= h < n && marks[h] ==> !WritesTo(ops[h], s)
    ensures Forward(k, Constants(ops, marks), n, mem, w).0[s] == Forward(k, Constants(ops, marks), i, mem, w).0[s]
    decreases n - i
  {
    if i < n {
      ConstantRunEnds(k, ops, marks, i, n - 1, s, mem, w);
    }
  }

  /** The constant run, started from the bound memory. */
  function Run<V, W, A>(k: Kernels<V, W, A>, ops: seq<Op>, marks: seq<bool>, i: nat, bound: seq<V>, w: W): (r: seq<V>)
    requires i <= |ops| == |marks| && InRange(ops, |bound|)
    ensures |r| == |bound|
  {
    Forward(k, Constants(ops, marks), i, bound, w).0
  }

  ghost predicate Same<V, W, A>(k: Kernels<V, W, A>, g: Graph, marks: seq<bool>, roots: set<nat>, bound: seq<V>,
                                w0: W, i: nat, x: (seq<V>, W), y: (seq<V>, W))
    requires i <= |g.ops| == |marks| && |bound| == g.slots && InRange(g.ops, g.slots)
  {
    x.1 == y.1 && InStep(g, marks, roots, i, x.0, y.0,
                  Run(k, g.ops, marks, i, bound, w0), Run(k, g.ops, marks, |g.ops|, bound, w0))
  }

  /** What the surviving op i reads, or, at the end, what the roots hold. */
  ghost predicate SameReads<V>(g: Graph, marks: seq<bool>, roots: set<nat>, i: nat, a: seq<V>, b: seq<V>)
    requires i <= |g.ops| == |marks| && |a| == |b| == g.slots && InRange(g.ops, g.slots)
  {
    if i < |g.ops| then marks[i] || Gather(a, g.ops[i].ins) == Gather(b, g.ops[i].ins)
    else forall s :: s in roots && s < |a| ==> a[s] == b[s]
  }

  lemma ReadsAgree<V, W, A>(k: Kernels<V, W, A>, g: Graph, marks: seq<bool>, roots: set<nat>, bound: seq<V>, w0: W,
                            i: nat, x: (seq<V>, W), y: (seq<V>, W))
    requires WellFormed(g) && Sound(g, marks) && CleanReads(g.ops, marks, roots)
    requires |bound| == g.slots && i <= |g.ops| && Same(k, g, marks, roots, bound, w0, i, x, y)
    ensures SameReads(g, marks, roots, i, x.0, y.0)
  {
    var c, final := Run(k, g.ops, marks, i, bound, w0), Run(k, g.ops, marks, |g.ops|, bound, w0);
    if i == |g.ops| {
      forall s | s in roots && s < g.slots ensures x.0[s] == y.0[s] {
        CleanSlot(g, marks, roots, i, s, x.0, y.0, c, final);
      }
    } else if !marks[i] {
      forall j | 0 <= j < |g.ops[i].ins| ensures x.0[g.ops[i].ins[j]] == y.0[g.ops[i].ins[j]] {
        var s := g.ops[i].ins[j];
        ReadIsDefined(g.ops, i, s);
        assert CleanAt(g.ops, marks, i, s);
        ConstantRunEnds(k, g.ops, marks, i, |g.ops|, s, bound, w0);
        CleanSlot(g, marks, roots, i, s, x.0, y.0, c, final);
      }
    }
  }

  /** One op of both graphs and of the constant run. */
  lemma OpInStep<V(!new), W(!new), A>(k: Kernels<V, W, A>, g: Graph, marks: seq<bool>, roots: set<nat>, bound: seq<V>,
                                      w0: W, i: nat, x: (seq<V>, W), y: (seq<V>, W))
    requires WellFormed(g) && Sound(g, marks) && CleanReads(g.ops, marks, roots) && QuietLaw(k, g)
    requires |bound| == g.slots && i < |g.ops| && Same(k, g, marks, roots, bound, w0, i, x, y)
    ensures OpInRange(g.ops[i], g.slots)
    ensures Same(k, g, marks, roots, bound, w0, i + 1,
                 Exec(k, g.ops[i], x.0, x.1), if marks[i] then y else Exec(k, g.ops[i], y.0, y.1))
  {
    var c := Forward(k, Constants(g.ops, marks), i, bound, w0);
    var final := Run(k, g.ops, marks, |g.ops|, bound, w0);
    if marks[i] {
      ConstantStep(k, g, marks, roots, i, x.0, y.0, c.0, final, x.1, c.1);
    } else {
      ReadsAgree(k, g, marks, roots, bound, w0, i, x, y);
      SurvivorStep(k, g, marks, roots, i, x.0, y.0, c.0, final, x.1);
    }
  }

  lemma SweepsStep<V(!new), W(!new), A>(k: Kernels<V, W, A>, g: Graph, marks: seq<bool>, roots: set<nat>,
                                        bound: seq<V>, w0: W, i: nat, a: seq<V>, b: seq<V>, w: W)
    requires WellFormed(g) && Sound(g, marks) && CleanReads(g.ops, marks, roots) && QuietLaw(k, g)
    requires |bound| == |a| == |b| == g.slots && 0 < i <= |g.ops|
    requires Same(k, g, marks, roots, bound, w0, i - 1,
                  Forward(k, Whole(g.ops), i - 1, a, w), Forward(k, Survivors(g.ops, marks), i - 1, b, w))
    ensures Same(k, g, marks, roots, bound, w0, i,
                 Forward(k, Whole(g.ops), i, a, w), Forward(k, Survivors(g.ops, marks), i, b, w))
  {
    OpInStep(k, g, marks, roots, bound, w0, i - 1,
             Forward(k, Whole(g.ops), i - 1, a, w), Forward(k, Survivors(g.ops, marks), i - 1, b, w));
  }

  lemma {:induction false} EvaluationInStep<V(!new), W(!new), A>(k: Kernels<V, W, A>, g: Graph, marks: seq<bool>,
                                                                 roots: set<nat>, bound: seq<V>, w0: W, i: nat,
                                                                 a: seq<V>, b: seq<V>, w: W)
    requires WellFormed(g) && Sound(g, marks) && CleanReads(g.ops, marks, roots) && QuietLaw(k, g)
    requires |bound| == g.slots && i <= |g.ops| && Same(k, g, marks, roots, bound, w0, 0, (a, w), (b, w))
    ensures Same(k, g, marks, roots, bound, w0, i,
                 Forward(k, Whole(g.ops), i, a, w), Forward(k, Survivors(g.ops, marks), i, b, w))
  {
    if i > 0 {
      EvaluationInStep(k, g, marks, roots, bound, w0, i - 1, a, b, w);
      SweepsStep(k, g, marks, roots, bound, w0, i, a, b, w);
    }
  }

  // ---------------------------------------------------------------- every evaluation

  ghost predicate SetsParams<V>(g: Graph, thetas: seq<map<nat, V>>) {
    forall t :: 0 <= t < |thetas| ==> thetas[t].Keys == g.params
  }

  /** Setting the parameters keeps what one evaluation hands the next. */
  lemma LoadInStep<V, W, A>(k: Kernels<V, W, A>, g: Graph, marks: seq<bool>, roots: set<nat>, bound: seq<V>, w0: W,
                            i: nat, x: (seq<V>, W), y: (seq<V>, W), theta: map<nat, V>)
    requires WellFormed(g) && |marks| == |g.ops| && |bound| == g.slots && i <= |g.ops| && theta.Keys == g.params
    requires Same(k, g, marks, roots, bound, w0, i, x, y)
    ensures Same(k, g, marks, roots, bound, w0, 0, (Load(x.0, theta), x.1), (Load(y.0, theta), y.1))
  {
    forall s: nat | s < g.slots && !Written(g.ops, s)
      ensures Run(k, g.ops, marks, i, bound, w0)[s] == Run(k, g.ops, marks, 0, bound, w0)[s]
    {
      ConstantRunEnds(k, g.ops, marks, 0, i, s, bound, w0);
    }
  }

  lemma FilledInStep<V, W, A>(k: Kernels<V, W, A>, g: Graph, marks: seq<bool>, roots: set<nat>, bound: seq<V>, w: W)
    requires WellFormed(g) && |marks| == |g.ops| && |bound| == g.slots
    ensures Same(k, g, marks, roots, bound, w, 0, (bound, w), (Filled(k, g.ops, marks, roots, bound, w), w))
  { }

  lemma {:induction false} EveryEvaluationInStep<V(!new), W(!new), A>(k: Kernels<V, W, A>, g: Graph, marks: seq<bool>,
                                                                      roots: set<nat>, bound: seq<V>, w: W,
                                                                      thetas: seq<map<nat, V>>, t: nat, i: nat)
    requires WellFormed(g) && Sound(g, marks) && CleanReads(g.ops, marks, roots) && QuietLaw(k, g)
    requires |bound| == g.slots && SetsParams(g, thetas) && t < |thetas| && i <= |g.ops|
    ensures Same(k, g, marks, roots, bound, w, i, At(k, Whole(g.ops), thetas, t, i, bound, w),
                 At(k, Survivors(g.ops, marks), thetas, t, i, Filled(k, g.ops, marks, roots, bound, w), w))
    decreases t
  {
    var filled := Filled(k, g.ops, marks, roots, bound, w);
    var x, y := (bound, w), (filled, w);
    var n: nat := 0;
    if t == 0 {
      FilledInStep(k, g, marks, roots, bound, w);
    } else {
      EveryEvaluationInStep(k, g, marks, roots, bound, w, thetas, t - 1, |g.ops|);
      x, y := At(k, Whole(g.ops), thetas, t - 1, |g.ops|, bound, w),
              At(k, Survivors(g.ops, marks), thetas, t - 1, |g.ops|, filled, w);
      n := |g.ops|;
    }
    LoadInStep(k, g, marks, roots, bound, w, n, x, y, thetas[t]);
    EvaluationInStep(k, g, marks, roots, bound, w, i, Load(x.0, thetas[t]), Load(y.0, thetas[t]), x.1);
  }

  /** Folding is invisible: in every evaluation of every sequence of parameter values, each surviving op
      reads what it reads in the original, the world is the same before each op, and the roots end up the
      same, for all kernels. */
  lemma FoldingPreserves<V(!new), W(!new), A>(k: Kernels<V, W, A>, g: Graph, roots: set<nat>, bound: seq<V>, w: W,
                                              thetas: seq<map<nat, V>>, t: nat, i: nat)
    requires WellFormed(g) && QuietLaw(k, g) && |bound| == g.slots && SetsParams(g, thetas) && t < |thetas|
    requires i <= |g.ops|
    requires CleanReads(g.ops, Settle(g, {}).0, roots)
    ensures var marks := Settle(g, {}).0;
            var x := At(k, Whole(g.ops), thetas, t, i, bound, w);
            var y := At(k, Survivors(g.ops, marks), thetas, t, i, Filled(k, g.ops, marks, roots, bound, w), w);
            x.1 == y.1 && SameReads(g, marks, roots, i, x.0, y.0)
  {
    SettledIsSound(g);
    var marks := Settle(g, {}).0;
    EveryEvaluationInStep(k, g, marks, roots, bound, w, thetas, t, i);
    ReadsAgree(k, g, marks, roots, bound, w, i, At(k, Whole(g.ops), thetas, t, i, bound, w),
               At(k, Survivors(g.ops, marks), thetas, t, i, Filled(k, g.ops, marks, roots, bound, w), w));
  }

  // ---------------------------------------------------------------- destructive update chains

  /** The only way to write a slot again is to update it in place: the first output, read by the op. */
  ghost predicate ChainWrites(ops: seq<Op>) {
    forall i, s :: 0 <= i < |ops| && WritesTo(ops[i], s) && LastWriter(ops, i, s).Some? ==>
      s == ops[i].out && s in ops[i].ins
  }

  /** On update chains the refusals leave no slot written from both sides, so folding is invisible. */
  lemma ChainsAreClean(g: Graph, roots: set<nat>)
    requires InRange(g.ops, g.slots) && ChainWrites(g.ops)
    ensures CleanReads(g.ops, Settle(g, {}).0, roots)
  {
    SettledIsSound(g);
    var marks := Settle(g, {}).0;
    forall s: nat, w: nat, j: nat | w < |g.ops| && j < |g.ops| && marks[w] && !marks[j] && WritesTo(g.ops[w], s)
      ensures !WritesTo(g.ops[j], s)
    {
      OneSided(g, marks, s, w, j);
    }
  }

  lemma OneSided(g: Graph, marks: seq<bool>, s: nat, w: nat, j: nat)
    requires ChainWrites(g.ops) && Sound(g, marks) && w < |g.ops| && j < |g.ops| && marks[w] && !marks[j]
    requires WritesTo(g.ops[w], s)
    ensures !WritesTo(g.ops[j], s)
  { }
}
