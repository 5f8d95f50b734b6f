/** Where folding is visible: a surviving op that merely overwrites a slot which a folded op filled. Stores
    that the in-place pass makes share a slot read it first, so this concerns graphs from elsewhere. */
module ConstFoldLimits {
  import opened Options
  import opened OpGraph
  import opened ConstFold
  import opened ConstFoldProof

  /** Kernels whose outputs name the op that computed them. */
  function Tagging(): Kernels<Option<Sig>, bool, bool> {
    Kernels(_ => false, (sig, ins) => Some(sig), (sig, ins, w) => (Some(sig), Some(sig), w),
            (sig, j, ins, out, seed, acc) => acc)
  }

  /** A folded and a surviving op that write the same slot differ in their signatures. */
  ghost predicate Apart(ops: seq<Op>, marks: seq<bool>)
    requires |ops| == |marks|
  {
    forall i, j, s: nat | 0 <= i < |ops| && 0 <= j < |ops| && WritesTo(ops[i], s) && WritesTo(ops[j], s) ::
      marks[i] && !marks[j] ==> ops[i].sig != ops[j].sig
  }

  predicate Tags(op: Option<Op>, s: nat) {
    op.Some? && WritesTo(op.value, s)
  }

  function LastTag(ops: seq<Option<Op>>, n: nat, s: nat): (r: Option<nat>)
    requires n <= |ops|
    ensures r.Some? ==> r.value < n && Tags(ops[r.value], s)
    ensures forall i :: (if r.Some? then r.value + 1 else 0) <= i < n ==> !Tags(ops[i], s)
  {
    if n == 0 then None else if Tags(ops[n - 1], s) then Some(n - 1) else LastTag(ops, n - 1, s)
  }

  lemma {:induction false} TagForward(ops: seq<Option<Op>>, n: nat, s: nat, mem: seq<Option<Sig>>, w: bool)
    requires n <= |ops| && Ranged(ops, |mem|) && s < |mem|
    requires forall i :: 0 <= i < |ops| && ops[i].Some? ==> ops[i].value.primal.None?
    ensures var last := LastTag(ops, n, s);
            Forward(Tagging(), ops, n, mem, w).0[s] == if last.Some? then Some(ops[last.value].value.sig) else mem[s]
  {
    if n > 0 {
      TagForward(ops, n - 1, s, mem, w);
    }
  }

  lemma TagOriginal(g: Graph, thetas: seq<map<nat, Option<Sig>>>, t: nat, i: nat, s: nat, mem: seq<Option<Sig>>,
                    w: bool)
    requires WellFormed(g) && |mem| == g.slots && t < |thetas| && i <= |g.ops| && s < g.slots
    requires LastWriter(g.ops, i, s).Some?
    ensures At(Tagging(), Whole(g.ops), thetas, t, i, mem, w).0[s] == Some(g.ops[LastWriter(g.ops, i, s).value].sig)
  {
    var start := if t == 0 then (mem, w) else At(Tagging(), Whole(g.ops), thetas, t - 1, |g.ops|, mem, w);
    TagForward(Whole(g.ops), i, s, Load(start.0, thetas[t]), start.1);
    assert Tags(Whole(g.ops)[LastWriter(g.ops, i, s).value], s);
    assert LastTag(Whole(g.ops), i, s) == LastWriter(g.ops, i, s);
  }

  /** From the second evaluation on, the folded graph finds a surviving op's tag in a slot one writes. */
  lemma TagFolded(g: Graph, marks: seq<bool>, thetas: seq<map<nat, Option<Sig>>>, i: nat, s: nat,
                  mem: seq<Option<Sig>>, w: bool)
    returns (h: nat)
    requires WellFormed(g) && |marks| == |g.ops| && |mem| == g.slots && SetsParams(g, thetas) && |thetas| >= 2
    requires i <= |g.ops| && s < g.slots && WrittenBy(g.ops, marks, false, s)
    ensures h < |g.ops| && !marks[h] && WritesTo(g.ops[h], s)
    ensures At(Tagging(), Survivors(g.ops, marks), thetas, 1, i, mem, w).0[s] == Some(g.ops[h].sig)
  {
    var ops' := Survivors(g.ops, marks);
    var first := At(Tagging(), ops', thetas, 0, |g.ops|, mem, w);
    TagForward(ops', |g.ops|, s, Load(mem, thetas[0]), w);
    TagForward(ops', i, s, Load(first.0, thetas[1]), first.1);
    var j :| 0 <= j < |g.ops| && !marks[j] && WritesTo(g.ops[j], s);
    assert s !in thetas[1];
    assert Tags(ops'[j], s);
    h := if LastTag(ops', i, s).Some? then LastTag(ops', i, s).value else LastTag(ops', |g.ops|, s).value;
  }

  lemma SlotDiffers(g: Graph, marks: seq<bool>, bound: seq<Option<Sig>>, filled: seq<Option<Sig>>, w: bool,
                    thetas: seq<map<nat, Option<Sig>>>, i: nat, s: nat)
    requires WellFormed(g) && |marks| == |g.ops| && Apart(g.ops, marks) && |bound| == |filled| == g.slots
    requires SetsParams(g, thetas) && |thetas| >= 2 && i <= |g.ops| && s < g.slots && !CleanAt(g.ops, marks, i, s)
    ensures At(Tagging(), Whole(g.ops), thetas, 1, i, bound, w).0[s] !=
            At(Tagging(), Survivors(g.ops, marks), thetas, 1, i, filled, w).0[s]
  {
    var last := LastWriter(g.ops, i, s).value;
    TagOriginal(g, thetas, 1, i, s, bound, w);
    var h := TagFolded(g, marks, thetas, i, s, filled, w);
    assert g.ops[h].sig != g.ops[last].sig;
  }

  /** In the second evaluation, op i (or, past the last op, the roots) reads the same in both graphs. */
  ghost predicate SecondLooksSame(g: Graph, marks: seq<bool>, roots: set<nat>, bound: seq<Option<Sig>>, w: bool,
                                  thetas: seq<map<nat, Option<Sig>>>, i: nat)
    requires WellFormed(g) && |marks| == |g.ops| && |bound| == g.slots && |thetas| >= 2 && i <= |g.ops|
  {
    SameReads(g, marks, roots, i, At(Tagging(), Whole(g.ops), thetas, 1, i, bound, w).0,
              At(Tagging(), Survivors(g.ops, marks), thetas, 1, i,
                 Filled(Tagging(), g.ops, marks, roots, bound, w), w).0)
  }

  /** The converse of FoldingPreserves: if a reader or root meets a slot last written by a folded op that
      a surviving op also writes, the second evaluation differs there for kernels that tag their output. */
  lemma UncleanReadsDiffer(g: Graph, marks: seq<bool>, roots: set<nat>, bound: seq<Option<Sig>>, w: bool,
                           thetas: seq<map<nat, Option<Sig>>>) returns (i: nat)
    requires WellFormed(g) && |marks| == |g.ops| && Apart(g.ops, marks) && |bound| == g.slots
    requires SetsParams(g, thetas) && |thetas| >= 2
    requires !CleanReads(g.ops, marks, roots)
    ensures i <= |g.ops| && !SecondLooksSame(g, marks, roots, bound, w, thetas, i)
  {
    var filled := Filled(Tagging(), g.ops, marks, roots, bound, w);
    if r :| r in roots && !CleanAt(g.ops, marks, |g.ops|, r) {
      i := |g.ops|;
      SlotDiffers(g, marks, bound, filled, w, thetas, i, r);
    } else {
      var i', j :| 0 <= i' < |g.ops| && !marks[i'] && 0 <= j < |g.ops[i'].ins| &&
              !CleanAt(g.ops, marks, i', g.ops[i'].ins[j]);
      i := i';
      InputDiffers(g, marks, roots, bound, w, thetas, i, j);
    }
  }

  lemma InputDiffers(g: Graph, marks: seq<bool>, roots: set<nat>, bound: seq<Option<Sig>>, w: bool,
                     thetas: seq<map<nat, Option<Sig>>>, i: nat, j: nat)
    requires WellFormed(g) && |marks| == |g.ops| && Apart(g.ops, marks) && |bound| == g.slots
    requires SetsParams(g, thetas) && |thetas| >= 2
    requires i < |g.ops| && !marks[i] && j < |g.ops[i].ins| && !CleanAt(g.ops, marks, i, g.ops[i].ins[j])
    ensures !SecondLooksSame(g, marks, roots, bound, w, thetas, i)
  {
    var filled := Filled(Tagging(), g.ops, marks, roots, bound, w);
    SlotDiffers(g, marks, bound, filled, w, thetas, i, g.ops[i].ins[j]);
    var a := At(Tagging(), Whole(g.ops), thetas, 1, i, bound, w).0;
    var b := At(Tagging(), Survivors(g.ops, marks), thetas, 1, i, filled, w).0;
    assert Gather(a, g.ops[i].ins)[j] != Gather(b, g.ops[i].ins)[j];
  }

  // ---------------------------------------------------------------- the pass itself lets one through

  function Tagged(code: nat): Sig {
    Sig(code, 0, 1, [], 0, false)
  }

  /** Slot 2 is computed from data, read together with parameter 1, then overwritten from it. */
  function Overwriting(): Graph {
    Graph([Op(Tagged(0), [0], 2, None, None), Op(Tagged(1), [2, 1], 3, None, None), Op(Tagged(2), [1], 2, None, None)],
          4, {1}, _ => true)
  }

  lemma OverwritingMarks()
    ensures InRange(Overwriting().ops, 4)
    ensures Settle(Overwriting(), {}).0 == [true, false, false]
  {
    var g := Overwriting();
    assert Live(g, {}, 0) == {1};
    assert MarkedAt(g, {}, 0) by { assert !ReadsFrom(g.ops[0], {1}); }
    assert Live(g, {}, 1) == {1};
    assert !MarkedAt(g, {}, 1) by { assert g.ops[1].ins[1] in {1}; }
    assert Live(g, {}, 2) == {1, 3};
    assert !MarkedAt(g, {}, 2) by { assert g.ops[2].ins[0] in {1, 3}; }
    var marks := Marks(g, {});
    assert marks == [true, false, false];
    forall i: nat, s: nat | i < 3 ensures !Refuses(g, marks, i, s) { }
    assert Refused(g, marks, 3) == {};
  }

  lemma OverwritingWellFormed()
    ensures WellFormed(Overwriting()) && forall marks :: |marks| == 3 ==> Apart(Overwriting().ops, marks)
  { }

  /** The comment that an op merely overwriting its output is safe to fold behind does not hold: the
      pass folds slot 2, and the second evaluation reads the overwritten value. */
  lemma OverwriteLeaks(bound: seq<Option<Sig>>, w: bool, thetas: seq<map<nat, Option<Sig>>>) returns (i: nat)
    requires |bound| == 4 && |thetas| >= 2 && SetsParams(Overwriting(), thetas)
    ensures WellFormed(Overwriting()) && i <= |Overwriting().ops|
    ensures !SecondLooksSame(Overwriting(), Settle(Overwriting(), {}).0, {3}, bound, w, thetas, i)
  {
    var g := Overwriting();
    OverwritingWellFormed();
    OverwritingMarks();
    var marks := Settle(g, {}).0;
    assert WritesTo(g.ops[2], 2) && g.ops[1].ins[0] == 2;
    assert LastWriter(g.ops, 1, 2) == Some(0);
    assert !CleanAt(g.ops, marks, 1, g.ops[1].ins[0]);
    i := UncleanReadsDiffer(g, marks, {3}, bound, w, thetas);
  }
}
