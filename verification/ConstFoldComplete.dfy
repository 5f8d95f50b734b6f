/** Which ops the marking loop marks, read off the graph: all but those from which reads lead to a
    parameter, to an op that cannot be folded, or to a slot that had to be refused.
*/
module ConstFoldComplete {
  import opened Options
  import opened OpGraph
  import opened ConstFold

  /** Op i reads a slot that op h writes before it. */
  predicate Reads(g: Graph, i: nat, h: nat) {
    h < i < |g.ops| && exists j :: 0 <= j < |g.ops[i].ins| && WritesTo(g.ops[h], g.ops[i].ins[j])
  }

  /** An op that keeps itself from being folded: it has an effect or no input, or reads a parameter. */
  predicate Unfit(g: Graph, i: nat)
    requires i < |g.ops|
  {
    || !g.quiet(g.ops[i].sig) || |g.ops[i].ins| == 0
    || exists j :: 0 <= j < |g.ops[i].ins| && g.ops[i].ins[j] in g.params
  }

  predicate Writes(g: Graph, i: nat, slots: set<nat>)
    requires i < |g.ops|
  {
    exists s :: s in slots && WritesTo(g.ops[i], s)
  }

  /** Reads lead from op path[0] to an unfit op or one that writes a refused slot. */
  ghost predicate TaintPath(g: Graph, refused: set<nat>, path: seq<nat>) {
    && path != []
    && (forall k :: 0 <= k < |path| ==> path[k] < |g.ops|)
    && (forall k :: 0 <= k < |path| - 1 ==> Reads(g, path[k], path[k + 1]))
    && (Unfit(g, path[|path| - 1]) || Writes(g, path[|path| - 1], refused))
  }

  ghost predicate Tainted(g: Graph, refused: set<nat>, i: nat) {
    exists path :: TaintPath(g, refused, path) && path[0] == i
  }

  // ---------------------------------------------------------------- one round

  lemma {:induction false} LiveIs(g: Graph, noFold: set<nat>, n: nat, s: nat)
    requires n <= |g.ops|
    ensures s in Live(g, noFold, n) <==>
            s in g.params || exists h :: 0 <= h < n && !MarkedAt(g, noFold, h) && WritesTo(g.ops[h], s)
  {
    if n > 0 {
      LiveIs(g, noFold, n - 1, s);
    }
  }

  /** An op is marked unless something about itself or an earlier unmarked op keeps it from it. */
  lemma MarkedUnless(g: Graph, noFold: set<nat>, i: nat)
    requires i < |g.ops|
    ensures MarkedAt(g, noFold, i) <==>
            && !Unfit(g, i) && !Writes(g, i, noFold)
            && forall h :: 0 <= h < i && Reads(g, i, h) ==> MarkedAt(g, noFold, h)
  {
    var op := g.ops[i];
    forall j | 0 <= j < |op.ins|
      ensures op.ins[j] in Live(g, noFold, i) <==>
              op.ins[j] in g.params
              || exists h :: 0 <= h < i && !MarkedAt(g, noFold, h) && WritesTo(g.ops[h], op.ins[j])
    {
      LiveIs(g, noFold, i, op.ins[j]);
    }
    assert Writes(g, i, noFold) <==> !(Outs(op) !! noFold);
  }

  lemma LongerTaint(g: Graph, refused: set<nat>, i: nat, path: seq<nat>)
    requires TaintPath(g, refused, path) && Reads(g, i, path[0])
    ensures TaintPath(g, refused, [i] + path) && Tainted(g, refused, i)
  {
    var longer := [i] + path;
    forall k | 0 <= k < |longer| - 1 ensures Reads(g, longer[k], longer[k + 1]) {
      assert longer[k + 1] == path[k];
      if k > 0 {
        assert longer[k] == path[k - 1] && Reads(g, path[k - 1], path[k - 1 + 1]);
      }
    }
    assert longer[|longer| - 1] == path[|path| - 1] && longer[0] == i;
  }

  lemma OwnTaint(g: Graph, refused: set<nat>, i: nat)
    requires i < |g.ops|
    ensures Unfit(g, i) || Writes(g, i, refused) ==> Tainted(g, refused, i)
  {
    if Unfit(g, i) || Writes(g, i, refused) {
      var path: seq<nat> := [i];
      assert TaintPath(g, refused, path) && path[0] == i;
    }
  }

  lemma {:induction false} MarkedIffUntainted(g: Graph, noFold: set<nat>, i: nat)
    requires i < |g.ops|
    ensures MarkedAt(g, noFold, i) <==> !Tainted(g, noFold, i)
    decreases i
  {
    MarkedUnless(g, noFold, i);
    forall h | 0 <= h < i ensures MarkedAt(g, noFold, h) <==> !Tainted(g, noFold, h) {
      MarkedIffUntainted(g, noFold, h);
    }
    if Tainted(g, noFold, i) {
      var path :| TaintPath(g, noFold, path) && path[0] == i;
      if |path| > 1 {
        assert Reads(g, path[0], path[0 + 1]);
        RestOfTaint(g, noFold, path);
      }
    } else {
      OwnTaint(g, noFold, i);
      forall h | 0 <= h < i && Reads(g, i, h) ensures MarkedAt(g, noFold, h) {
        if Tainted(g, noFold, h) {
          var path :| TaintPath(g, noFold, path) && path[0] == h;
          LongerTaint(g, noFold, i, path);
        }
      }
    }
  }

  lemma RestOfTaint(g: Graph, refused: set<nat>, path: seq<nat>)
    requires TaintPath(g, refused, path) && |path| > 1
    ensures Tainted(g, refused, path[1])
  {
    var rest := path[1..];
    forall k | 0 <= k < |rest| - 1 ensures Reads(g, rest[k], rest[k + 1]) {
      assert Reads(g, path[k + 1], path[k + 1 + 1]);
    }
    assert TaintPath(g, refused, rest) && rest[0] == path[1];
  }

  // ---------------------------------------------------------------- what is refused

  /** Op i survives and reads slot s, which op h, that could be folded but for refusals, writes behind it
      or in front of its own update in place. */
  ghost predicate Needs(g: Graph, marks: seq<bool>, i: nat, h: nat, s: nat) {
    && i < |g.ops| == |marks| && h < |g.ops|
    && !marks[i] && s in g.ops[i].ins && WritesTo(g.ops[h], s) && !Tainted(g, {}, h)
    && (h > i || s == g.ops[i].out)
  }

  ghost predicate Needed(g: Graph, marks: seq<bool>, s: nat) {
    exists i: nat, h: nat :: Needs(g, marks, i, h, s)
  }

  lemma MoreRefusedFewerMarked(g: Graph, a: set<nat>, b: set<nat>, i: nat)
    requires a <= b && i < |g.ops| && MarkedAt(g, b, i)
    ensures MarkedAt(g, a, i)
  {
    MarkedIffUntainted(g, a, i);
    MarkedIffUntainted(g, b, i);
  }

  lemma RefusedIsNeeded(g: Graph, noFold: set<nat>, s: nat)
    requires s in Refused(g, Marks(g, noFold), |g.ops|)
    ensures Needed(g, Marks(g, noFold), s)
  {
    var marks := Marks(g, noFold);
    var i :| 0 <= i < |g.ops| && Refuses(g, marks, i, s);
    var h := LastMarked(g.ops, marks, |g.ops|, s);
    MoreRefusedFewerMarked(g, {}, noFold, h);
    MarkedIffUntainted(g, {}, h);
    assert Needs(g, marks, i, h, s);
  }

  lemma StillNeeded(g: Graph, a: set<nat>, b: set<nat>, s: nat)
    requires a <= b && Needed(g, Marks(g, a), s)
    ensures Needed(g, Marks(g, b), s)
  {
    var i: nat, h: nat :| Needs(g, Marks(g, a), i, h, s);
    if MarkedAt(g, b, i) {
      MoreRefusedFewerMarked(g, a, b, i);
    }
    assert Needs(g, Marks(g, b), i, h, s);
  }

  lemma {:induction false} SettledIsNeeded(g: Graph, noFold: set<nat>)
    requires InRange(g.ops, g.slots) && noFold <= Slots(g)
    requires forall s :: s in noFold ==> Needed(g, Marks(g, noFold), s)
    ensures forall s :: s in Settle(g, noFold).1 ==> Needed(g, Settle(g, noFold).0, s)
    decreases |Slots(g) - noFold|
  {
    var refused := Refused(g, Marks(g, noFold), |g.ops|);
    RefusedInRange(g, Marks(g, noFold));
    if !(refused <= noFold) {
      FewerLeft(g, noFold, refused);
      forall s | s in noFold + refused ensures Needed(g, Marks(g, noFold + refused), s) {
        if s in refused {
          RefusedIsNeeded(g, noFold, s);
        }
        StillNeeded(g, noFold, noFold + refused, s);
      }
      SettledIsNeeded(g, noFold + refused);
    }
  }

  /** On every graph: an op is marked unless reads lead from it to an op that is unfit or writes a refused
      slot, and a slot is refused only because a surviving op needs what folding would not keep. */
  lemma MarkedIff(g: Graph, i: nat)
    requires InRange(g.ops, g.slots) && i < |g.ops|
    ensures var (marks, refused) := Settle(g, {});
            && (marks[i] <==> !Tainted(g, refused, i))
            && (marks[i] <==> && !Unfit(g, i) && !Writes(g, i, refused)
                              && forall h :: 0 <= h < i && Reads(g, i, h) ==> marks[h])
            && forall s :: s in refused ==> Needed(g, marks, s)
  {
    var (marks, refused) := Settle(g, {});
    MarkedIffUntainted(g, refused, i);
    MarkedUnless(g, refused, i);
    SettledIsNeeded(g, {});
  }

  // ---------------------------------------------------------------- graphs without shared slots

  ghost predicate OneWriterEach(ops: seq<Op>) {
    forall i, j, s: nat | 0 <= i < |ops| && 0 <= j < |ops| && WritesTo(ops[i], s) && WritesTo(ops[j], s) :: i == j
  }

  /** Where each slot has one writer, which comes before its readers, nothing is refused: an op is marked
      if and only if no chain of reads leads from it to an unfit op. */
  lemma MarkedIffNoChain(g: Graph, i: nat)
    requires InRange(g.ops, g.slots) && i < |g.ops| && OneWriterEach(g.ops) && DefinedBeforeUse(g.ops)
    ensures Settle(g, {}).0[i] <==> !Tainted(g, {}, i)
  {
    forall h, s | 0 <= h < |g.ops| ensures !Refuses(g, Marks(g, {}), h, s) {
      NothingRefused(g, h, s);
    }
    MarkedIffUntainted(g, {}, i);
    assert Settle(g, {}) == (Marks(g, {}), {});
  }

  lemma NothingRefused(g: Graph, i: nat, s: nat)
    requires i < |g.ops| && OneWriterEach(g.ops) && DefinedBeforeUse(g.ops)
    ensures !Refuses(g, Marks(g, {}), i, s)
  {
    FirstWriteIs(g.ops, 0, s);
  }
}
