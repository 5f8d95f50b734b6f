/** Constant folding: which ops no parameter reaches, found by a fixpoint of marking and refusing.

    Folding keeps a slot's final value only, so a slot whose intermediate value a surviving op still
    needs is refused; the refusal cascades and the marking starts over.
*/
module ConstFold {
  import opened Options
  import opened OpGraph

  /** `quiet` signatures have no effect: not effectful, and no compiled region that hides one. */
  datatype Graph = Graph(ops: seq<Op>, slots: nat, params: set<nat>, quiet: Sig -> bool)

  predicate Foldable(g: Graph, op: Op) {
    |op.ins| > 0 && g.quiet(op.sig)
  }

  function Outs(op: Op): (r: set<nat>)
    ensures forall s :: s in r <==> WritesTo(op, s)
  {
    {op.out} + (if op.out2.Some? then {op.out2.value} else {})
  }

  // ---------------------------------------------------------------- one round

  predicate ReadsFrom(op: Op, slots: set<nat>) {
    exists j :: 0 <= j < |op.ins| && op.ins[j] in slots
  }

  predicate IsConstant(g: Graph, noFold: set<nat>, live: set<nat>, op: Op) {
    Foldable(g, op) && !ReadsFrom(op, live) && Outs(op) !! noFold
  }

  /** Slots carrying a parameter's influence before op n: parameters and what surviving ops wrote. */
  function Live(g: Graph, noFold: set<nat>, n: nat): set<nat>
    requires n <= |g.ops|
  {
    if n == 0 then g.params else
      var before := Live(g, noFold, n - 1);
      if IsConstant(g, noFold, before, g.ops[n - 1]) then before else before + Outs(g.ops[n - 1])
  }

  predicate MarkedAt(g: Graph, noFold: set<nat>, i: nat)
    requires i < |g.ops|
  {
    IsConstant(g, noFold, Live(g, noFold, i), g.ops[i])
  }

  function Marks(g: Graph, noFold: set<nat>): (r: seq<bool>)
    ensures |r| == |g.ops|
    ensures forall i :: 0 <= i < |r| ==> r[i] == MarkedAt(g, noFold, i)
  {
    seq(|g.ops|, i requires 0 <= i < |g.ops| => MarkedAt(g, noFold, i))
  }

  /** The last marked op among the first n that writes slot s, or -1. */
  function LastMarked(ops: seq<Op>, marks: seq<bool>, n: nat, s: nat): (r: int)
    requires n <= |ops| == |marks|
    ensures -1 <= r < n
    ensures r >= 0 ==> marks[r] && WritesTo(ops[r], s)
    ensures forall i :: r < i < n && marks[i] ==> !WritesTo(ops[i], s)
  {
    if n == 0 then -1
    else if marks[n - 1] && WritesTo(ops[n - 1], s) then n - 1
    else LastMarked(ops, marks, n - 1, s)
  }

  /** Op i, surviving, needs contents of slot s that folding would not keep. */
  predicate Refuses(g: Graph, marks: seq<bool>, i: nat, s: nat)
    requires i < |g.ops| == |marks|
  {
    && !marks[i] && s in g.ops[i].ins
    && var last := LastMarked(g.ops, marks, |g.ops|, s);
    last > i || (s == g.ops[i].out && last >= 0)
  }

  function Refused(g: Graph, marks: seq<bool>, n: nat): (r: set<nat>)
    requires n <= |g.ops| == |marks|
    ensures forall s :: s in r <==> exists i :: 0 <= i < n && Refuses(g, marks, i, s)
  {
    if n == 0 then {} else
      Refused(g, marks, n - 1) + RefusedBy(g, marks, n - 1, |g.ops[n - 1].ins|)
  }

  /** The slots op i refuses among its first n inputs. */
  function RefusedBy(g: Graph, marks: seq<bool>, i: nat, n: nat): (r: set<nat>)
    requires i < |g.ops| == |marks| && n <= |g.ops[i].ins|
    ensures forall s :: s in r <==> s in g.ops[i].ins[..n] && Refuses(g, marks, i, s)
  {
    if n == 0 then {} else
      var s := g.ops[i].ins[n - 1];
      assert g.ops[i].ins[..n] == g.ops[i].ins[..n - 1] + [s];
      RefusedBy(g, marks, i, n - 1) + (if Refuses(g, marks, i, s) then {s} else {})
  }

  // ---------------------------------------------------------------- the fixpoint

  function UpTo(n: nat): (r: set<nat>)
    ensures forall s: nat :: s in r <==> s < n
  {
    if n == 0 then {} else UpTo(n - 1) + {n - 1}
  }

  function Slots(g: Graph): set<nat> {
    UpTo(g.slots)
  }

  lemma RefusedInRange(g: Graph, marks: seq<bool>)
    requires InRange(g.ops, g.slots) && |marks| == |g.ops|
    ensures Refused(g, marks, |g.ops|) <= Slots(g)
  { }

  lemma FewerLeft(g: Graph, noFold: set<nat>, more: set<nat>)
    requires noFold <= Slots(g) && more <= Slots(g) && !(more <= noFold)
    ensures |Slots(g) - (noFold + more)| < |Slots(g) - noFold|
  {
    var s :| s in more && s !in noFold;
    assert Slots(g) - (noFold + more) < Slots(g) - noFold;
    ProperSubsetIsSmaller(Slots(g) - (noFold + more), Slots(g) - noFold);
  }

  lemma ProperSubsetIsSmaller(a: set<nat>, b: set<nat>)
    requires a < b
    ensures |a| < |b|
  {
    assert b == a + (b - a) && |b| == |a| + |b - a|;
  }

  /** What rounds of marking and refusing settle on, starting from the slots in noFold. */
  function Settle(g: Graph, noFold: set<nat>): (r: (seq<bool>, set<nat>))
    requires InRange(g.ops, g.slots) && noFold <= Slots(g)
    ensures r.0 == Marks(g, r.1) && |r.0| == |g.ops|
    ensures noFold <= r.1 <= Slots(g) && Refused(g, r.0, |g.ops|) <= r.1
    decreases |Slots(g) - noFold|
  {
    var marks := Marks(g, noFold);
    var refused := Refused(g, marks, |g.ops|);
    RefusedInRange(g, marks);
    if refused <= noFold then (marks, noFold)
    else
      FewerLeft(g, noFold, refused);
      Settle(g, noFold + refused)
  }

  method Decide(g: Graph, noFold: set<nat>, live: set<nat>, op: Op) returns (c: bool)
    ensures c == IsConstant(g, noFold, live, op)
  {
    c := |op.ins| > 0 && g.quiet(op.sig);
    for j := 0 to |op.ins|
      invariant c == (Foldable(g, op) && forall h :: 0 <= h < j ==> op.ins[h] !in live)
    {
      if op.ins[j] in live {
        c := false;
      }
    }
    if op.out in noFold || (op.out2.Some? && op.out2.value in noFold) {
      c := false;
    }
  }

  method MarkRound(g: Graph, noFold: set<nat>) returns (marks: seq<bool>)
    ensures marks == Marks(g, noFold)
  {
    marks := [];
    var live := g.params;
    for i := 0 to |g.ops|
      invariant |marks| == i && live == Live(g, noFold, i) && marks == Marks(g, noFold)[..i]
    {
      var c := Decide(g, noFold, live, g.ops[i]);
      assert c == MarkedAt(g, noFold, i);
      marks := marks + [c];
      if !c {
        live := live + Outs(g.ops[i]);
      }
    }
  }

  method LastWrites(g: Graph, marks: seq<bool>) returns (last: seq<int>)
    requires InRange(g.ops, g.slots) && |marks| == |g.ops|
    ensures |last| == g.slots
    ensures forall s :: 0 <= s < g.slots ==> last[s] == LastMarked(g.ops, marks, |g.ops|, s)
  {
    last := seq(g.slots, _ => -1);
    for i := 0 to |g.ops|
      invariant |last| == g.slots
      invariant forall s :: 0 <= s < g.slots ==> last[s] == LastMarked(g.ops, marks, i, s)
    {
      var op := g.ops[i];
      if marks[i] {
        last := last[op.out := i];
        if op.out2.Some? {
          last := last[op.out2.value := i];
        }
      }
    }
  }

  method RefuseInputs(g: Graph, marks: seq<bool>, last: seq<int>, i: nat, noFold: set<nat>) returns (refused: set<nat>)
    requires InRange(g.ops, g.slots) && i < |marks| == |g.ops| && !marks[i] && |last| == g.slots
    requires forall s :: 0 <= s < g.slots ==> last[s] == LastMarked(g.ops, marks, |g.ops|, s)
    ensures refused == noFold + RefusedBy(g, marks, i, |g.ops[i].ins|)
  {
    var op := g.ops[i];
    refused := noFold;
    for j := 0 to |op.ins|
      invariant refused == noFold + RefusedBy(g, marks, i, j)
    {
      var s := op.ins[j];
      if last[s] > i || (s == op.out && last[s] >= 0) {
        refused := refused + {s};
      }
    }
  }

  method RefuseRound(g: Graph, marks: seq<bool>, noFold: set<nat>) returns (refused: set<nat>)
    requires InRange(g.ops, g.slots) && |marks| == |g.ops|
    ensures refused == noFold + Refused(g, marks, |g.ops|)
  {
    var last := LastWrites(g, marks);
    refused := noFold;
    for i := 0 to |g.ops|
      invariant refused == noFold + Refused(g, marks, i)
    {
      if !marks[i] {
        refused := RefuseInputs(g, marks, last, i, refused);
      }
    }
  }

  /** The marking loop runs without a round cap: every round but the last refuses a new slot. */
  method MarkConstantOps(g: Graph) returns (marks: seq<bool>)
    requires InRange(g.ops, g.slots)
    ensures marks == Settle(g, {}).0
  {
    var noFold := {};
    while true
      invariant noFold <= Slots(g) && Settle(g, noFold) == Settle(g, {})
      decreases |Slots(g) - noFold|
    {
      marks := MarkRound(g, noFold);
      RefusedInRange(g, marks);
      var refused := RefuseRound(g, marks, noFold);
      if refused == noFold {
        return;
      }
      FewerLeft(g, noFold, Refused(g, marks, |g.ops|));
      noFold := refused;
    }
  }

  // ---------------------------------------------------------------- what settled marks guarantee

  /** The last op among the first n that writes slot s. */
  function LastWriter(ops: seq<Op>, n: nat, s: nat): (r: Option<nat>)
    requires n <= |ops|
    ensures r.Some? ==> r.value < n && WritesTo(ops[r.value], s)
    ensures forall i :: (if r.Some? then r.value + 1 else 0) <= i < n ==> !WritesTo(ops[i], s)
  {
    if n == 0 then None else if WritesTo(ops[n - 1], s) then Some(n - 1) else LastWriter(ops, n - 1, s)
  }

  ghost predicate Sound(g: Graph, marks: seq<bool>) {
    && |marks| == |g.ops|
    && (forall i :: 0 <= i < |marks| && marks[i] ==> Foldable(g, g.ops[i]))
    && (forall i, j :: 0 <= i < |marks| && marks[i] && 0 <= j < |g.ops[i].ins| ==> g.ops[i].ins[j] !in g.params)
    && (forall i, j, h :: 0 <= h < i < |marks| && marks[i] && !marks[h] && 0 <= j < |g.ops[i].ins| ==>
          !WritesTo(g.ops[h], g.ops[i].ins[j]))
    && (forall i, j, h :: 0 <= i < h < |marks| && !marks[i] && marks[h] && 0 <= j < |g.ops[i].ins| ==>
          !WritesTo(g.ops[h], g.ops[i].ins[j]))
    && (forall i, h :: 0 <= i < |marks| && !marks[i] && g.ops[i].out in g.ops[i].ins && 0 <= h < |marks| && marks[h] ==>
          !WritesTo(g.ops[h], g.ops[i].out))
  }

  lemma {:induction false} LiveHolds(g: Graph, noFold: set<nat>, h: nat, n: nat)
    requires h <= n <= |g.ops|
    ensures Live(g, noFold, h) <= Live(g, noFold, n)
    decreases n - h
  {
    if h < n {
      LiveHolds(g, noFold, h, n - 1);
    }
  }

  /** No marked op reads a slot a parameter reaches, and no surviving op loses what it reads. */
  lemma SettledIsSound(g: Graph)
    requires InRange(g.ops, g.slots)
    ensures Sound(g, Settle(g, {}).0)
  {
    var marks, noFold := Settle(g, {}).0, Settle(g, {}).1;
    forall i, j | 0 <= i < |marks| && marks[i] && 0 <= j < |g.ops[i].ins|
      ensures g.ops[i].ins[j] !in g.params
      ensures forall h :: 0 <= h < i && !marks[h] ==> !WritesTo(g.ops[h], g.ops[i].ins[j])
    {
      LiveHolds(g, noFold, 0, i);
      forall h | 0 <= h < i && !marks[h] ensures !WritesTo(g.ops[h], g.ops[i].ins[j]) {
        LiveHolds(g, noFold, h + 1, i);
        assert Outs(g.ops[h]) <= Live(g, noFold, h + 1);
      }
    }
    forall i, s, h | 0 <= i < |marks| && !marks[i] && s in g.ops[i].ins && 0 <= h < |marks| && marks[h]
                     && (i < h || s == g.ops[i].out)
      ensures !WritesTo(g.ops[h], s)
    {
      RefusalHolds(g, marks, noFold, i, s, h);
    }
  }

  lemma RefusalHolds(g: Graph, marks: seq<bool>, noFold: set<nat>, i: nat, s: nat, h: nat)
    requires marks == Marks(g, noFold) && Refused(g, marks, |g.ops|) <= noFold
    requires i < |marks| && !marks[i] && s in g.ops[i].ins && h < |marks| && marks[h] && (i < h || s == g.ops[i].out)
    ensures !WritesTo(g.ops[h], s)
  {
    if WritesTo(g.ops[h], s) {
      assert s in Outs(g.ops[h]) && s !in noFold;
      assert h <= LastMarked(g.ops, marks, |g.ops|, s);
      assert Refuses(g, marks, i, s);
      assert false;
    }
  }
}
