/** The op graph: slots are mutable buffers, ops run in order, and the same list backwards is the tape.

    Kernels are arbitrary functions, so every statement holds for whatever the kernels compute; the
    adjoint update of an input is an arbitrary function too, so no reassociation is ever assumed.
*/
module OpGraph {
  import opened Options

  /** What a kernel sees of an op besides its operands. `payload` 0 is "no opaque payload". */
  datatype Sig = Sig(code: nat, variant: nat, len: nat, idata: seq<int>, payload: nat, dynamic: bool)

  /** `primal` names the output whose forward value this op shares; the survivor names itself. */
  datatype Op = Op(sig: Sig, ins: seq<nat>, out: nat, out2: Option<nat>, primal: Option<nat>)

  /** `barred` opcodes have effects, state or structure that a pass cannot compare. A pure kernel is a
      function of its signature and inputs; any other one may also read and change the world. */
  datatype Kernels<!V, !W, !A> = Kernels(
    barred: nat -> bool,
    value: (Sig, seq<V>) -> V,
    effect: (Sig, seq<V>, W) -> (V, V, W),
    pull: (Sig, nat, seq<V>, V, (A, A), A) -> A)

  predicate Pure<V, W, A>(k: Kernels<V, W, A>, op: Op) {
    op.out2.None? && op.sig.payload == 0 && !op.sig.dynamic && !k.barred(op.sig.code)
  }

  predicate WritesTo(op: Op, s: nat) {
    op.out == s || op.out2 == Some(s)
  }

  predicate OpInRange(op: Op, slots: nat) {
    && op.out < slots
    && (op.out2.Some? ==> op.out2.value < slots)
    && (op.primal.Some? ==> op.primal.value < slots)
    && forall j :: 0 <= j < |op.ins| ==> op.ins[j] < slots
  }

  predicate InRange(ops: seq<Op>, slots: nat) {
    forall i :: 0 <= i < |ops| ==> OpInRange(ops[i], slots)
  }

  function FirstWriteFrom(ops: seq<Op>, i: nat, s: nat): (r: nat)
    requires i <= |ops|
    ensures r <= |ops|
    decreases |ops| - i
  {
    if i == |ops| || WritesTo(ops[i], s) then i else FirstWriteFrom(ops, i + 1, s)
  }

  /** The index of the first op that writes slot s, or the number of ops. */
  function FirstWrite(ops: seq<Op>, s: nat): nat {
    FirstWriteFrom(ops, 0, s)
  }

  lemma {:induction false} FirstWriteIs(ops: seq<Op>, i: nat, s: nat)
    requires i <= |ops|
    ensures i <= FirstWriteFrom(ops, i, s) <= |ops|
    ensures forall j :: i <= j < FirstWriteFrom(ops, i, s) ==> !WritesTo(ops[j], s)
    ensures FirstWriteFrom(ops, i, s) < |ops| ==> WritesTo(ops[FirstWriteFrom(ops, i, s)], s)
    decreases |ops| - i
  {
    if i < |ops| && !WritesTo(ops[i], s) {
      FirstWriteIs(ops, i + 1, s);
    }
  }

  /** A slot that op i or a later op writes and no earlier op has. */
  predicate Pending(ops: seq<Op>, i: nat, s: nat) {
    i <= FirstWrite(ops, s) < |ops|
  }

  /** Ops are in evaluation order: what an op reads is never written, or was written before. */
  predicate DefinedBeforeUse(ops: seq<Op>) {
    forall i, j :: 0 <= i < |ops| && 0 <= j < |ops[i].ins| ==> !Pending(ops, i, ops[i].ins[j])
  }

  // ---------------------------------------------------------------- forward

  function Gather<T>(mem: seq<T>, slots: seq<nat>): (r: seq<T>)
    requires forall j :: 0 <= j < |slots| ==> slots[j] < |mem|
    ensures |r| == |slots|
    ensures forall j :: 0 <= j < |slots| ==> r[j] == mem[slots[j]]
  {
    seq(|slots|, j requires 0 <= j < |slots| => mem[slots[j]])
  }

  predicate Shares(op: Op) {
    op.primal.Some? && op.primal.value != op.out
  }

  function Exec<V, W, A>(k: Kernels<V, W, A>, op: Op, mem: seq<V>, w: W): (r: (seq<V>, W))
    requires OpInRange(op, |mem|)
    ensures |r.0| == |mem|
    ensures forall s :: 0 <= s < |mem| && !WritesTo(op, s) ==> r.0[s] == mem[s]
  {
    if Shares(op) then (mem[op.out := mem[op.primal.value]], w)
    else if Pure(k, op) then (mem[op.out := k.value(op.sig, Gather(mem, op.ins))], w)
    else
      var e := k.effect(op.sig, Gather(mem, op.ins), w);
      var first := mem[op.out := e.0];
      (if op.out2.Some? then first[op.out2.value := e.1] else first, e.2)
  }

  /** The forward sweep over the first n ops; `None` marks an op a pass has dropped. */
  function Forward<V, W, A>(k: Kernels<V, W, A>, ops: seq<Option<Op>>, n: nat, mem: seq<V>, w: W): (r: (seq<V>, W))
    requires n <= |ops| && Ranged(ops, |mem|)
    ensures |r.0| == |mem|
  {
    if n == 0 then (mem, w) else
      var before := Forward(k, ops, n - 1, mem, w);
      if ops[n - 1].None? then before else Exec(k, ops[n - 1].value, before.0, before.1)
  }

  predicate Ranged(ops: seq<Option<Op>>, slots: nat) {
    forall i :: 0 <= i < |ops| && ops[i].Some? ==> OpInRange(ops[i].value, slots)
  }

  function Whole(ops: seq<Op>): (r: seq<Option<Op>>)
    ensures |r| == |ops|
    ensures forall i :: 0 <= i < |ops| ==> r[i] == Some(ops[i])
  {
    seq(|ops|, i requires 0 <= i < |ops| => Some(ops[i]))
  }

  /** The op list a pass returns: what it kept, in order. */
  function Kept(ops: seq<Option<Op>>): seq<Op> {
    if ops == [] then [] else
      Kept(ops[..|ops| - 1]) + (if ops[|ops| - 1].Some? then [ops[|ops| - 1].value] else [])
  }

  lemma {:induction false} KeptInRange(ops: seq<Option<Op>>, slots: nat)
    requires Ranged(ops, slots)
    ensures InRange(Kept(ops), slots)
  {
    if ops != [] {
      KeptInRange(ops[..|ops| - 1], slots);
    }
  }

  lemma {:induction false} ForwardPrefix<V, W, A>(k: Kernels<V, W, A>, ops: seq<Option<Op>>, more: seq<Option<Op>>,
                                                  n: nat, mem: seq<V>, w: W)
    requires n <= |ops| && Ranged(ops, |mem|) && Ranged(ops + more, |mem|)
    ensures Forward(k, ops + more, n, mem, w) == Forward(k, ops, n, mem, w)
  {
    if n > 0 {
      ForwardPrefix(k, ops, more, n - 1, mem, w);
      assert (ops + more)[n - 1] == ops[n - 1];
    }
  }

  /** Dropping marked ops from the list changes nothing the forward sweep computes. */
  lemma {:induction false} KeptForward<V, W, A>(k: Kernels<V, W, A>, ops: seq<Option<Op>>, mem: seq<V>, w: W)
    requires Ranged(ops, |mem|)
    ensures InRange(Kept(ops), |mem|)
    ensures Forward(k, Whole(Kept(ops)), |Kept(ops)|, mem, w) == Forward(k, ops, |ops|, mem, w)
  {
    KeptInRange(ops, |mem|);
    if ops != [] {
      var n := |ops| - 1;
      var front := ops[..n];
      KeptForward(k, front, mem, w);
      assert front + [ops[n]] == ops;
      ForwardPrefix(k, front, [ops[n]], n, mem, w);
      if ops[n].Some? {
        OneMoreForward(k, Kept(front), ops[n].value, mem, w);
      } else {
        assert Kept(ops) == Kept(front);
      }
    }
  }

  lemma OneMoreForward<V, W, A>(k: Kernels<V, W, A>, ops: seq<Op>, last: Op, mem: seq<V>, w: W)
    requires InRange(ops, |mem|) && OpInRange(last, |mem|)
    ensures InRange(ops + [last], |mem|)
    ensures var before := Forward(k, Whole(ops), |ops|, mem, w);
            Forward(k, Whole(ops + [last]), |ops| + 1, mem, w) == Exec(k, last, before.0, before.1)
  {
    assert Whole(ops) + [Some(last)] == Whole(ops + [last]);
    ForwardPrefix(k, Whole(ops), [Some(last)], |ops|, mem, w);
  }

  // ---------------------------------------------------------------- reverse

  /** The pullback of one op: each input's adjoint in turn, seeded by the output adjoints. An update may
      clear the adjoint it replaces, so in-place ops, which read their own output, can reset it; the
      adjoint of an output that an op merely overwrites is left alone. */
  function PullInputs<V, W, A>(k: Kernels<V, W, A>, op: Op, n: nat, mem: seq<V>, seed: (A, A), adj: seq<A>): (r: seq<A>)
    requires n <= |op.ins| && OpInRange(op, |mem|) && |adj| == |mem|
    ensures |r| == |adj|
  {
    if n == 0 then adj else
      var before := PullInputs(k, op, n - 1, mem, seed, adj);
      var s := op.ins[n - 1];
      before[s := k.pull(op.sig, n - 1, Gather(mem, op.ins), mem[op.out], seed, before[s])]
  }

  function SeedOf<A>(op: Op, adj: seq<A>): (A, A)
    requires OpInRange(op, |adj|)
  {
    (adj[op.out], if op.out2.Some? then adj[op.out2.value] else adj[op.out])
  }

  ghost predicate SameWhere<A>(active: seq<bool>, a: seq<A>, b: seq<A>) {
    |a| == |b| == |active| && forall s :: 0 <= s < |active| && active[s] ==> a[s] == b[s]
  }

  /** An op and its renamed form pull the same amounts into every active input. */
  lemma {:induction false} PullSame<V, W, A>(k: Kernels<V, W, A>, op: Op, o: Op, n: nat, m: seq<V>, m': seq<V>,
                                             seed: (A, A), adj: seq<A>, adj': seq<A>, active: seq<bool>)
    requires |m| == |m'| == |active| && OpInRange(op, |m|) && OpInRange(o, |m|) && SameWhere(active, adj, adj')
    requires o.sig == op.sig && |o.ins| == |op.ins| && n <= |op.ins|
    requires Gather(m, op.ins) == Gather(m', o.ins) && m[op.out] == m'[o.out]
    requires forall j :: 0 <= j < |op.ins| ==>
      o.ins[j] == op.ins[j] || (!active[op.ins[j]] && !active[o.ins[j]])
    ensures SameWhere(active, PullInputs(k, op, n, m, seed, adj), PullInputs(k, o, n, m', seed, adj'))
  {
    if n > 0 {
      PullSame(k, op, o, n - 1, m, m', seed, adj, adj', active);
    }
  }

  /** An op none of whose inputs is active pulls nothing into an active slot. */
  lemma {:induction false} PullNothing<V, W, A>(k: Kernels<V, W, A>, op: Op, n: nat, m: seq<V>, seed: (A, A),
                                                adj: seq<A>, active: seq<bool>)
    requires |m| == |adj| == |active| && OpInRange(op, |m|) && n <= |op.ins|
    requires forall j :: 0 <= j < |op.ins| ==> !active[op.ins[j]]
    ensures SameWhere(active, PullInputs(k, op, n, m, seed, adj), adj)
  {
    if n > 0 {
      PullNothing(k, op, n - 1, m, seed, adj, active);
    }
  }

  /** The reverse sweep down to op i, over the values the forward sweep left. */
  function Reverse<V, W, A>(k: Kernels<V, W, A>, ops: seq<Option<Op>>, i: nat, mem: seq<V>, adj: seq<A>): (r: seq<A>)
    requires i <= |ops| && Ranged(ops, |mem|) && |adj| == |mem|
    ensures |r| == |adj|
    decreases |ops| - i
  {
    if i == |ops| then adj else
      var after := Reverse(k, ops, i + 1, mem, adj);
      if ops[i].None? then after
      else PullInputs(k, ops[i].value, |ops[i].value.ins|, mem, SeedOf(ops[i].value, after), after)
  }

  lemma {:induction false} ReverseSuffix<V, W, A>(k: Kernels<V, W, A>, ops: seq<Option<Op>>, last: Option<Op>, i: nat,
                                                  mem: seq<V>, adj: seq<A>)
    requires i <= |ops| && Ranged(ops, |mem|) && Ranged(ops + [last], |mem|) && |adj| == |mem|
    ensures Reverse(k, ops + [last], i, mem, adj) ==
            Reverse(k, ops, i, mem, Reverse(k, ops + [last], |ops|, mem, adj))
    decreases |ops| - i
  {
    if i < |ops| {
      ReverseSuffix(k, ops, last, i + 1, mem, adj);
      assert (ops + [last])[i] == ops[i];
    }
  }

  /** Dropping marked ops from the list changes nothing the reverse sweep computes. */
  lemma {:induction false} KeptReverse<V, W, A>(k: Kernels<V, W, A>, ops: seq<Option<Op>>, mem: seq<V>, adj: seq<A>)
    requires Ranged(ops, |mem|) && |adj| == |mem|
    ensures InRange(Kept(ops), |mem|)
    ensures Reverse(k, Whole(Kept(ops)), 0, mem, adj) == Reverse(k, ops, 0, mem, adj)
  {
    KeptInRange(ops, |mem|);
    if ops != [] {
      var n := |ops| - 1;
      var front := ops[..n];
      assert front + [ops[n]] == ops;
      ReverseSuffix(k, front, ops[n], 0, mem, adj);
      var seeded := Reverse(k, ops, n, mem, adj);
      KeptReverse(k, front, mem, seeded);
      if ops[n].Some? {
        assert Whole(Kept(front)) + [ops[n]] == Whole(Kept(ops));
        ReverseSuffix(k, Whole(Kept(front)), ops[n], 0, mem, adj);
      } else {
        assert Kept(ops) == Kept(front);
      }
    }
  }
}
