/** Common-subexpression elimination: local value numbering over slots that are mutable buffers.

    Every write bumps its slot's version and a key carries the version of each input. A duplicate whose
    inputs no parameter reaches is dropped and its output renamed. A duplicate that parameters reach
    keeps its own slot and pullback and only shares the forward value, unless active duplicates are
    merged too.
*/
module Cse {
  import opened Options
  import opened OpGraph

  datatype Key = Key(sig: Sig, ins: seq<nat>, versions: seq<nat>)

  datatype Settings = Settings(writes: seq<nat>, keep: set<nat>, params: set<nat>, mergeActive: bool)

  datatype Pass = Pass(
    ops: seq<Option<Op>>,
    version: seq<nat>,
    active: seq<bool>,
    table: map<Key, nat>,
    rename: map<nat, nat>,
    primal: map<nat, nat>)

  // ---------------------------------------------------------------- the pass

  function Through(m: map<nat, nat>, s: nat): nat {
    if s in m then m[s] else s
  }

  function ThroughAll(m: map<nat, nat>, slots: seq<nat>): (r: seq<nat>)
    ensures |r| == |slots|
    ensures forall j :: 0 <= j < |slots| ==> r[j] == Through(m, slots[j])
  {
    seq(|slots|, j requires 0 <= j < |slots| => Through(m, slots[j]))
  }

  predicate AnyActive(active: seq<bool>, ins: seq<nat>) {
    exists j :: 0 <= j < |ins| && ins[j] < |active| && active[ins[j]]
  }

  function Mark(active: seq<bool>, op: Op, any: bool): (r: seq<bool>)
    requires OpInRange(op, |active|)
    ensures |r| == |active|
    ensures forall s :: 0 <= s < |active| ==> r[s] == (active[s] || (any && WritesTo(op, s)))
  {
    seq(|active|, s requires 0 <= s < |active| => active[s] || (any && WritesTo(op, s)))
  }

  function Bump(version: seq<nat>, op: Op): (r: seq<nat>)
    requires OpInRange(op, |version|)
    ensures |r| == |version|
    ensures forall s :: 0 <= s < |version| ==> r[s] >= version[s] && (r[s] > version[s] <==> WritesTo(op, s))
  {
    var first := version[op.out := version[op.out] + 1];
    if op.out2.Some? then first[op.out2.value := first[op.out2.value] + 1] else first
  }

  /** May this op, with inputs already renamed, be replaced by or survive as a duplicate? */
  predicate Candidate<V, W, A>(k: Kernels<V, W, A>, e: Settings, op: Op) {
    && Pure(k, op) && op.primal.None?
    && op.out < |e.writes| && e.writes[op.out] == 1
    && op.out !in e.keep && op.out !in e.params
    && op.out !in op.ins
  }

  function KeyOf(st: Pass, op: Op): Key
    requires forall j :: 0 <= j < |op.ins| ==> Through(st.primal, op.ins[j]) < |st.version|
  {
    var ins := ThroughAll(st.primal, op.ins);
    Key(op.sig, ins, Gather(st.version, ins))
  }

  predicate PassShape(st: Pass, slots: nat) {
    && |st.version| == |st.active| == slots
    && (forall s :: s in st.rename ==> st.rename[s] < slots)
    && (forall s :: s in st.primal ==> st.primal[s] < slots)
    && Ranged(st.ops, slots)
    && (forall key :: key in st.table ==> st.table[key] < |st.ops| && st.ops[st.table[key]].Some?)
  }

  function Renamed(st: Pass, op: Op): Op {
    op.(ins := ThroughAll(st.rename, op.ins))
  }

  /** Keep the op. */
  function Push(st: Pass, o: Op): (r: Pass)
    requires PassShape(st, |st.version|) && OpInRange(o, |st.version|)
    ensures PassShape(r, |st.version|)
  {
    st.(ops := st.ops + [Some(o)], version := Bump(st.version, o),
        active := Mark(st.active, o, AnyActive(st.active, o.ins)))
  }

  /** Keep the op and its pullback, but take its forward value from the survivor. */
  function Share(st: Pass, o: Op, at: nat): (r: Pass)
    requires PassShape(st, |st.version|) && OpInRange(o, |st.version|) && at < |st.ops| && st.ops[at].Some?
    ensures PassShape(r, |st.version|)
  {
    var survivor := st.ops[at].value;
    var marked := st.ops[at := Some(survivor.(primal := Some(survivor.out)))];
    st.(ops := marked + [Some(o.(primal := Some(survivor.out)))], version := Bump(st.version, o),
        active := Mark(st.active, o, AnyActive(st.active, o.ins)), primal := st.primal[o.out := survivor.out])
  }

  /** Drop the op; later reads of its output read the survivor's. */
  function Drop(st: Pass, o: Op, at: nat): (r: Pass)
    requires PassShape(st, |st.version|) && OpInRange(o, |st.version|) && at < |st.ops| && st.ops[at].Some?
    ensures PassShape(r, |st.version|)
  {
    st.(ops := st.ops + [None], rename := st.rename[o.out := st.ops[at].value.out],
        active := Mark(st.active, o, AnyActive(st.active, o.ins)))
  }

  /** One iteration of the pass over the ops. */
  function Visit<V, W, A>(k: Kernels<V, W, A>, e: Settings, st: Pass, op: Op): (r: Pass)
    requires OpInRange(op, |e.writes|) && PassShape(st, |e.writes|)
    ensures PassShape(r, |e.writes|) && |r.ops| == |st.ops| + 1
  {
    var o := Renamed(st, op);
    if !Candidate(k, e, o) then Push(st, o)
    else
      var key := KeyOf(st, o);
      if key !in st.table then Push(st, o).(table := st.table[key := |st.ops|])
      else if AnyActive(st.active, o.ins) && !e.mergeActive then Share(st, o, st.table[key])
      else Drop(st, o, st.table[key])
  }

  function Begin(e: Settings): Pass {
    Pass([], seq(|e.writes|, _ => 0), seq(|e.writes|, s => s in e.params), map[], map[], map[])
  }

  function VisitAll<V, W, A>(k: Kernels<V, W, A>, e: Settings, ops: seq<Op>, n: nat): (r: Pass)
    requires n <= |ops| && InRange(ops, |e.writes|)
    ensures PassShape(r, |e.writes|) && |r.ops| == n
  {
    if n == 0 then Begin(e) else Visit(k, e, VisitAll(k, e, ops, n - 1), ops[n - 1])
  }

  /** How many outputs of the first n ops are slot s. */
  function WriteCount(ops: seq<Op>, n: nat, s: nat): nat
    requires n <= |ops|
  {
    if n == 0 then 0 else
      var op := ops[n - 1];
      WriteCount(ops, n - 1, s) + (if op.out == s then 1 else 0) + (if op.out2 == Some(s) then 1 else 0)
  }

  /** The settings the pass derives from a graph: roots, the result and filled slots are kept. */
  ghost predicate SettingsFor(e: Settings, ops: seq<Op>) {
    && InRange(ops, |e.writes|)
    && (forall s :: 0 <= s < |e.writes| ==> e.writes[s] == WriteCount(ops, |ops|, s))
    && (forall i :: 0 <= i < |ops| ==> ops[i].primal.None?)
    && DefinedBeforeUse(ops)
  }

  method CountWrites(ops: seq<Op>, slots: nat) returns (writes: seq<nat>)
    requires InRange(ops, slots)
    ensures |writes| == slots
    ensures forall s :: 0 <= s < slots ==> writes[s] == WriteCount(ops, |ops|, s)
  {
    writes := seq(slots, _ => 0);
    for i := 0 to |ops|
      invariant |writes| == slots
      invariant forall s :: 0 <= s < slots ==> writes[s] == WriteCount(ops, i, s)
    {
      var op := ops[i];
      writes := writes[op.out := writes[op.out] + 1];
      if op.out2.Some? {
        writes := writes[op.out2.value := writes[op.out2.value] + 1];
      }
    }
  }

  /** The pass: the ops it keeps and the target terms under their new names. */
  method Eliminate<V, W, A>(k: Kernels<V, W, A>, ops: seq<Op>, slots: nat, keep: set<nat>, params: set<nat>,
                            mergeActive: bool, terms: seq<nat>) returns (e: Settings, kept: seq<Op>, terms': seq<nat>)
    requires InRange(ops, slots)
    ensures e == Settings(e.writes, keep, params, mergeActive) && |e.writes| == slots
    ensures DefinedBeforeUse(ops) && (forall i :: 0 <= i < |ops| ==> ops[i].primal.None?) ==> SettingsFor(e, ops)
    ensures var st := VisitAll(k, e, ops, |ops|);
            kept == Kept(st.ops) && terms' == ThroughAll(st.rename, terms)
  {
    var writes := CountWrites(ops, slots);
    e := Settings(writes, keep, params, mergeActive);
    var st := Begin(e);
    for i := 0 to |ops|
      invariant st == VisitAll(k, e, ops, i)
    {
      st := Visit(k, e, st, ops[i]);
    }
    terms' := ThroughAll(st.rename, terms);
    kept := [];
    for i := 0 to |ops|
      invariant kept == Kept(st.ops[..i])
    {
      assert st.ops[..i + 1][..i] == st.ops[..i];
      if st.ops[i].Some? {
        kept := kept + [st.ops[i].value];
      }
    }
    assert st.ops[..|ops|] == st.ops;
  }
}
