/** Without merging of active duplicates the reverse sweep of the rewritten graph gives every parameter
    the adjoint the original gives, for adjoint updates that need not be associative. */
module CseReverse {
  import opened Options
  import opened OpGraph
  import opened Cse
  import opened CseProof

  // ---------------------------------------------------------------- activity

  /** Renamed slots are reached by no parameter, shared ones are, and a table entry is as active as
      its inputs for as long as it is current. */
  ghost predicate ActivityOk(e: Settings, ops: seq<Op>, n: nat, st: Pass)
    requires PassShape(st, |e.writes|)
  {
    && (forall s :: 0 <= s < |e.writes| && st.active[s] ==> s in e.params || FirstWrite(ops, s) < n)
    && (forall s :: s in st.rename && s < |e.writes| ==> !st.active[s] && !st.active[st.rename[s]])
    && (forall s :: s in st.primal && s < |e.writes| ==> st.active[s] && st.active[st.primal[s]])
    && (forall key :: key in st.table ==> EntryActivity(st, key))
  }

  lemma SameActivity(a: seq<bool>, b: seq<bool>, ins: seq<nat>)
    requires |a| == |b| && forall j :: 0 <= j < |ins| && ins[j] < |a| ==> a[ins[j]] == b[ins[j]]
    ensures AnyActive(a, ins) == AnyActive(b, ins)
  { }

  ghost predicate EntryActivity(st: Pass, key: Key)
    requires PassShape(st, |st.version|) && key in st.table
  {
    Current(st, key) ==>
      (st.active[st.ops[st.table[key]].value.out] <==> AnyActive(st.active, key.ins))
  }

  /** Where a visit changes activity it has bumped the version, so no current entry notices. */
  lemma EntryActivityKept(e: Settings, ops: seq<Op>, n: nat, st: Pass, st': Pass, key: Key)
    requires n < |ops| && WriteFacts(e, ops, n) && PassShape(st, |e.writes|) && PassShape(st', |e.writes|)
    requires key in st.table && EntryOk(e, ops, n, st, key) && EntryActivity(st, key)
    requires key in st'.table && st'.table[key] == st.table[key]
    requires st'.ops[st.table[key]].value.out == st.ops[st.table[key]].value.out
    requires forall s :: 0 <= s < |e.writes| ==>
      st'.version[s] >= st.version[s]
      && (st'.active[s] != st.active[s] ==> WritesTo(ops[n], s) && st'.version[s] > st.version[s])
    ensures EntryActivity(st', key)
  { }

  lemma PushActivity(e: Settings, ops: seq<Op>, n: nat, st: Pass)
    requires Flow(e, ops) && n < |ops| && PassInv(e, ops, n, st) && ActivityOk(e, ops, n, st)
    requires OpInRange(Renamed(st, ops[n]), |e.writes|)
    ensures ActivityOk(e, ops, n + 1, Push(st, Renamed(st, ops[n])))
  {
    assert WriteFacts(e, ops, n);
    var st' := Push(st, Renamed(st, ops[n]));
    forall key | key in st'.table ensures EntryActivity(st', key) {
      EntryActivityKept(e, ops, n, st, st', key);
    }
  }

  lemma CanonicalActivity(e: Settings, ops: seq<Op>, n: nat, st: Pass)
    requires Flow(e, ops) && n < |ops| && PassInv(e, ops, n, st) && ActivityOk(e, ops, n, st)
    ensures var o := Renamed(st, ops[n]);
            && (forall j :: 0 <= j < |o.ins| ==> Through(st.primal, o.ins[j]) < |st.version|)
            && (AnyActive(st.active, o.ins) <==> AnyActive(st.active, ThroughAll(st.primal, o.ins)))
  { }

  lemma VisitActivity<V, W, A>(k: Kernels<V, W, A>, e: Settings, ops: seq<Op>, n: nat, st: Pass)
    requires Flow(e, ops) && n < |ops| && PassInv(e, ops, n, st) && ActivityOk(e, ops, n, st) && !e.mergeActive
    ensures ActivityOk(e, ops, n + 1, Visit(k, e, st, ops[n]))
  {
    var o := Renamed(st, ops[n]);
    ResolvedIns(e, ops, n, st);
    if !Candidate(k, e, o) {
      PushActivity(e, ops, n, st);
    } else {
      CanonicalActivity(e, ops, n, st);
      var key := KeyOf(st, o);
      if key !in st.table {
        EnterActivity(e, ops, n, st);
      } else if AnyActive(st.active, o.ins) {
        ShareActivity(e, ops, n, st, key);
      } else {
        DropActivity(e, ops, n, st, key);
      }
    }
  }

  lemma EnterActivity(e: Settings, ops: seq<Op>, n: nat, st: Pass)
    requires Flow(e, ops) && n < |ops| && PassInv(e, ops, n, st) && ActivityOk(e, ops, n, st)
    requires OpInRange(Renamed(st, ops[n]), |e.writes|) && e.writes[ops[n].out] == 1 && ops[n].out2.None?
    requires ops[n].out !in e.params
    requires forall j :: 0 <= j < |ops[n].ins| ==> Through(st.primal, Renamed(st, ops[n]).ins[j]) < |st.version|
    ensures var o := Renamed(st, ops[n]);
            var st' := Push(st, o).(table := st.table[KeyOf(st, o) := n]);
            PassShape(st', |e.writes|) && ActivityOk(e, ops, n + 1, st')
  {
    PushActivity(e, ops, n, st);
    NewEntryActivity(e, ops, n, st);
    var o := Renamed(st, ops[n]);
    var st' := Push(st, o).(table := st.table[KeyOf(st, o) := n]);
    forall key | key in st'.table ensures EntryActivity(st', key) {
      if key != KeyOf(st, o) {
        assert EntryActivity(Push(st, o), key);
      }
    }
  }

  lemma NewEntryActivity(e: Settings, ops: seq<Op>, n: nat, st: Pass)
    requires Flow(e, ops) && n < |ops| && PassInv(e, ops, n, st) && ActivityOk(e, ops, n, st)
    requires OpInRange(Renamed(st, ops[n]), |e.writes|) && e.writes[ops[n].out] == 1 && ops[n].out2.None?
    requires ops[n].out !in e.params
    requires forall j :: 0 <= j < |ops[n].ins| ==> Through(st.primal, Renamed(st, ops[n]).ins[j]) < |st.version|
    ensures var after := Push(st, Renamed(st, ops[n])).active;
            after[ops[n].out] <==> AnyActive(after, ThroughAll(st.primal, Renamed(st, ops[n]).ins))
  {
    CanonicalActivity(e, ops, n, st);
    ResolvedIns(e, ops, n, st);
    var o := Renamed(st, ops[n]);
    assert FirstWrite(ops, o.out) == n by { assert WriteFacts(e, ops, n); }
    SameActivity(st.active, Push(st, o).active, ThroughAll(st.primal, o.ins));
  }

  lemma ShareActivity(e: Settings, ops: seq<Op>, n: nat, st: Pass, key: Key)
    requires Flow(e, ops) && n < |ops| && PassInv(e, ops, n, st) && ActivityOk(e, ops, n, st)
    requires OpInRange(Renamed(st, ops[n]), |e.writes|) && e.writes[ops[n].out] == 1
    requires key in st.table && Current(st, key) && AnyActive(st.active, key.ins)
    requires AnyActive(st.active, Renamed(st, ops[n]).ins)
    ensures ActivityOk(e, ops, n + 1, Share(st, Renamed(st, ops[n]), st.table[key]))
  {
    PushActivity(e, ops, n, st);
    var pushed := Push(st, Renamed(st, ops[n]));
    var st' := Share(st, Renamed(st, ops[n]), st.table[key]);
    assert st'.active == pushed.active && st'.rename == pushed.rename;
    assert EntryOk(e, ops, n, st, key);
    assert WriteFacts(e, ops, n);
    ShareEntries(e, ops, n, st, st.table[key]);
  }

  lemma ShareEntries(e: Settings, ops: seq<Op>, n: nat, st: Pass, at: nat)
    requires Flow(e, ops) && n < |ops| && PassInv(e, ops, n, st) && ActivityOk(e, ops, n, st)
    requires OpInRange(Renamed(st, ops[n]), |e.writes|) && at < n && st.ops[at].Some?
    ensures var st' := Share(st, Renamed(st, ops[n]), at);
            forall key :: key in st'.table ==> EntryActivity(st', key)
  {
    var st' := Share(st, Renamed(st, ops[n]), at);
    assert WriteFacts(e, ops, n);
    forall key | key in st'.table ensures EntryActivity(st', key) {
      EntryActivityKept(e, ops, n, st, st', key);
    }
  }

  lemma DropActivity(e: Settings, ops: seq<Op>, n: nat, st: Pass, key: Key)
    requires Flow(e, ops) && n < |ops| && PassInv(e, ops, n, st) && ActivityOk(e, ops, n, st)
    requires OpInRange(Renamed(st, ops[n]), |e.writes|) && e.writes[ops[n].out] == 1 && ops[n].out !in e.params
    requires key in st.table && Current(st, key) && !AnyActive(st.active, key.ins)
    requires !AnyActive(st.active, Renamed(st, ops[n]).ins)
    ensures ActivityOk(e, ops, n + 1, Drop(st, Renamed(st, ops[n]), st.table[key]))
  {
    var st' := Drop(st, Renamed(st, ops[n]), st.table[key]);
    assert st'.active == st.active;
    assert EntryOk(e, ops, n, st, key);
    assert WriteFacts(e, ops, n);
    forall key' | key' in st'.table ensures EntryActivity(st', key') {
      EntryActivityKept(e, ops, n, st, st', key');
    }
  }

  // ---------------------------------------------------------------- one visit, from the outside

  predicate SameUpToPrimal(a: Option<Op>, b: Option<Op>) {
    && a.Some? == b.Some?
    && (a.Some? ==> a.value.sig == b.value.sig && a.value.ins == b.value.ins
                    && a.value.out == b.value.out && a.value.out2 == b.value.out2)
  }

  /** All that one visit changes, whichever branch it takes. */
  ghost predicate Effect(e: Settings, st: Pass, op: Op, r: Pass) {
    && |st.active| == |e.writes| && OpInRange(op, |st.active|) && |r.ops| == |st.ops| + 1
    && var o := Renamed(st, op);
    && r.active == Mark(st.active, op, AnyActive(st.active, o.ins))
    && (forall s :: s != op.out ==> Through(r.rename, s) == Through(st.rename, s))
    && (r.rename == st.rename || e.writes[op.out] == 1)
    && (forall i :: 0 <= i < |st.ops| ==> SameUpToPrimal(r.ops[i], st.ops[i]))
    && (r.ops[|st.ops|].Some? ==> SameUpToPrimal(r.ops[|st.ops|], Some(o)))
    && (r.ops[|st.ops|].None? && !e.mergeActive ==> !AnyActive(st.active, o.ins))
  }

  lemma PushEffect(e: Settings, st: Pass, op: Op, table: map<Key, nat>)
    requires OpInRange(op, |e.writes|) && PassShape(st, |e.writes|)
    ensures Effect(e, st, op, Push(st, Renamed(st, op)).(table := table))
  { }

  lemma ShareEffect(e: Settings, st: Pass, op: Op, at: nat)
    requires OpInRange(op, |e.writes|) && PassShape(st, |e.writes|) && at < |st.ops| && st.ops[at].Some?
    ensures Effect(e, st, op, Share(st, Renamed(st, op), at))
  { }

  lemma DropEffect(e: Settings, st: Pass, op: Op, at: nat)
    requires OpInRange(op, |e.writes|) && PassShape(st, |e.writes|) && at < |st.ops| && st.ops[at].Some?
    requires e.writes[op.out] == 1 && (e.mergeActive || !AnyActive(st.active, Renamed(st, op).ins))
    ensures Effect(e, st, op, Drop(st, Renamed(st, op), at))
  { }

  lemma VisitEffect<V, W, A>(k: Kernels<V, W, A>, e: Settings, st: Pass, op: Op)
    requires OpInRange(op, |e.writes|) && PassShape(st, |e.writes|)
    ensures Effect(e, st, op, Visit(k, e, st, op))
  {
    var o := Renamed(st, op);
    if !Candidate(k, e, o) {
      PushEffect(e, st, op, st.table);
    } else {
      var key := KeyOf(st, o);
      if key !in st.table {
        PushEffect(e, st, op, st.table[key := |st.ops|]);
      } else if AnyActive(st.active, o.ins) && !e.mergeActive {
        ShareEffect(e, st, op, st.table[key]);
      } else {
        DropEffect(e, st, op, st.table[key]);
      }
    }
  }

  // ---------------------------------------------------------------- the whole pass, from the outside

  /** What is known of the state before visit i, and of the one after it. */
  ghost predicate VisitOk(e: Settings, ops: seq<Op>, i: nat, st: Pass, next: Pass)
    requires i <= |ops|
  {
    && PassInv(e, ops, i, st) && (e.mergeActive || ActivityOk(e, ops, i, st))
    && (i < |ops| ==> Effect(e, st, ops[i], next))
  }

  ghost predicate TraceAt(e: Settings, ops: seq<Op>, tr: seq<Pass>, i: nat)
    requires i <= |ops| && |tr| == |ops| + 1
  {
    VisitOk(e, ops, i, tr[i], tr[if i < |ops| then i + 1 else i])
  }

  /** The states the pass goes through, with what is known of each. */
  ghost predicate Trace(e: Settings, ops: seq<Op>, tr: seq<Pass>) {
    |tr| == |ops| + 1 && forall i :: 0 <= i <= |ops| ==> TraceAt(e, ops, tr, i)
  }

  lemma BeginOk(e: Settings, ops: seq<Op>)
    ensures PassInv(e, ops, 0, Begin(e)) && ActivityOk(e, ops, 0, Begin(e))
  { }

  lemma {:induction false} PassInvAll<V, W, A>(k: Kernels<V, W, A>, e: Settings, ops: seq<Op>, n: nat)
    requires Flow(e, ops) && n <= |ops|
    ensures PassInv(e, ops, n, VisitAll(k, e, ops, n))
  {
    if n == 0 {
      BeginOk(e, ops);
    } else {
      PassInvAll(k, e, ops, n - 1);
      VisitKeepsPassInv(k, e, ops, n - 1, VisitAll(k, e, ops, n - 1));
    }
  }

  lemma {:induction false} ActivityAll<V, W, A>(k: Kernels<V, W, A>, e: Settings, ops: seq<Op>, n: nat)
    requires Flow(e, ops) && n <= |ops| && !e.mergeActive
    ensures ActivityOk(e, ops, n, VisitAll(k, e, ops, n))
  {
    if n == 0 {
      BeginOk(e, ops);
    } else {
      ActivityAll(k, e, ops, n - 1);
      PassInvAll(k, e, ops, n - 1);
      VisitActivity(k, e, ops, n - 1, VisitAll(k, e, ops, n - 1));
    }
  }

  lemma VisitedAt<V, W, A>(k: Kernels<V, W, A>, e: Settings, ops: seq<Op>, i: nat)
    requires Flow(e, ops) && i <= |ops|
    ensures VisitOk(e, ops, i, VisitAll(k, e, ops, i), VisitAll(k, e, ops, if i < |ops| then i + 1 else i))
  {
    PassInvAll(k, e, ops, i);
    if !e.mergeActive {
      ActivityAll(k, e, ops, i);
    }
    if i < |ops| {
      EffectAt(k, e, ops, i);
    }
  }

  lemma EffectAt<V, W, A>(k: Kernels<V, W, A>, e: Settings, ops: seq<Op>, i: nat)
    requires InRange(ops, |e.writes|) && i < |ops|
    ensures Effect(e, VisitAll(k, e, ops, i), ops[i], VisitAll(k, e, ops, i + 1))
  {
    var st := VisitAll(k, e, ops, i);
    VisitEffect(k, e, st, ops[i]);
    assert VisitAll(k, e, ops, i + 1) == Visit(k, e, st, ops[i]);
  }

  lemma PassHasTrace<V, W, A>(k: Kernels<V, W, A>, e: Settings, ops: seq<Op>) returns (tr: seq<Pass>)
    requires Flow(e, ops)
    ensures Trace(e, ops, tr) && tr[|ops|] == VisitAll(k, e, ops, |ops|) && tr[0] == Begin(e)
  {
    tr := seq(|ops| + 1, i requires 0 <= i <= |ops| => VisitAll(k, e, ops, i));
    forall i | 0 <= i <= |ops| ensures TraceAt(e, ops, tr, i) {
      VisitedAt(k, e, ops, i);
    }
  }

  /** Op i as the pass leaves it, up to the primal mark. */
  lemma {:induction false} OpsStable(e: Settings, ops: seq<Op>, tr: seq<Pass>, i: nat, n: nat)
    requires Trace(e, ops, tr) && i < n <= |ops| && |tr[n].ops| == n
    ensures var o := Renamed(tr[i], ops[i]);
            && (tr[n].ops[i].None? && !e.mergeActive ==> !AnyActive(tr[i].active, o.ins))
            && (tr[n].ops[i].Some? ==> SameUpToPrimal(tr[n].ops[i], Some(o)))
  {
    assert TraceAt(e, ops, tr, n - 1);
    if n > i + 1 {
      OpsStable(e, ops, tr, i, n - 1);
    }
  }

  lemma NameKept(e: Settings, ops: seq<Op>, n: nat, st: Pass, st': Pass, s: nat)
    requires n < |ops| && WriteFacts(e, ops, n) && Effect(e, st, ops[n], st') && FirstWrite(ops, s) != n
    ensures Through(st'.rename, s) == Through(st.rename, s)
  { }

  /** A slot that is written, or never will be, keeps the name it has. */
  lemma {:induction false} RenamesStable(e: Settings, ops: seq<Op>, tr: seq<Pass>, i: nat, n: nat, s: nat)
    requires Flow(e, ops) && Trace(e, ops, tr) && i <= n <= |ops| && !Pending(ops, i, s)
    ensures Through(tr[n].rename, s) == Through(tr[i].rename, s)
    decreases n - i
  {
    if n > i {
      RenamesStable(e, ops, tr, i, n - 1, s);
      assert TraceAt(e, ops, tr, n - 1);
      assert WriteFacts(e, ops, n - 1);
      NameKept(e, ops, n - 1, tr[n - 1], tr[n], s);
    }
  }

  lemma {:induction false} ActiveGrows(e: Settings, ops: seq<Op>, tr: seq<Pass>, i: nat, n: nat, s: nat)
    requires Trace(e, ops, tr) && i <= n <= |ops| && s < |e.writes| == |tr[i].active| && tr[i].active[s]
    ensures s < |tr[n].active| && tr[n].active[s]
    decreases n - i
  {
    if n > i {
      ActiveGrows(e, ops, tr, i, n - 1, s);
      assert TraceAt(e, ops, tr, n - 1);
    }
  }

  /** The output of an op that parameters reach is never renamed. */
  lemma KeptOut(e: Settings, ops: seq<Op>, tr: seq<Pass>, i: nat)
    requires Trace(e, ops, tr) && !e.mergeActive && i < |ops| && AnyActive(tr[i].active, Renamed(tr[i], ops[i]).ins)
    ensures ops[i].out !in tr[|ops|].rename
  {
    assert TraceAt(e, ops, tr, i);
    ActiveGrows(e, ops, tr, i + 1, |ops|, ops[i].out);
    assert TraceAt(e, ops, tr, |ops|);
  }

  /** What the pass did to op i, seen from its final state. */
  ghost predicate Outcome(e: Settings, op: Op, st: Pass, last: Pass, o': Option<Op>) {
    && |st.active| == |e.writes| && OpInRange(op, |e.writes|)
    && var o := Renamed(st, op);
    && OpInRange(o, |e.writes|)
    && (o'.None? ==> !AnyActive(st.active, o.ins))
    && (o'.Some? ==> SameUpToPrimal(o', Some(o)))
    && o.ins == ThroughAll(last.rename, op.ins)
    && (forall j :: 0 <= j < |op.ins| ==>
          st.active[op.ins[j]] == st.active[o.ins[j]] && (st.active[o.ins[j]] ==> o.ins[j] == op.ins[j]))
    && (AnyActive(st.active, o.ins) ==> op.out !in last.rename)
  }

  lemma OpAtEnd(e: Settings, ops: seq<Op>, tr: seq<Pass>, i: nat)
    requires Flow(e, ops) && Trace(e, ops, tr) && !e.mergeActive && i < |ops| && |tr[|ops|].ops| == |ops|
    ensures Outcome(e, ops[i], tr[i], tr[|ops|], tr[|ops|].ops[i])
  {
    var st, last := tr[i], tr[|ops|];
    assert TraceAt(e, ops, tr, i);
    ResolvedIns(e, ops, i, st);
    OpsStable(e, ops, tr, i, |ops|);
    forall j | 0 <= j < |ops[i].ins| ensures Through(last.rename, ops[i].ins[j]) == Through(st.rename, ops[i].ins[j]) {
      RenamesStable(e, ops, tr, i, |ops|, ops[i].ins[j]);
    }
    if AnyActive(st.active, Renamed(st, ops[i]).ins) {
      KeptOut(e, ops, tr, i);
    }
  }

  // ---------------------------------------------------------------- the reverse sweep

  ghost predicate SameRenamed<V>(rename: map<nat, nat>, m: seq<V>, m': seq<V>) {
    |m| == |m'| && forall s :: 0 <= s < |m| ==> Through(rename, s) < |m| && m[s] == m'[Through(rename, s)]
  }

  lemma StepBack<V, W, A>(k: Kernels<V, W, A>, e: Settings, op: Op, st: Pass, last: Pass, o': Option<Op>,
                          m: seq<V>, m': seq<V>, adj: seq<A>, adj': seq<A>)
    requires Outcome(e, op, st, last, o') && |m| == |m'| == |adj| == |adj'| == |e.writes|
    requires o'.Some? ==> OpInRange(o'.value, |m|)
    requires SameRenamed(last.rename, m, m')
    requires SameWhere(Mark(st.active, op, AnyActive(st.active, Renamed(st, op).ins)), adj, adj')
    ensures SameWhere(st.active, PullInputs(k, op, |op.ins|, m, SeedOf(op, adj), adj),
                      if o'.None? then adj'
                      else PullInputs(k, o'.value, |o'.value.ins|, m', SeedOf(o'.value, adj'), adj'))
  {
    var o := Renamed(st, op);
    if AnyActive(st.active, o.ins) {
      assert Gather(m, op.ins) == Gather(m', o'.value.ins);
      PullSame(k, op, o'.value, |o.ins|, m, m', SeedOf(op, adj), adj, adj', st.active);
    } else {
      PullNothing(k, op, |op.ins|, m, SeedOf(op, adj), adj, st.active);
      if o'.Some? {
        PullNothing(k, o'.value, |o'.value.ins|, m', SeedOf(o'.value, adj'), adj', st.active);
      }
    }
  }

  lemma {:induction false} ReverseInStep<V, W, A>(k: Kernels<V, W, A>, e: Settings, ops: seq<Op>, tr: seq<Pass>, i: nat,
                                                  m: seq<V>, m': seq<V>, adj: seq<A>)
    requires Flow(e, ops) && Trace(e, ops, tr) && !e.mergeActive && i <= |ops| && |m| == |m'| == |adj| == |e.writes|
    requires Ranged(tr[|ops|].ops, |m|) && |tr[|ops|].ops| == |ops| && SameRenamed(tr[|ops|].rename, m, m')
    ensures SameWhere(tr[i].active, Reverse(k, Whole(ops), i, m, adj), Reverse(k, tr[|ops|].ops, i, m', adj))
    decreases |ops| - i
  {
    var last := tr[|ops|];
    assert TraceAt(e, ops, tr, i);
    if i < |ops| {
      ReverseInStep(k, e, ops, tr, i + 1, m, m', adj);
      OpAtEnd(e, ops, tr, i);
      StepBack(k, e, ops[i], tr[i], last, last.ops[i], m, m',
               Reverse(k, Whole(ops), i + 1, m, adj), Reverse(k, last.ops, i + 1, m', adj));
    }
  }

  /** The gradient: forward and reverse sweep of both graphs, and every parameter's adjoint agrees. */
  lemma CsePreservesGradient<V, W, A>(k: Kernels<V, W, A>, e: Settings, ops: seq<Op>, m: seq<V>, m': seq<V>, w: W,
                                      seeds: seq<A>, p: nat)
    requires SettingsFor(e, ops) && !e.mergeActive && |m| == |m'| == |seeds| == |e.writes|
    requires forall s :: 0 <= s < |m| && FirstWrite(ops, s) == |ops| ==> m[s] == m'[s]
    requires p in e.params && p < |m|
    ensures var kept := Kept(VisitAll(k, e, ops, |ops|).ops);
            InRange(kept, |m|) &&
            var values := Forward(k, Whole(ops), |ops|, m, w).0;
            var values' := Forward(k, Whole(kept), |kept|, m', w).0;
            Reverse(k, Whole(ops), 0, values, seeds)[p] == Reverse(k, Whole(kept), 0, values', seeds)[p]
  {
    SettingsFlow(e, ops);
    CsePreservesValues(k, e, ops, m, m', w);
    var tr := PassHasTrace(k, e, ops);
    var last := tr[|ops|];
    var kept := Kept(last.ops);
    var values := Forward(k, Whole(ops), |ops|, m, w).0;
    var values' := Forward(k, Whole(kept), |kept|, m', w).0;
    KeptReverse(k, last.ops, values', seeds);
    ReverseInStep(k, e, ops, tr, 0, values, values', seeds);
    assert tr[0].active[p];
  }
}
