/** What the pass leaves when it merges active duplicates, and the gradient of the merged graph. */
module CseMergePass {
  import opened Options
  import opened Sums
  import opened OpGraph
  import opened Cse
  import opened CseProof
  import opened CseReverse
  import opened CseMerge
  import opened CseMergeReverse

  // ---------------------------------------------------------------- the pass

  /** A table entry is a kept pure op with the key's inputs, unwritten for as long as their versions stand. */
  ghost predicate EntryMerge<V, W, A>(k: Kernels<V, W, A>, e: Settings, ops: seq<Op>, n: nat, st: Pass, key: Key)
    requires key in st.table && |st.ops| == n <= |ops|
  {
    var at := st.table[key];
    && at < n && st.ops[at].Some? && Pure(k, ops[at]) && FirstWrite(ops, ops[at].out) == at
    && ops[at].out !in e.keep && ops[at].out !in e.params
    && ops[at].sig == key.sig && ThroughAll(st.rename, ops[at].ins) == key.ins && |key.versions| == |key.ins|
    && forall j :: 0 <= j < |key.ins| && key.ins[j] < |st.version| && key.versions[j] == st.version[key.ins[j]] ==>
         Untouched(ops, st.ops, at, n, key.ins[j])
  }

  ghost predicate MergeOk<V, W, A>(k: Kernels<V, W, A>, e: Settings, ops: seq<Op>, n: nat, st: Pass) {
    && |st.ops| == n <= |ops| && st.primal == map[]
    && (forall key {:trigger EntryMerge(k, e, ops, n, st, key)} ::
          key in st.table ==> EntryMerge(k, e, ops, n, st, key))
    && NamesMerge(k, e, ops, st)
  }

  ghost predicate NamesMerge<V, W, A>(k: Kernels<V, W, A>, e: Settings, ops: seq<Op>, st: Pass)
    requires |st.ops| <= |ops|
  {
    && (forall i :: 0 <= i < |st.ops| ==> NoneIsRenamed(ops, st, i))
    && (forall d {:trigger Dropped(k, ops, st.rename, st.ops, d)} ::
          d in st.rename ==> Dropped(k, ops, st.rename, st.ops, d))
    && (forall d {:trigger FreeName(e, st.rename, d)} :: d in st.rename ==> FreeName(e, st.rename, d))
  }

  predicate NoneIsRenamed(ops: seq<Op>, st: Pass, i: nat)
    requires i < |st.ops| <= |ops|
  {
    st.ops[i].None? ==> ops[i].out in st.rename && FirstWrite(ops, ops[i].out) == i
  }

  /** No slot takes the name of a kept slot or a parameter. */
  predicate FreeName(e: Settings, rename: map<nat, nat>, d: nat)
    requires d in rename
  {
    rename[d] !in e.keep && rename[d] !in e.params
  }

  /** Names of slots read so far do not change when op n's output is renamed. */
  lemma SameNames(ops: seq<Op>, n: nat, a: nat, rename: map<nat, nat>, rename': map<nat, nat>)
    requires DefinedBeforeUse(ops) && a <= n < |ops| && FirstWrite(ops, ops[n].out) == n
    requires forall s :: s != ops[n].out ==> Through(rename', s) == Through(rename, s)
    ensures ThroughAll(rename', ops[a].ins) == ThroughAll(rename, ops[a].ins)
  {
    forall j | 0 <= j < |ops[a].ins| ensures ops[a].ins[j] != ops[n].out {
      assert !Pending(ops, a, ops[a].ins[j]);
    }
  }

  lemma EntryMergeKept<V, W, A>(k: Kernels<V, W, A>, e: Settings, ops: seq<Op>, n: nat, st: Pass, st': Pass, key: Key)
    requires n < |ops| && PassShape(st, |e.writes|) && PassShape(st', |e.writes|) && |st.ops| == n
    requires key in st.table && EntryOk(e, ops, n, st, key) && EntryMerge(k, e, ops, n, st, key)
    requires key in st'.table && st'.table[key] == st.table[key]
    requires |st'.ops| == n + 1 && st'.ops[..n] == st.ops
    requires ThroughAll(st'.rename, ops[st.table[key]].ins) == ThroughAll(st.rename, ops[st.table[key]].ins)
    requires forall s :: 0 <= s < |e.writes| ==>
      st'.version[s] >= st.version[s] && (st'.ops[n].Some? && WritesTo(ops[n], s) ==> st'.version[s] > st.version[s])
    ensures EntryMerge(k, e, ops, n + 1, st', key)
  {
    var at := st.table[key];
    assert st'.ops[at] == st.ops[at];
    forall j | 0 <= j < |key.ins| && key.ins[j] < |st'.version| && key.versions[j] == st'.version[key.ins[j]]
      ensures Untouched(ops, st'.ops, at, n + 1, key.ins[j])
    {
      assert key.versions[j] <= st.version[key.ins[j]];
      assert Untouched(ops, st.ops, at, n, key.ins[j]);
      forall i | at <= i < n + 1 && st'.ops[i].Some? ensures !WritesTo(ops[i], key.ins[j]) {
        assert i < n ==> st'.ops[i] == st.ops[i];
      }
    }
  }

  lemma DroppedKept<V, W, A>(k: Kernels<V, W, A>, ops: seq<Op>, n: nat, rename: map<nat, nat>, rename': map<nat, nat>,
                             ops0: seq<Option<Op>>, ops1: seq<Option<Op>>, d: nat)
    requires DefinedBeforeUse(ops) && n < |ops| && |ops0| == n && |ops1| == n + 1 && ops1[..n] == ops0
    requires rename' == rename || FirstWrite(ops, ops[n].out) == n
    requires forall s :: s != ops[n].out ==> Through(rename', s) == Through(rename, s)
    requires d in rename && d in rename' && rename'[d] == rename[d] && Dropped(k, ops, rename, ops0, d)
    ensures Dropped(k, ops, rename', ops1, d)
  {
    var m, at := FirstWrite(ops, d), FirstWrite(ops, rename[d]);
    assert ops1[m] == ops0[m] && ops1[at] == ops0[at];
    if rename' != rename {
      SameNames(ops, n, at, rename, rename');
      SameNames(ops, n, m, rename, rename');
    }
    forall j | 0 <= j < |ops[m].ins| ensures Untouched(ops, ops1, at, m, Through(rename', ops[m].ins[j])) {
      assert ThroughAll(rename', ops[m].ins)[j] == ThroughAll(rename, ops[m].ins)[j];
      assert Untouched(ops, ops0, at, m, Through(rename, ops[m].ins[j]));
      forall i | at <= i < m && ops1[i].Some? ensures !WritesTo(ops[i], Through(rename', ops[m].ins[j])) {
        assert ops1[i] == ops0[i];
      }
    }
  }

  /** What a visit does to the parts of the state that entries and names depend on. */
  ghost predicate Grows(e: Settings, ops: seq<Op>, n: nat, st: Pass, st': Pass)
    requires n < |ops|
  {
    && PassShape(st, |e.writes|) && PassShape(st', |e.writes|) && |st'.ops| == n + 1 && st'.ops[..n] == st.ops
    && (st'.rename == st.rename || FirstWrite(ops, ops[n].out) == n)
    && (forall s :: s != ops[n].out ==> Through(st'.rename, s) == Through(st.rename, s))
    && forall s :: 0 <= s < |e.writes| ==>
         st'.version[s] >= st.version[s] && (st'.ops[n].Some? && WritesTo(ops[n], s) ==> st'.version[s] > st.version[s])
  }

  lemma TableKept<V, W, A>(k: Kernels<V, W, A>, e: Settings, ops: seq<Op>, n: nat, st: Pass, st': Pass)
    requires DefinedBeforeUse(ops) && n < |ops| && PassInv(e, ops, n, st) && MergeOk(k, e, ops, n, st)
    requires Grows(e, ops, n, st, st') && st'.table == st.table
    ensures forall key {:trigger EntryMerge(k, e, ops, n + 1, st', key)} ::
      key in st'.table ==> EntryMerge(k, e, ops, n + 1, st', key)
  {
    forall key | key in st'.table ensures EntryMerge(k, e, ops, n + 1, st', key) {
      assert EntryMerge(k, e, ops, n, st, key);
      assert EntryOk(e, ops, n, st, key);
      if st'.rename != st.rename {
        SameNames(ops, n, st.table[key], st.rename, st'.rename);
      }
      EntryMergeKept(k, e, ops, n, st, st', key);
    }
  }

  lemma DropsKept<V, W, A>(k: Kernels<V, W, A>, e: Settings, ops: seq<Op>, n: nat, st: Pass, st': Pass, d: nat)
    requires DefinedBeforeUse(ops) && n < |ops| && MergeOk(k, e, ops, n, st) && Grows(e, ops, n, st, st')
    requires d in st.rename && d in st'.rename && st'.rename[d] == st.rename[d]
    ensures Dropped(k, ops, st'.rename, st'.ops, d)
  {
    assert Dropped(k, ops, st.rename, st.ops, d);
    DroppedKept(k, ops, n, st.rename, st'.rename, st.ops, st'.ops, d);
  }

  lemma PushGrows(e: Settings, ops: seq<Op>, n: nat, st: Pass)
    requires n < |ops| && PassShape(st, |e.writes|) && |st.ops| == n && OpInRange(Renamed(st, ops[n]), |e.writes|)
    ensures Grows(e, ops, n, st, Push(st, Renamed(st, ops[n])))
  {
    assert Push(st, Renamed(st, ops[n])).ops[..n] == st.ops;
  }

  lemma DropGrows(e: Settings, ops: seq<Op>, n: nat, st: Pass, at: nat)
    requires n < |ops| && PassShape(st, |e.writes|) && |st.ops| == n && OpInRange(Renamed(st, ops[n]), |e.writes|)
    requires WriteFacts(e, ops, n) && e.writes[ops[n].out] == 1 && at < n && st.ops[at].Some?
    ensures Grows(e, ops, n, st, Drop(st, Renamed(st, ops[n]), at)) && FirstWrite(ops, ops[n].out) == n
  {
    assert Drop(st, Renamed(st, ops[n]), at).ops[..n] == st.ops;
  }

  lemma PushMerge<V, W, A>(k: Kernels<V, W, A>, e: Settings, ops: seq<Op>, n: nat, st: Pass)
    requires Flow(e, ops) && n < |ops| && PassInv(e, ops, n, st) && MergeOk(k, e, ops, n, st)
    requires OpInRange(Renamed(st, ops[n]), |e.writes|)
    ensures MergeOk(k, e, ops, n + 1, Push(st, Renamed(st, ops[n])))
  {
    var st' := Push(st, Renamed(st, ops[n]));
    PushGrows(e, ops, n, st);
    TableKept(k, e, ops, n, st, st');
    forall i | 0 <= i < n + 1 ensures NoneIsRenamed(ops, st', i) {
      assert i < n ==> NoneIsRenamed(ops, st, i) && st'.ops[i] == st.ops[i];
    }
    forall d | d in st'.rename ensures Dropped(k, ops, st'.rename, st'.ops, d) && FreeName(e, st'.rename, d) {
      DropsKept(k, e, ops, n, st, st', d);
      assert FreeName(e, st.rename, d);
    }
  }

  lemma EnterMerge<V, W, A>(k: Kernels<V, W, A>, e: Settings, ops: seq<Op>, n: nat, st: Pass)
    requires Flow(e, ops) && n < |ops| && PassInv(e, ops, n, st) && MergeOk(k, e, ops, n, st)
    requires OpInRange(Renamed(st, ops[n]), |e.writes|) && Candidate(k, e, Renamed(st, ops[n]))
    requires forall j :: 0 <= j < |ops[n].ins| ==> Through(st.primal, Renamed(st, ops[n]).ins[j]) < |st.version|
    ensures var o := Renamed(st, ops[n]);
            MergeOk(k, e, ops, n + 1, Push(st, o).(table := st.table[KeyOf(st, o) := n]))
  {
    PushMerge(k, e, ops, n, st);
    var o := Renamed(st, ops[n]);
    var st' := Push(st, o);
    var new' := st'.(table := st.table[KeyOf(st, o) := n]);
    NewEntryMerge(k, e, ops, n, st);
    forall key | key in new'.table ensures EntryMerge(k, e, ops, n + 1, new', key) {
      if key != KeyOf(st, o) {
        assert EntryMerge(k, e, ops, n + 1, st', key);
      }
    }
    SameNamesMerge(k, e, ops, st', new');
  }

  lemma SameNamesMerge<V, W, A>(k: Kernels<V, W, A>, e: Settings, ops: seq<Op>, st: Pass, st': Pass)
    requires |st.ops| <= |ops| && NamesMerge(k, e, ops, st) && st'.ops == st.ops && st'.rename == st.rename
    ensures NamesMerge(k, e, ops, st')
  {
    forall i | 0 <= i < |st'.ops| ensures NoneIsRenamed(ops, st', i) {
      assert NoneIsRenamed(ops, st, i);
    }
  }

  lemma NewEntryMerge<V, W, A>(k: Kernels<V, W, A>, e: Settings, ops: seq<Op>, n: nat, st: Pass)
    requires Flow(e, ops) && n < |ops| && PassInv(e, ops, n, st) && st.primal == map[]
    requires OpInRange(Renamed(st, ops[n]), |e.writes|) && Candidate(k, e, Renamed(st, ops[n]))
    requires forall j :: 0 <= j < |ops[n].ins| ==> Through(st.primal, Renamed(st, ops[n]).ins[j]) < |st.version|
    ensures var o := Renamed(st, ops[n]);
            EntryMerge(k, e, ops, n + 1, Push(st, o).(table := st.table[KeyOf(st, o) := n]), KeyOf(st, o))
  {
    var o := Renamed(st, ops[n]);
    var key := KeyOf(st, o);
    assert key.ins == o.ins;
    assert WriteFacts(e, ops, n);
    var st' := Push(st, o).(table := st.table[key := n]);
    forall j | 0 <= j < |key.ins| ensures Untouched(ops, st'.ops, n, n + 1, key.ins[j]) {
      assert key.ins[j] in o.ins;
    }
  }

  lemma DropMerge<V, W, A>(k: Kernels<V, W, A>, e: Settings, ops: seq<Op>, n: nat, st: Pass)
    requires Flow(e, ops) && n < |ops| && PassInv(e, ops, n, st) && MergeOk(k, e, ops, n, st)
    requires OpInRange(Renamed(st, ops[n]), |e.writes|) && Candidate(k, e, Renamed(st, ops[n]))
    requires forall j :: 0 <= j < |ops[n].ins| ==> Through(st.primal, Renamed(st, ops[n]).ins[j]) < |st.version|
    requires KeyOf(st, Renamed(st, ops[n])) in st.table
    ensures var o := Renamed(st, ops[n]);
            MergeOk(k, e, ops, n + 1, Drop(st, o, st.table[KeyOf(st, o)]))
  {
    var o := Renamed(st, ops[n]);
    var at := st.table[KeyOf(st, o)];
    assert EntryMerge(k, e, ops, n, st, KeyOf(st, o));
    assert WriteFacts(e, ops, n);
    DropGrows(e, ops, n, st, at);
    TableKept(k, e, ops, n, st, Drop(st, o, at));
    NewlyDropped(k, e, ops, n, st);
    DropNames(k, e, ops, n, st, at);
  }

  lemma DropNames<V, W, A>(k: Kernels<V, W, A>, e: Settings, ops: seq<Op>, n: nat, st: Pass, at: nat)
    requires DefinedBeforeUse(ops) && n < |ops| && MergeOk(k, e, ops, n, st) && PassShape(st, |e.writes|)
    requires OpInRange(Renamed(st, ops[n]), |e.writes|) && at < n && st.ops[at].Some?
    requires FirstWrite(ops, ops[n].out) == n
    requires var st' := Drop(st, Renamed(st, ops[n]), at);
             && Grows(e, ops, n, st, st') && Dropped(k, ops, st'.rename, st'.ops, ops[n].out)
             && FreeName(e, st'.rename, ops[n].out)
    ensures NamesMerge(k, e, ops, Drop(st, Renamed(st, ops[n]), at))
  {
    var st' := Drop(st, Renamed(st, ops[n]), at);
    forall i | 0 <= i < n + 1 ensures NoneIsRenamed(ops, st', i) {
      assert i < n ==> NoneIsRenamed(ops, st, i) && st'.ops[i] == st.ops[i];
    }
    forall d | d in st'.rename ensures Dropped(k, ops, st'.rename, st'.ops, d) && FreeName(e, st'.rename, d) {
      if d != ops[n].out {
        DropsKept(k, e, ops, n, st, st', d);
        assert FreeName(e, st.rename, d);
      }
    }
  }

  lemma NewlyDropped<V, W, A>(k: Kernels<V, W, A>, e: Settings, ops: seq<Op>, n: nat, st: Pass)
    requires Flow(e, ops) && n < |ops| && PassInv(e, ops, n, st) && MergeOk(k, e, ops, n, st)
    requires OpInRange(Renamed(st, ops[n]), |e.writes|) && Candidate(k, e, Renamed(st, ops[n]))
    requires forall j :: 0 <= j < |ops[n].ins| ==> Through(st.primal, Renamed(st, ops[n]).ins[j]) < |st.version|
    requires KeyOf(st, Renamed(st, ops[n])) in st.table
    ensures var o := Renamed(st, ops[n]);
            var st' := Drop(st, o, st.table[KeyOf(st, o)]);
            Dropped(k, ops, st'.rename, st'.ops, o.out)
  {
    var o := Renamed(st, ops[n]);
    var key := KeyOf(st, o);
    var at := st.table[key];
    var st' := Drop(st, o, at);
    assert key.ins == o.ins;
    assert EntryMerge(k, e, ops, n, st, key);
    assert WriteFacts(e, ops, n);
    SameNames(ops, n, at, st.rename, st'.rename);
    SameNames(ops, n, n, st.rename, st'.rename);
    assert st'.ops[..n] == st.ops && st'.ops[at] == st.ops[at];
    forall j | 0 <= j < |ops[n].ins| ensures Untouched(ops, st'.ops, at, n, Through(st'.rename, ops[n].ins[j])) {
      assert ThroughAll(st'.rename, ops[n].ins)[j] == o.ins[j] == key.ins[j];
      assert Untouched(ops, st.ops, at, n, key.ins[j]);
      forall i | at <= i < n && st'.ops[i].Some? ensures !WritesTo(ops[i], key.ins[j]) {
        assert st'.ops[i] == st.ops[i];
      }
    }
  }

  lemma VisitMerge<V, W, A>(k: Kernels<V, W, A>, e: Settings, ops: seq<Op>, n: nat, st: Pass)
    requires Flow(e, ops) && n < |ops| && PassInv(e, ops, n, st) && MergeOk(k, e, ops, n, st) && e.mergeActive
    ensures MergeOk(k, e, ops, n + 1, Visit(k, e, st, ops[n]))
  {
    var o := Renamed(st, ops[n]);
    ResolvedIns(e, ops, n, st);
    if !Candidate(k, e, o) {
      PushMerge(k, e, ops, n, st);
    } else if KeyOf(st, o) !in st.table {
      EnterMerge(k, e, ops, n, st);
    } else {
      DropMerge(k, e, ops, n, st);
    }
  }

  lemma {:induction false} MergeAll<V, W, A>(k: Kernels<V, W, A>, e: Settings, ops: seq<Op>, n: nat)
    requires Flow(e, ops) && n <= |ops| && e.mergeActive
    ensures MergeOk(k, e, ops, n, VisitAll(k, e, ops, n))
  {
    if n > 0 {
      MergeAll(k, e, ops, n - 1);
      PassInvAll(k, e, ops, n - 1);
      VisitMerge(k, e, ops, n - 1, VisitAll(k, e, ops, n - 1));
    }
  }

  // ---------------------------------------------------------------- the graph the pass leaves

  lemma PassMerges<V, W, A>(k: Kernels<V, W, A>, e: Settings, ops: seq<Op>)
    requires Flow(e, ops) && e.mergeActive
    ensures var last := VisitAll(k, e, ops, |ops|);
            Merged(k, ops, last.rename, last.ops, |e.writes|) && MergeOk(k, e, ops, |ops|, last)
  {
    var tr := PassHasTrace(k, e, ops);
    var last := tr[|ops|];
    MergeAll(k, e, ops, |ops|);
    PassInvAll(k, e, ops, |ops|);
    forall d | d in last.rename ensures DroppedAt(k, ops, last.rename, last.ops, |e.writes|, d) {
      assert Dropped(k, ops, last.rename, last.ops, d);
    }
    forall i | 0 <= i < |ops| ensures KeptAt(ops, last.rename, last.ops, i) {
      KeptAtEnd(k, e, ops, tr, i);
    }
  }

  lemma KeptAtEnd<V, W, A>(k: Kernels<V, W, A>, e: Settings, ops: seq<Op>, tr: seq<Pass>, i: nat)
    requires Flow(e, ops) && Trace(e, ops, tr) && i < |ops| && PassInv(e, ops, |ops|, tr[|ops|])
    requires MergeOk(k, e, ops, |ops|, tr[|ops|])
    ensures KeptAt(ops, tr[|ops|].rename, tr[|ops|].ops, i)
  {
    var last := tr[|ops|];
    OpsStable(e, ops, tr, i, |ops|);
    assert WriteFacts(e, ops, i);
    assert NoneIsRenamed(ops, last, i);
    forall j | 0 <= j < |ops[i].ins|
      ensures Through(last.rename, ops[i].ins[j]) == Through(tr[i].rename, ops[i].ins[j])
    {
      RenamesStable(e, ops, tr, i, |ops|, ops[i].ins[j]);
    }
    assert ThroughAll(last.rename, ops[i].ins) == ThroughAll(tr[i].rename, ops[i].ins);
    forall s: nat | s in last.rename && WritesTo(ops[i], s) ensures last.ops[i].None? {
      assert Dropped(k, ops, last.rename, last.ops, s);
      OnlyWriter(e, ops, i, s);
    }
    forall d | d in last.rename && WritesTo(ops[i], last.rename[d]) ensures i == FirstWrite(ops, last.rename[d]) {
      OnlyWriter(e, ops, i, last.rename[d]);
    }
  }

  lemma OnlyWriter(e: Settings, ops: seq<Op>, i: nat, s: nat)
    requires i < |ops| && WriteFacts(e, ops, i) && Settled(e, ops, |ops|, s) && WritesTo(ops[i], s)
    ensures FirstWrite(ops, s) == i
  {
    assert !Settled(e, ops, i, s);
  }

  /** Each target term adds one to the adjoint of its slot. */
  function TermSeeds<A>(m: Addition<A>, one: A, terms: seq<nat>, slots: nat): (r: seq<A>)
    requires forall t :: 0 <= t < |terms| ==> terms[t] < slots
    ensures |r| == slots
  {
    if terms == [] then seq(slots, _ => m.zero) else
      var n := |terms| - 1;
      var before := TermSeeds(m, one, terms[..n], slots);
      before[terms[n] := m.add(before[terms[n]], one)]
  }

  /** Seeding the renamed terms seeds every class with the sum of its seeds. */
  lemma {:induction false} TermSeedsMatch<A(!new)>(m: Addition<A>, rename: map<nat, nat>, one: A, terms: seq<nat>,
                                                   slots: nat)
    requires Commutes(m) && forall t :: 0 <= t < |terms| ==> terms[t] < slots && Through(rename, terms[t]) < slots
    ensures SeedsMatch(m, rename, TermSeeds(m, one, terms, slots), TermSeeds(m, one, ThroughAll(rename, terms), slots))
  {
    var seeds := TermSeeds(m, one, terms, slots);
    var seeds' := TermSeeds(m, one, ThroughAll(rename, terms), slots);
    if terms == [] {
      forall x: nat ensures SeedAt(m, rename, seeds, seeds', x) {
        TotalOfZeros(m, ClassTerms(m, rename, seeds, x));
      }
    } else {
      var n := |terms| - 1;
      TermSeedsMatch(m, rename, one, terms[..n], slots);
      assert ThroughAll(rename, terms)[..n] == ThroughAll(rename, terms[..n]);
      OneMoreSeed(m, rename, TermSeeds(m, one, terms[..n], slots),
                  TermSeeds(m, one, ThroughAll(rename, terms[..n]), slots), terms[n], one);
    }
  }

  lemma OneMoreSeed<A(!new)>(m: Addition<A>, rename: map<nat, nat>, seeds: seq<A>, seeds': seq<A>, t: nat, one: A)
    requires Commutes(m) && SeedsMatch(m, rename, seeds, seeds') && |seeds| == |seeds'|
    requires t < |seeds| && Through(rename, t) < |seeds|
    ensures var t' := Through(rename, t);
            SeedsMatch(m, rename, seeds[t := m.add(seeds[t], one)], seeds'[t' := m.add(seeds'[t'], one)])
  {
    var t' := Through(rename, t);
    var more, more' := seeds[t := m.add(seeds[t], one)], seeds'[t' := m.add(seeds'[t'], one)];
    forall x: nat ensures SeedAt(m, rename, more, more', x) {
      assert SeedAt(m, rename, seeds, seeds', x);
      if x < |seeds| {
        ClassGains(m, rename, seeds, x, t, one);
        Neutral(m, ClassSum(m, rename, seeds, x));
      }
    }
  }

  // ---------------------------------------------------------------- the gradient

  /** With active duplicates merged, every parameter of a graph with additive pullbacks still gets the
      adjoint that the original gives it, with the target terms seeded under their new names. */
  lemma MergePreservesGradient<V(!new), W, A(!new)>(k: Kernels<V, W, A>, add: Addition<A>, e: Settings, ops: seq<Op>,
                                                    m: seq<V>, m': seq<V>, w: W, one: A, terms: seq<nat>, p: nat)
    requires SettingsFor(e, ops) && e.mergeActive && |m| == |m'| == |e.writes|
    requires Commutes(add) && AdditivePulls(k, add, ops)
    requires forall s :: 0 <= s < |m| && FirstWrite(ops, s) == |ops| ==> m[s] == m'[s]
    requires (forall t :: 0 <= t < |terms| ==> terms[t] < |m|) && p in e.params && p < |m|
    ensures var last := VisitAll(k, e, ops, |ops|);
            var kept := Kept(last.ops);
            InRange(kept, |m|) && (forall t :: 0 <= t < |terms| ==> Through(last.rename, terms[t]) < |m|) &&
            var values := Forward(k, Whole(ops), |ops|, m, w).0;
            var values' := Forward(k, Whole(kept), |kept|, m', w).0;
            Reverse(k, Whole(ops), 0, values, TermSeeds(add, one, terms, |m|))[p] ==
            Reverse(k, Whole(kept), 0, values', TermSeeds(add, one, ThroughAll(last.rename, terms), |m|))[p]
  {
    CsePreservesValues(k, e, ops, m, m', w);
    var last := VisitAll(k, e, ops, |ops|);
    var kept := Kept(last.ops);
    var values' := Forward(k, Whole(kept), |kept|, m', w).0;
    var seeds := TermSeeds(add, one, terms, |m|);
    var seeds' := TermSeeds(add, one, ThroughAll(last.rename, terms), |m|);
    TermSeedsMatch(add, last.rename, one, terms, |m|);
    KeptReverse(k, last.ops, values', seeds');
    ParameterAdjoint(k, add, e, ops, m, m', w, seeds, seeds', p);
  }

  lemma ParameterAdjoint<V(!new), W, A(!new)>(k: Kernels<V, W, A>, add: Addition<A>, e: Settings, ops: seq<Op>,
                                              m: seq<V>, m': seq<V>, w: W, seeds: seq<A>, seeds': seq<A>, p: nat)
    requires SettingsFor(e, ops) && e.mergeActive && |m| == |m'| == |e.writes| == |seeds| == |seeds'|
    requires Commutes(add) && AdditivePulls(k, add, ops)
    requires forall s :: 0 <= s < |m| && FirstWrite(ops, s) == |ops| ==> m[s] == m'[s]
    requires SeedsMatch(add, VisitAll(k, e, ops, |ops|).rename, seeds, seeds') && p in e.params && p < |m|
    ensures var last := VisitAll(k, e, ops, |ops|);
            InRange(Kept(last.ops), |m|) &&
            var values := Forward(k, Whole(ops), |ops|, m, w).0;
            var values' := Forward(k, Whole(Kept(last.ops)), |Kept(last.ops)|, m', w).0;
            Reverse(k, Whole(ops), 0, values, seeds)[p] == Reverse(k, last.ops, 0, values', seeds')[p]
  {
    SettingsFlow(e, ops);
    CsePreservesValues(k, e, ops, m, m', w);
    PassMerges(k, e, ops);
    var last := VisitAll(k, e, ops, |ops|);
    var values := Forward(k, Whole(ops), |ops|, m, w).0;
    var values' := Forward(k, Whole(Kept(last.ops)), |Kept(last.ops)|, m', w).0;
    forall y: nat | Through(last.rename, y) == p ensures y == p {
      assert y in last.rename ==> FreeName(e, last.rename, y);
    }
    LoneAdjoint(k, add, ops, last.rename, last.ops, values, values', seeds, seeds', p);
  }

  /** A slot that shares its name with no other has the same adjoint in both graphs. */
  lemma LoneAdjoint<V(!new), W, A(!new)>(k: Kernels<V, W, A>, m: Addition<A>, ops: seq<Op>, rename: map<nat, nat>,
                                         ops': seq<Option<Op>>, mem: seq<V>, mem': seq<V>, seeds: seq<A>,
                                         seeds': seq<A>, p: nat)
    requires Setting(k, m, ops, rename, ops', mem, mem') && |seeds| == |seeds'| == |mem|
    requires SeedsMatch(m, rename, seeds, seeds') && p < |mem| && p !in rename && Alone(rename, p)
    ensures Reverse(k, Whole(ops), 0, mem, seeds)[p] == Reverse(k, ops', 0, mem', seeds')[p]
  {
    SweepBalanced(k, m, ops, rename, ops', mem, mem', 0, seeds, seeds');
    var adj, adj' := Reverse(k, Whole(ops), 0, mem, seeds), Reverse(k, ops', 0, mem', seeds');
    assert BalancedAt(k, m, ops, rename, mem, 0, adj, adj', p);
    NothingOwed(k, m, ops, rename, mem, 0, adj);
    Neutral(m, adj'[p]);
    AloneSum(m, rename, adj, p);
  }
}
