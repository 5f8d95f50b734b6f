/** Common-subexpression elimination keeps every value, bit for bit, with and without merging of active
    duplicates. */
module CseProof {
  import opened Options
  import opened OpGraph
  import opened Cse

  // ---------------------------------------------------------------- slots written once

  lemma {:induction false} TwoWriters(ops: seq<Op>, n: nat, i: nat, j: nat, s: nat)
    requires i < j < n <= |ops| && WritesTo(ops[i], s) && WritesTo(ops[j], s)
    ensures WriteCount(ops, n, s) >= 2
  {
    if j < n - 1 {
      TwoWriters(ops, n - 1, i, j, s);
    } else {
      OneWriter(ops, n - 1, i, s);
    }
  }

  lemma {:induction false} OneWriter(ops: seq<Op>, n: nat, i: nat, s: nat)
    requires i < n <= |ops| && WritesTo(ops[i], s)
    ensures WriteCount(ops, n, s) >= 1
  {
    if i < n - 1 {
      OneWriter(ops, n - 1, i, s);
    }
  }

  /** The only write of slot s in the whole graph is among the first n ops. */
  predicate Settled(e: Settings, ops: seq<Op>, n: nat, s: nat) {
    s < |e.writes| && e.writes[s] == 1 && FirstWrite(ops, s) < n
  }

  ghost predicate WriteFacts(e: Settings, ops: seq<Op>, n: nat)
    requires n < |ops|
  {
    && (forall s :: Settled(e, ops, n, s) ==> !WritesTo(ops[n], s))
    && (ops[n].out < |e.writes| && e.writes[ops[n].out] == 1 ==> FirstWrite(ops, ops[n].out) == n)
    && (forall s :: WritesTo(ops[n], s) ==> FirstWrite(ops, s) <= n)
    && (forall s :: FirstWrite(ops, s) == n ==> WritesTo(ops[n], s))
  }

  /** All that the proof needs of the settings and the graph. */
  ghost predicate Flow(e: Settings, ops: seq<Op>) {
    && InRange(ops, |e.writes|)
    && (forall i :: 0 <= i < |ops| ==> ops[i].primal.None?)
    && DefinedBeforeUse(ops)
    && (forall n :: 0 <= n < |ops| ==> WriteFacts(e, ops, n))
  }

  lemma SettingsFlow(e: Settings, ops: seq<Op>)
    requires SettingsFor(e, ops)
    ensures Flow(e, ops)
  {
    forall n: nat | n < |ops| ensures WriteFacts(e, ops, n) {
      forall s: nat ensures Settled(e, ops, n, s) ==> !WritesTo(ops[n], s) {
        FirstWriteIs(ops, 0, s);
        if Settled(e, ops, n, s) && WritesTo(ops[n], s) {
          TwoWriters(ops, |ops|, FirstWrite(ops, s), n, s);
        }
      }
      FirstWriteIs(ops, 0, ops[n].out);
      if FirstWrite(ops, ops[n].out) < n {
        assert !Settled(e, ops, n, ops[n].out);
      }
      forall s: nat ensures WritesTo(ops[n], s) ==> FirstWrite(ops, s) <= n { FirstWriteIs(ops, 0, s); }
      forall s: nat ensures FirstWrite(ops, s) == n ==> WritesTo(ops[n], s) { FirstWriteIs(ops, 0, s); }
    }
  }

  // ---------------------------------------------------------------- what the pass state means

  ghost predicate NamesOk(e: Settings, ops: seq<Op>, n: nat, st: Pass) {
    && (forall s :: s in st.rename ==>
          Settled(e, ops, n, s) && Settled(e, ops, n, st.rename[s]) && st.rename[s] !in st.rename
          && s !in e.keep && s !in e.params)
    && (forall s :: s in st.primal ==>
          Settled(e, ops, n, s) && Settled(e, ops, n, st.primal[s]) && st.primal[s] !in st.rename && s !in st.rename)
  }

  ghost predicate EntryOk(e: Settings, ops: seq<Op>, n: nat, st: Pass, key: Key)
    requires n <= |ops| && PassShape(st, |e.writes|) && key in st.table
  {
    && |key.versions| == |key.ins|
    && (forall j :: 0 <= j < |key.ins| ==>
          key.ins[j] < |e.writes| && key.ins[j] !in st.rename && !Pending(ops, n, key.ins[j])
          && key.versions[j] <= st.version[key.ins[j]])
    && var survivor := st.ops[st.table[key]].value;
    && Settled(e, ops, n, survivor.out) && survivor.out !in st.rename && !Shares(survivor)
  }

  ghost predicate PassInv(e: Settings, ops: seq<Op>, n: nat, st: Pass)
    requires n <= |ops|
  {
    && PassShape(st, |e.writes|) && |st.ops| == n
    && NamesOk(e, ops, n, st)
    && (forall key :: key in st.table ==> EntryOk(e, ops, n, st, key))
    && (forall i :: 0 <= i < n && st.ops[i].Some? ==> st.ops[i].value.out == ops[i].out)
  }

  predicate Current(st: Pass, key: Key) {
    && |key.versions| == |key.ins|
    && forall j :: 0 <= j < |key.ins| ==> key.ins[j] < |st.version| && key.versions[j] == st.version[key.ins[j]]
  }

  /** Inputs, once renamed, are slots of the rewritten graph that already hold their value. */
  lemma ResolvedIns(e: Settings, ops: seq<Op>, n: nat, st: Pass)
    requires Flow(e, ops) && n < |ops| && PassInv(e, ops, n, st)
    ensures forall j :: 0 <= j < |ops[n].ins| ==>
      var r := Through(st.rename, ops[n].ins[j]);
      r < |e.writes| && r !in st.rename && !Pending(ops, n, r)
      && Through(st.primal, r) < |e.writes| && Through(st.primal, r) !in st.rename
      && !Pending(ops, n, Through(st.primal, r))
  { }

  /** A table entry stays good when one more op has been visited. */
  lemma EntryKept(e: Settings, ops: seq<Op>, n: nat, st: Pass, st': Pass, key: Key)
    requires Flow(e, ops) && n < |ops| && PassShape(st, |e.writes|) && PassShape(st', |e.writes|)
    requires key in st.table && EntryOk(e, ops, n, st, key)
    requires key in st'.table && st'.table[key] == st.table[key]
    requires var o, o' := st.ops[st.table[key]].value, st'.ops[st.table[key]].value;
             o'.out == o.out && !Shares(o')
    requires forall s :: 0 <= s < |e.writes| ==> st.version[s] <= st'.version[s]
    requires forall s :: s in st'.rename ==> s in st.rename || (s == ops[n].out && e.writes[s] == 1)
    ensures EntryOk(e, ops, n + 1, st', key)
  {
    assert WriteFacts(e, ops, n);
  }

  lemma PushKeeps(e: Settings, ops: seq<Op>, n: nat, st: Pass)
    requires Flow(e, ops) && n < |ops| && PassInv(e, ops, n, st)
    requires OpInRange(Renamed(st, ops[n]), |e.writes|)
    ensures PassInv(e, ops, n + 1, Push(st, Renamed(st, ops[n])))
  { }

  lemma EnterKeeps(e: Settings, ops: seq<Op>, n: nat, st: Pass)
    requires Flow(e, ops) && n < |ops| && PassInv(e, ops, n, st)
    requires OpInRange(Renamed(st, ops[n]), |e.writes|) && e.writes[ops[n].out] == 1
    ensures forall j :: 0 <= j < |ops[n].ins| ==> Through(st.primal, Renamed(st, ops[n]).ins[j]) < |st.version|
    ensures var o := Renamed(st, ops[n]);
            PassInv(e, ops, n + 1, Push(st, o).(table := st.table[KeyOf(st, o) := n]))
  {
    ResolvedIns(e, ops, n, st);
    PushKeeps(e, ops, n, st);
    var o := Renamed(st, ops[n]);
    var st' := Push(st, o).(table := st.table[KeyOf(st, o) := n]);
    NewEntry(e, ops, n, st);
    forall key | key in st'.table ensures EntryOk(e, ops, n + 1, st', key) {
      if key != KeyOf(st, o) {
        assert EntryOk(e, ops, n + 1, Push(st, o), key);
      }
    }
  }

  lemma NewEntry(e: Settings, ops: seq<Op>, n: nat, st: Pass)
    requires Flow(e, ops) && n < |ops| && PassInv(e, ops, n, st)
    requires OpInRange(Renamed(st, ops[n]), |e.writes|) && e.writes[ops[n].out] == 1
    requires forall j :: 0 <= j < |ops[n].ins| ==> Through(st.primal, Renamed(st, ops[n]).ins[j]) < |st.version|
    ensures var o := Renamed(st, ops[n]);
            EntryOk(e, ops, n + 1, Push(st, o).(table := st.table[KeyOf(st, o) := n]), KeyOf(st, o))
  {
    ResolvedIns(e, ops, n, st);
    assert WriteFacts(e, ops, n);
  }

  lemma ShareKeeps(e: Settings, ops: seq<Op>, n: nat, st: Pass, key: Key)
    requires Flow(e, ops) && n < |ops| && PassInv(e, ops, n, st) && key in st.table
    requires OpInRange(Renamed(st, ops[n]), |e.writes|) && e.writes[ops[n].out] == 1
    ensures PassInv(e, ops, n + 1, Share(st, Renamed(st, ops[n]), st.table[key]))
  {
    ShareNames(e, ops, n, st, key);
    ShareTable(e, ops, n, st, key);
    ShareOps(st, Renamed(st, ops[n]), st.table[key]);
  }

  /** Sharing appends an op and changes no output. */
  lemma ShareOps(st: Pass, o: Op, at: nat)
    requires PassShape(st, |st.version|) && OpInRange(o, |st.version|) && at < |st.ops| && st.ops[at].Some?
    ensures var ops' := Share(st, o, at).ops;
            && |ops'| == |st.ops| + 1 && ops'[|st.ops|].Some? && ops'[|st.ops|].value.out == o.out
            && forall i :: 0 <= i < |st.ops| ==>
                 ops'[i].Some? == st.ops[i].Some? && (ops'[i].Some? ==> ops'[i].value.out == st.ops[i].value.out)
  { }

  lemma ShareTable(e: Settings, ops: seq<Op>, n: nat, st: Pass, key: Key)
    requires Flow(e, ops) && n < |ops| && PassInv(e, ops, n, st) && key in st.table
    requires OpInRange(Renamed(st, ops[n]), |e.writes|)
    ensures var st' := Share(st, Renamed(st, ops[n]), st.table[key]);
            forall key' :: key' in st'.table ==> EntryOk(e, ops, n + 1, st', key')
  { }

  lemma ShareNames(e: Settings, ops: seq<Op>, n: nat, st: Pass, key: Key)
    requires Flow(e, ops) && n < |ops| && PassInv(e, ops, n, st) && key in st.table
    requires OpInRange(Renamed(st, ops[n]), |e.writes|) && e.writes[ops[n].out] == 1
    ensures NamesOk(e, ops, n + 1, Share(st, Renamed(st, ops[n]), st.table[key]))
  {
    assert EntryOk(e, ops, n, st, key);
    assert WriteFacts(e, ops, n);
  }

  lemma DropKeeps(e: Settings, ops: seq<Op>, n: nat, st: Pass, key: Key)
    requires Flow(e, ops) && n < |ops| && PassInv(e, ops, n, st) && key in st.table
    requires OpInRange(Renamed(st, ops[n]), |e.writes|) && e.writes[ops[n].out] == 1
    requires ops[n].out !in e.keep && ops[n].out !in e.params
    ensures PassInv(e, ops, n + 1, Drop(st, Renamed(st, ops[n]), st.table[key]))
  {
    var st' := Drop(st, Renamed(st, ops[n]), st.table[key]);
    DropNames(e, ops, n, st, key);
    forall key' | key' in st'.table ensures EntryOk(e, ops, n + 1, st', key') {
      EntryKept(e, ops, n, st, st', key');
    }
  }

  lemma DropNames(e: Settings, ops: seq<Op>, n: nat, st: Pass, key: Key)
    requires Flow(e, ops) && n < |ops| && PassInv(e, ops, n, st) && key in st.table
    requires OpInRange(Renamed(st, ops[n]), |e.writes|) && e.writes[ops[n].out] == 1
    requires ops[n].out !in e.keep && ops[n].out !in e.params
    ensures NamesOk(e, ops, n + 1, Drop(st, Renamed(st, ops[n]), st.table[key]))
  {
    assert EntryOk(e, ops, n, st, key);
    RenameOne(e, ops, n, st, st.ops[st.table[key]].value.out);
  }

  lemma RenameOne(e: Settings, ops: seq<Op>, n: nat, st: Pass, to: nat)
    requires n < |ops| && NamesOk(e, ops, n, st) && WriteFacts(e, ops, n)
    requires ops[n].out < |e.writes| && e.writes[ops[n].out] == 1 && ops[n].out !in e.keep && ops[n].out !in e.params
    requires Settled(e, ops, n, to) && to !in st.rename
    ensures NamesOk(e, ops, n + 1, st.(rename := st.rename[ops[n].out := to]))
  { }

  lemma VisitKeepsPassInv<V, W, A>(k: Kernels<V, W, A>, e: Settings, ops: seq<Op>, n: nat, st: Pass)
    requires Flow(e, ops) && n < |ops| && PassInv(e, ops, n, st)
    ensures PassInv(e, ops, n + 1, Visit(k, e, st, ops[n]))
  {
    var o := Renamed(st, ops[n]);
    ResolvedIns(e, ops, n, st);
    if !Candidate(k, e, o) {
      PushKeeps(e, ops, n, st);
    } else {
      var key := KeyOf(st, o);
      if key !in st.table {
        EnterKeeps(e, ops, n, st);
      } else if AnyActive(st.active, o.ins) && !e.mergeActive {
        ShareKeeps(e, ops, n, st, key);
      } else {
        DropKeeps(e, ops, n, st, key);
      }
    }
  }

  // ---------------------------------------------------------------- forward values

  /** The original memory m and the rewritten graph's memory m' after the same prefix of ops. */
  ghost predicate Agree<V, W, A>(k: Kernels<V, W, A>, ops: seq<Op>, n: nat, st: Pass, m: seq<V>, m': seq<V>)
    requires PassShape(st, |m|)
  {
    && |m'| == |m|
    && (forall s :: 0 <= s < |m| && !Pending(ops, n, s) && s !in st.rename ==> m[s] == m'[s])
    && (forall s :: s in st.rename && s < |m| ==> m[s] == m[st.rename[s]])
    && (forall s :: s in st.primal && s < |m| ==> m[s] == m[st.primal[s]])
    && (forall key :: key in st.table ==> EntryHolds(k, st, m, key))
  }

  /** As long as an entry is current, its survivor holds what its key computes. */
  ghost predicate EntryHolds<V, W, A>(k: Kernels<V, W, A>, st: Pass, m: seq<V>, key: Key)
    requires PassShape(st, |m|) && key in st.table
  {
    Current(st, key) ==> m[st.ops[st.table[key]].value.out] == k.value(key.sig, Gather(m, key.ins))
  }

  /** Where a visit changes memory it bumps the version or writes a slot no key mentions. */
  lemma EntryHoldsKept<V, W, A>(k: Kernels<V, W, A>, e: Settings, ops: seq<Op>, n: nat, st: Pass, st': Pass,
                                m: seq<V>, r: seq<V>, key: Key)
    requires n < |ops| && WriteFacts(e, ops, n) && |m| == |r| == |e.writes| && PassShape(st, |m|) && PassShape(st', |m|)
    requires key in st.table && EntryOk(e, ops, n, st, key) && EntryHolds(k, st, m, key)
    requires key in st'.table && st'.table[key] == st.table[key]
    requires st'.ops[st.table[key]].value.out == st.ops[st.table[key]].value.out
    requires forall s :: 0 <= s < |m| ==>
      st'.version[s] >= st.version[s]
      && (!WritesTo(ops[n], s) ==> r[s] == m[s])
      && (WritesTo(ops[n], s) ==> st'.version[s] > st.version[s] || FirstWrite(ops, s) == n)
    ensures EntryHolds(k, st', r, key)
  {
    if Current(st', key) {
      assert Current(st, key);
      assert Gather(r, key.ins) == Gather(m, key.ins);
    }
  }

  /** Reading the renamed, canonical inputs gives the values the original op reads. */
  lemma SameInputs<V, W, A>(k: Kernels<V, W, A>, e: Settings, ops: seq<Op>, n: nat, st: Pass, m: seq<V>, m': seq<V>)
    requires Flow(e, ops) && n < |ops| && PassInv(e, ops, n, st) && |m| == |e.writes|
    requires Agree(k, ops, n, st, m, m')
    ensures var o := Renamed(st, ops[n]);
            && OpInRange(o, |m|)
            && Gather(m, ops[n].ins) == Gather(m', o.ins) == Gather(m, o.ins)
            && (forall j :: 0 <= j < |o.ins| ==> Through(st.primal, o.ins[j]) < |m|)
            && Gather(m, ThroughAll(st.primal, o.ins)) == Gather(m, o.ins)
  { }

  lemma PushAgrees<V, W, A>(k: Kernels<V, W, A>, e: Settings, ops: seq<Op>, n: nat, st: Pass, m: seq<V>, m': seq<V>,
                            w: W)
    requires Flow(e, ops) && n < |ops| && PassInv(e, ops, n, st) && |m| == |e.writes|
    requires Agree(k, ops, n, st, m, m') && OpInRange(Renamed(st, ops[n]), |m|)
    ensures var o := Renamed(st, ops[n]);
            var r, r' := Exec(k, ops[n], m, w), Exec(k, o, m', w);
            r.1 == r'.1 && Agree(k, ops, n + 1, Push(st, o), r.0, r'.0)
  {
    var o := Renamed(st, ops[n]);
    SameInputs(k, e, ops, n, st, m, m');
    assert WriteFacts(e, ops, n);
    var r := Exec(k, ops[n], m, w).0;
    var st' := Push(st, o);
    forall key | key in st'.table ensures EntryHolds(k, st', r, key) {
      EntryHoldsKept(k, e, ops, n, st, st', m, r, key);
    }
  }

  /** A candidate computes what the table says its key's survivor holds. */
  lemma EnterAgrees<V, W, A>(k: Kernels<V, W, A>, e: Settings, ops: seq<Op>, n: nat, st: Pass, m: seq<V>, m': seq<V>,
                             w: W)
    requires Flow(e, ops) && n < |ops| && PassInv(e, ops, n, st) && |m| == |e.writes|
    requires Agree(k, ops, n, st, m, m') && OpInRange(Renamed(st, ops[n]), |m|)
    requires Candidate(k, e, Renamed(st, ops[n]))
    ensures forall j :: 0 <= j < |ops[n].ins| ==> Through(st.primal, Renamed(st, ops[n]).ins[j]) < |st.version|
    ensures var o := Renamed(st, ops[n]);
            var r, r' := Exec(k, ops[n], m, w), Exec(k, o, m', w);
            var st' := Push(st, o).(table := st.table[KeyOf(st, o) := n]);
            KeyOf(st, o) !in st.table ==> r.1 == r'.1 && PassShape(st', |m|) && Agree(k, ops, n + 1, st', r.0, r'.0)
  {
    var o := Renamed(st, ops[n]);
    SameInputs(k, e, ops, n, st, m, m');
    PushAgrees(k, e, ops, n, st, m, m', w);
    NewEntryHolds(k, e, ops, n, st, m, m', w);
    var key := KeyOf(st, o);
    var r := Exec(k, ops[n], m, w).0;
    if key !in st.table {
      EntriesHold(k, Push(st, o), r, key, n);
    }
  }

  /** A new entry beside the old ones. */
  lemma EntriesHold<V, W, A>(k: Kernels<V, W, A>, st: Pass, m: seq<V>, key: Key, at: nat)
    requires PassShape(st, |m|) && key !in st.table && at < |st.ops| && st.ops[at].Some?
    requires forall key' :: key' in st.table ==> EntryHolds(k, st, m, key')
    requires forall j :: 0 <= j < |key.ins| ==> key.ins[j] < |m|
    requires m[st.ops[at].value.out] == k.value(key.sig, Gather(m, key.ins))
    ensures var st' := st.(table := st.table[key := at]);
            PassShape(st', |m|) && forall key' :: key' in st'.table ==> EntryHolds(k, st', m, key')
  { }

  lemma NewEntryHolds<V, W, A>(k: Kernels<V, W, A>, e: Settings, ops: seq<Op>, n: nat, st: Pass, m: seq<V>,
                               m': seq<V>, w: W)
    requires Flow(e, ops) && n < |ops| && PassInv(e, ops, n, st) && |m| == |e.writes|
    requires Agree(k, ops, n, st, m, m') && OpInRange(Renamed(st, ops[n]), |m|)
    requires Candidate(k, e, Renamed(st, ops[n]))
    requires forall j :: 0 <= j < |ops[n].ins| ==> Through(st.primal, Renamed(st, ops[n]).ins[j]) < |st.version|
    ensures var key, r := KeyOf(st, Renamed(st, ops[n])), Exec(k, ops[n], m, w).0;
            (forall j :: 0 <= j < |key.ins| ==> key.ins[j] < |m|) &&
            r[ops[n].out] == k.value(key.sig, Gather(r, key.ins))
  {
    var o := Renamed(st, ops[n]);
    SameInputs(k, e, ops, n, st, m, m');
    var key := KeyOf(st, o);
    var r := Exec(k, ops[n], m, w).0;
    assert r[o.out] == k.value(o.sig, Gather(m, o.ins));
    assert WriteFacts(e, ops, n);
    ResolvedIns(e, ops, n, st);
    assert Gather(r, key.ins) == Gather(m, key.ins);
  }

  lemma DuplicateValue<V, W, A>(k: Kernels<V, W, A>, e: Settings, ops: seq<Op>, n: nat, st: Pass, m: seq<V>,
                                m': seq<V>, w: W)
    requires Flow(e, ops) && n < |ops| && PassInv(e, ops, n, st) && |m| == |e.writes|
    requires Agree(k, ops, n, st, m, m') && OpInRange(Renamed(st, ops[n]), |m|)
    requires Candidate(k, e, Renamed(st, ops[n]))
    requires forall j :: 0 <= j < |ops[n].ins| ==> Through(st.primal, Renamed(st, ops[n]).ins[j]) < |st.version|
    requires KeyOf(st, Renamed(st, ops[n])) in st.table
    ensures var so := st.ops[st.table[KeyOf(st, Renamed(st, ops[n]))]].value.out;
            && Settled(e, ops, n, so) && so !in st.rename && m[so] == m'[so]
            && Exec(k, ops[n], m, w) == (m[ops[n].out := m[so]], w)
  {
    var o := Renamed(st, ops[n]);
    var key := KeyOf(st, o);
    assert EntryOk(e, ops, n, st, key);
    SameInputs(k, e, ops, n, st, m, m');
    assert Current(st, key);
  }

  lemma DropAgrees<V, W, A>(k: Kernels<V, W, A>, e: Settings, ops: seq<Op>, n: nat, st: Pass, m: seq<V>, m': seq<V>,
                            w: W)
    requires Flow(e, ops) && n < |ops| && PassInv(e, ops, n, st) && |m| == |e.writes|
    requires Agree(k, ops, n, st, m, m') && OpInRange(Renamed(st, ops[n]), |m|)
    requires Candidate(k, e, Renamed(st, ops[n]))
    requires forall j :: 0 <= j < |ops[n].ins| ==> Through(st.primal, Renamed(st, ops[n]).ins[j]) < |st.version|
    requires KeyOf(st, Renamed(st, ops[n])) in st.table
    ensures var o := Renamed(st, ops[n]);
            Exec(k, ops[n], m, w).1 == w &&
            Agree(k, ops, n + 1, Drop(st, o, st.table[KeyOf(st, o)]), Exec(k, ops[n], m, w).0, m')
  {
    var o := Renamed(st, ops[n]);
    DuplicateValue(k, e, ops, n, st, m, m', w);
    assert WriteFacts(e, ops, n);
    var r := Exec(k, ops[n], m, w).0;
    var st' := Drop(st, o, st.table[KeyOf(st, o)]);
    DropHolds(k, e, ops, n, st, m, m', w, st.table[KeyOf(st, o)]);
  }

  lemma DropHolds<V, W, A>(k: Kernels<V, W, A>, e: Settings, ops: seq<Op>, n: nat, st: Pass, m: seq<V>, m': seq<V>,
                           w: W, at: nat)
    requires Flow(e, ops) && n < |ops| && PassInv(e, ops, n, st) && |m| == |e.writes|
    requires Agree(k, ops, n, st, m, m') && OpInRange(Renamed(st, ops[n]), |m|) && at < n && st.ops[at].Some?
    requires e.writes[ops[n].out] == 1 && ops[n].out2.None?
    ensures var st' := Drop(st, Renamed(st, ops[n]), at);
            forall key :: key in st'.table ==> EntryHolds(k, st', Exec(k, ops[n], m, w).0, key)
  {
    var st' := Drop(st, Renamed(st, ops[n]), at);
    var r := Exec(k, ops[n], m, w).0;
    assert WriteFacts(e, ops, n);
    forall key | key in st'.table ensures EntryHolds(k, st', r, key) {
      EntryHoldsKept(k, e, ops, n, st, st', m, r, key);
    }
  }

  lemma ShareAgrees<V, W, A>(k: Kernels<V, W, A>, e: Settings, ops: seq<Op>, n: nat, st: Pass, m: seq<V>, m': seq<V>,
                             w: W)
    requires Flow(e, ops) && n < |ops| && PassInv(e, ops, n, st) && |m| == |e.writes|
    requires Agree(k, ops, n, st, m, m') && OpInRange(Renamed(st, ops[n]), |m|)
    requires Candidate(k, e, Renamed(st, ops[n]))
    requires forall j :: 0 <= j < |ops[n].ins| ==> Through(st.primal, Renamed(st, ops[n]).ins[j]) < |st.version|
    requires KeyOf(st, Renamed(st, ops[n])) in st.table
    ensures var o := Renamed(st, ops[n]);
            var at := st.table[KeyOf(st, o)];
            var shared := o.(primal := Some(st.ops[at].value.out));
            && OpInRange(shared, |m|)
            && Exec(k, ops[n], m, w).1 == w == Exec(k, shared, m', w).1
            && Agree(k, ops, n + 1, Share(st, o, at), Exec(k, ops[n], m, w).0, Exec(k, shared, m', w).0)
  {
    var o := Renamed(st, ops[n]);
    var at := st.table[KeyOf(st, o)];
    DuplicateValue(k, e, ops, n, st, m, m', w);
    assert WriteFacts(e, ops, n);
    var shared := o.(primal := Some(st.ops[at].value.out));
    assert Shares(shared);
    ShareMemory(k, e, ops, n, st, m, m', at);
    ShareHolds(k, e, ops, n, st, m, m', w, at);
  }

  /** Both graphs copy the survivor's value into the output slot. */
  lemma ShareMemory<V, W, A>(k: Kernels<V, W, A>, e: Settings, ops: seq<Op>, n: nat, st: Pass, m: seq<V>,
                             m': seq<V>, at: nat)
    requires Flow(e, ops) && n < |ops| && PassInv(e, ops, n, st) && |m| == |e.writes| && ops[n].out < |m|
    requires Agree(k, ops, n, st, m, m') && at < n && st.ops[at].Some? && OpInRange(Renamed(st, ops[n]), |m|)
    requires e.writes[ops[n].out] == 1 && ops[n].out2.None?
    requires var so := st.ops[at].value.out;
             Settled(e, ops, n, so) && so !in st.rename && m[so] == m'[so] && so != ops[n].out
    ensures var so, out := st.ops[at].value.out, ops[n].out;
            var r, r', st' := m[out := m[so]], m'[out := m'[so]], Share(st, Renamed(st, ops[n]), at);
            && (forall s :: 0 <= s < |m| && !Pending(ops, n + 1, s) && s !in st'.rename ==> r[s] == r'[s])
            && (forall s :: s in st'.rename && s < |m| ==> r[s] == r[st'.rename[s]])
            && (forall s :: s in st'.primal && s < |m| ==> r[s] == r[st'.primal[s]])
  {
    assert WriteFacts(e, ops, n);
  }

  lemma ShareHolds<V, W, A>(k: Kernels<V, W, A>, e: Settings, ops: seq<Op>, n: nat, st: Pass, m: seq<V>, m': seq<V>,
                            w: W, at: nat)
    requires Flow(e, ops) && n < |ops| && PassInv(e, ops, n, st) && |m| == |e.writes|
    requires Agree(k, ops, n, st, m, m') && OpInRange(Renamed(st, ops[n]), |m|) && at < n && st.ops[at].Some?
    ensures var st' := Share(st, Renamed(st, ops[n]), at);
            forall key :: key in st'.table ==> EntryHolds(k, st', Exec(k, ops[n], m, w).0, key)
  {
    var st' := Share(st, Renamed(st, ops[n]), at);
    var r := Exec(k, ops[n], m, w).0;
    assert WriteFacts(e, ops, n);
    forall key | key in st'.table ensures EntryHolds(k, st', r, key) {
      EntryHoldsKept(k, e, ops, n, st, st', m, r, key);
    }
  }

  /** Marking a survivor as its own primal source changes nothing it computes. */
  lemma {:induction false} ForwardSurvivor<V, W, A>(k: Kernels<V, W, A>, ops: seq<Option<Op>>, at: nat, n: nat,
                                                    mem: seq<V>, w: W)
    requires n <= |ops| && at < |ops| && Ranged(ops, |mem|) && ops[at].Some? && !Shares(ops[at].value)
    ensures var o := ops[at].value;
            var ops' := ops[at := Some(o.(primal := Some(o.out)))];
            Ranged(ops', |mem|) && Forward(k, ops', n, mem, w) == Forward(k, ops, n, mem, w)
  {
    if n > 0 {
      ForwardSurvivor(k, ops, at, n - 1, mem, w);
    }
  }

  ghost predicate InStep<V, W, A>(k: Kernels<V, W, A>, e: Settings, ops: seq<Op>, n: nat, st: Pass,
                                  m: seq<V>, m': seq<V>, w: W)
    requires n <= |ops| && InRange(ops, |m|) && PassShape(st, |m|) && |m| == |m'| && |st.ops| == n
  {
    var r, r' := Forward(k, Whole(ops), n, m, w), Forward(k, st.ops, n, m', w);
    r.1 == r'.1 && Agree(k, ops, n, st, r.0, r'.0)
  }

  lemma ForwardPushed<V, W, A>(k: Kernels<V, W, A>, st: Pass, o: Op, mem: seq<V>, w: W)
    requires PassShape(st, |mem|) && OpInRange(o, |mem|)
    ensures var before := Forward(k, st.ops, |st.ops|, mem, w);
            Forward(k, Push(st, o).ops, |st.ops| + 1, mem, w) == Exec(k, o, before.0, before.1)
  {
    ForwardPrefix(k, st.ops, [Some(o)], |st.ops|, mem, w);
  }

  lemma KeepInStep<V, W, A>(k: Kernels<V, W, A>, e: Settings, ops: seq<Op>, n: nat, st: Pass, m: seq<V>, m': seq<V>,
                            w: W)
    requires Flow(e, ops) && n < |ops| && PassInv(e, ops, n, st) && |m| == |m'| == |e.writes|
    requires InStep(k, e, ops, n, st, m, m', w)
    requires var o := Renamed(st, ops[n]);
             Candidate(k, e, o) ==> KeyOf(st, o) !in st.table
    ensures InStep(k, e, ops, n + 1, Visit(k, e, st, ops[n]), m, m', w)
  {
    var o := Renamed(st, ops[n]);
    var r, r' := Forward(k, Whole(ops), n, m, w), Forward(k, st.ops, n, m', w);
    ForwardPushed(k, st, o, m', w);
    if Candidate(k, e, o) {
      EnterAgrees(k, e, ops, n, st, r.0, r'.0, r.1);
    } else {
      PushAgrees(k, e, ops, n, st, r.0, r'.0, r.1);
    }
  }

  lemma ForwardShared<V, W, A>(k: Kernels<V, W, A>, st: Pass, o: Op, at: nat, mem: seq<V>, w: W)
    requires PassShape(st, |mem|) && OpInRange(o, |mem|) && at < |st.ops| && st.ops[at].Some?
    requires !Shares(st.ops[at].value)
    ensures var before := Forward(k, st.ops, |st.ops|, mem, w);
            Forward(k, Share(st, o, at).ops, |st.ops| + 1, mem, w) ==
            Exec(k, o.(primal := Some(st.ops[at].value.out)), before.0, before.1)
  {
    var survivor := st.ops[at].value;
    var marked := st.ops[at := Some(survivor.(primal := Some(survivor.out)))];
    ForwardSurvivor(k, st.ops, at, |st.ops|, mem, w);
    ForwardPrefix(k, marked, [Some(o.(primal := Some(survivor.out)))], |st.ops|, mem, w);
  }

  lemma ShareInStep<V, W, A>(k: Kernels<V, W, A>, e: Settings, ops: seq<Op>, n: nat, st: Pass, m: seq<V>, m': seq<V>,
                             w: W)
    requires Flow(e, ops) && n < |ops| && PassInv(e, ops, n, st) && |m| == |m'| == |e.writes|
    requires InStep(k, e, ops, n, st, m, m', w)
    requires Candidate(k, e, Renamed(st, ops[n])) && KeyOf(st, Renamed(st, ops[n])) in st.table
    ensures var o := Renamed(st, ops[n]);
            InStep(k, e, ops, n + 1, Share(st, o, st.table[KeyOf(st, o)]), m, m', w)
  {
    var o := Renamed(st, ops[n]);
    var r, r' := Forward(k, Whole(ops), n, m, w), Forward(k, st.ops, n, m', w);
    assert EntryOk(e, ops, n, st, KeyOf(st, o));
    ForwardShared(k, st, o, st.table[KeyOf(st, o)], m', w);
    ShareAgrees(k, e, ops, n, st, r.0, r'.0, r.1);
  }

  lemma DropInStep<V, W, A>(k: Kernels<V, W, A>, e: Settings, ops: seq<Op>, n: nat, st: Pass, m: seq<V>, m': seq<V>,
                            w: W)
    requires Flow(e, ops) && n < |ops| && PassInv(e, ops, n, st) && |m| == |m'| == |e.writes|
    requires InStep(k, e, ops, n, st, m, m', w)
    requires Candidate(k, e, Renamed(st, ops[n])) && KeyOf(st, Renamed(st, ops[n])) in st.table
    ensures var o := Renamed(st, ops[n]);
            InStep(k, e, ops, n + 1, Drop(st, o, st.table[KeyOf(st, o)]), m, m', w)
  {
    var r, r' := Forward(k, Whole(ops), n, m, w), Forward(k, st.ops, n, m', w);
    ForwardPrefix(k, st.ops, [None], n, m', w);
    DropAgrees(k, e, ops, n, st, r.0, r'.0, r.1);
  }

  lemma VisitInStep<V, W, A>(k: Kernels<V, W, A>, e: Settings, ops: seq<Op>, n: nat, st: Pass, m: seq<V>, m': seq<V>,
                             w: W)
    requires Flow(e, ops) && n < |ops| && PassInv(e, ops, n, st) && |m| == |m'| == |e.writes|
    requires InStep(k, e, ops, n, st, m, m', w)
    ensures InStep(k, e, ops, n + 1, Visit(k, e, st, ops[n]), m, m', w)
  {
    var o := Renamed(st, ops[n]);
    if !Candidate(k, e, o) || KeyOf(st, o) !in st.table {
      KeepInStep(k, e, ops, n, st, m, m', w);
    } else if AnyActive(st.active, o.ins) && !e.mergeActive {
      ShareInStep(k, e, ops, n, st, m, m', w);
    } else {
      DropInStep(k, e, ops, n, st, m, m', w);
    }
  }

  lemma {:induction false} PassInStep<V, W, A>(k: Kernels<V, W, A>, e: Settings, ops: seq<Op>, n: nat, m: seq<V>,
                                               m': seq<V>, w: W)
    requires Flow(e, ops) && n <= |ops| && |m| == |m'| == |e.writes|
    requires forall s :: 0 <= s < |m| && FirstWrite(ops, s) == |ops| ==> m[s] == m'[s]
    ensures PassInv(e, ops, n, VisitAll(k, e, ops, n))
    ensures InStep(k, e, ops, n, VisitAll(k, e, ops, n), m, m', w)
  {
    if n > 0 {
      PassInStep(k, e, ops, n - 1, m, m', w);
      VisitKeepsPassInv(k, e, ops, n - 1, VisitAll(k, e, ops, n - 1));
      VisitInStep(k, e, ops, n - 1, VisitAll(k, e, ops, n - 1), m, m', w);
    }
  }

  /** The rewritten graph computes every surviving slot, every renamed slot under its new name and the
      same effects, whatever its buffers held before: only never-written slots (parameters, data) must
      agree, so the statement covers every evaluation of a sampler run, not just the first. */
  lemma CsePreservesValues<V, W, A>(k: Kernels<V, W, A>, e: Settings, ops: seq<Op>, m: seq<V>, m': seq<V>, w: W)
    requires SettingsFor(e, ops) && |m| == |m'| == |e.writes|
    requires forall s :: 0 <= s < |m| && FirstWrite(ops, s) == |ops| ==> m[s] == m'[s]
    ensures var st := VisitAll(k, e, ops, |ops|);
            InRange(Kept(st.ops), |m|) &&
            var r := Forward(k, Whole(ops), |ops|, m, w);
            var r' := Forward(k, Whole(Kept(st.ops)), |Kept(st.ops)|, m', w);
            && r.1 == r'.1
            && (forall s :: 0 <= s < |m| ==> Through(st.rename, s) < |m| && r.0[s] == r'.0[Through(st.rename, s)])
            && (forall s :: s in st.rename ==> s !in e.keep && s !in e.params)
  {
    var st := VisitAll(k, e, ops, |ops|);
    SettingsFlow(e, ops);
    PassInStep(k, e, ops, |ops|, m, m', w);
    KeptForward(k, st.ops, m', w);
  }
}
