/** Which ops the pass eliminates: exactly those that an earlier op of the graph already computes, where
    inputs count as the same when they are one slot not written in between or duplicates themselves.
*/
module CseComplete {
  import opened Options
  import opened OpGraph
  import opened Cse
  import opened CseProof
  import opened CseReverse

  // ---------------------------------------------------------------- duplicates, read off the graph

  /** A slot that some chain of the first n ops leads to from a parameter. */
  predicate Reached(ops: seq<Op>, params: set<nat>, n: nat, s: nat)
    requires n <= |ops|
    decreases n, 0
  {
    if n == 0 then s in params
    else Reached(ops, params, n - 1, s) || (WritesTo(ops[n - 1], s) && AnyReached(ops, params, n - 1, ops[n - 1].ins))
  }

  predicate AnyReached(ops: seq<Op>, params: set<nat>, n: nat, slots: seq<nat>)
    requires n <= |ops|
    decreases n, 1
  {
    exists q :: 0 <= q < |slots| && Reached(ops, params, n, slots[q])
  }

  predicate Unwritten(ops: seq<Op>, i: nat, j: nat, s: nat)
    requires j <= |ops|
  {
    forall n :: i <= n < j ==> !WritesTo(ops[n], s)
  }

  /** An op without opaque parts whose output nobody else writes, keeps or sets, and that does not read it. */
  ghost predicate Sharable<V, W, A>(k: Kernels<V, W, A>, keep: set<nat>, params: set<nat>, ops: seq<Op>, i: nat) {
    && i < |ops|
    && var o := ops[i];
    && o.out2.None? && o.sig.payload == 0 && !o.sig.dynamic && !k.barred(o.sig.code)
    && o.out !in keep && o.out !in params && o.out !in o.ins
    && forall n :: 0 <= n < |ops| && WritesTo(ops[n], o.out) ==> n == i
  }

  /** Op j computes what op i does. */
  ghost predicate Same<V, W, A>(k: Kernels<V, W, A>, keep: set<nat>, params: set<nat>, ops: seq<Op>, i: nat, j: nat)
    decreases j, 2
  {
    && i < j && Sharable(k, keep, params, ops, i) && Sharable(k, keep, params, ops, j)
    && ops[i].sig == ops[j].sig && |ops[i].ins| == |ops[j].ins|
    && forall q :: 0 <= q < |ops[i].ins| ==> SameInput(k, keep, params, ops, i, j, ops[i].ins[q], ops[j].ins[q])
  }

  /** One slot that no op from i up to j writes, or two slots that hold what one op h computes. */
  ghost predicate SameInput<V, W, A>(k: Kernels<V, W, A>, keep: set<nat>, params: set<nat>, ops: seq<Op>, i: nat,
                                     j: nat, s: nat, t: nat)
    requires j < |ops|
    decreases j, 1
  {
    || (s == t && Unwritten(ops, i, j, s))
    || exists h :: Holds(k, keep, params, ops, j, h, s) && Holds(k, keep, params, ops, j, h, t)
  }

  /** Slot s is the output of op h or of a later op, before op j, that computes the same. */
  ghost predicate Holds<V, W, A>(k: Kernels<V, W, A>, keep: set<nat>, params: set<nat>, ops: seq<Op>, j: nat, h: nat,
                                 s: nat)
    requires j < |ops|
    decreases j, 0
  {
    && h < |ops| && Sharable(k, keep, params, ops, h)
    && (s == ops[h].out || exists l :: h < l < j && Same(k, keep, params, ops, h, l) && s == ops[l].out)
  }

  /** Some earlier op computes what op j does. */
  ghost predicate HasEarlier<V, W, A>(k: Kernels<V, W, A>, keep: set<nat>, params: set<nat>, ops: seq<Op>, j: nat) {
    exists i: nat :: Same(k, keep, params, ops, i, j)
  }

  // ---------------------------------------------------------------- what later visits leave alone

  ghost predicate Later(e: Settings, ops: seq<Op>, m: nat, n: nat, st: Pass, st': Pass)
    requires m <= n <= |ops|
  {
    && PassShape(st, |e.writes|) && PassShape(st', |e.writes|) && |st.ops| == m && |st'.ops| == n
    && (forall key :: key in st.table ==> key in st'.table && st'.table[key] == st.table[key])
    && (forall i :: 0 <= i < m ==> OpStays(st.ops[i], st'.ops[i]))
    && (forall s {:trigger NameStays(ops, m, st, st', s)} :: NameStays(ops, m, st, st', s))
    && (forall s {:trigger SlotStays(ops, m, n, st, st', s)} ::
          0 <= s < |e.writes| ==> SlotStays(ops, m, n, st, st', s))
  }

  predicate OpStays(o: Option<Op>, o': Option<Op>) {
    && SameUpToPrimal(o, o')
    && (o.Some? && o.value.primal.Some? ==> o'.value.primal == o.value.primal)
  }

  predicate NameStays(ops: seq<Op>, m: nat, st: Pass, st': Pass, s: nat) {
    !Pending(ops, m, s) ==>
      Through(st'.rename, s) == Through(st.rename, s) && Through(st'.primal, s) == Through(st.primal, s)
  }

  ghost predicate SlotStays(ops: seq<Op>, m: nat, n: nat, st: Pass, st': Pass, s: nat)
    requires m <= n <= |ops| && s < |st.version| == |st'.version| == |st.active| == |st'.active|
  {
    && st.version[s] <= st'.version[s]
    && (Unwritten(ops, m, n, s) ==> st'.version[s] == st.version[s] && st'.active[s] == st.active[s])
    && (st'.version[s] == st.version[s] && !Pending(ops, m, s) ==> Unwritten(ops, m, n, s))
  }

  lemma PushIsLater(e: Settings, ops: seq<Op>, n: nat, st: Pass, table: map<Key, nat>)
    requires Flow(e, ops) && n < |ops| && PassInv(e, ops, n, st) && OpInRange(Renamed(st, ops[n]), |e.writes|)
    requires forall key :: key in st.table ==> key in table && table[key] == st.table[key]
    requires forall key :: key in table ==> table[key] <= n && (table[key] == n || st.ops[table[key]].Some?)
    ensures Later(e, ops, n, n + 1, st, Push(st, Renamed(st, ops[n])).(table := table))
  {
    assert WriteFacts(e, ops, n);
  }

  lemma DropIsLater(e: Settings, ops: seq<Op>, n: nat, st: Pass, key: Key)
    requires Flow(e, ops) && n < |ops| && PassInv(e, ops, n, st) && OpInRange(Renamed(st, ops[n]), |e.writes|)
    requires key in st.table && e.writes[ops[n].out] == 1 && ops[n].out2.None?
    ensures Later(e, ops, n, n + 1, st, Drop(st, Renamed(st, ops[n]), st.table[key]))
  {
    assert WriteFacts(e, ops, n);
  }

  lemma ShareIsLater(e: Settings, ops: seq<Op>, n: nat, st: Pass, key: Key)
    requires Flow(e, ops) && n < |ops| && PassInv(e, ops, n, st) && OpInRange(Renamed(st, ops[n]), |e.writes|)
    requires key in st.table && e.writes[ops[n].out] == 1
    ensures Later(e, ops, n, n + 1, st, Share(st, Renamed(st, ops[n]), st.table[key]))
  {
    assert EntryOk(e, ops, n, st, key);
    ShareStays(e, ops, n, st, st.table[key]);
  }

  lemma ShareStays(e: Settings, ops: seq<Op>, n: nat, st: Pass, at: nat)
    requires n < |ops| && WriteFacts(e, ops, n) && PassShape(st, |e.writes|) && |st.ops| == n && at < n
    requires OpInRange(Renamed(st, ops[n]), |e.writes|) && e.writes[ops[n].out] == 1
    requires st.ops[at].Some? && !Shares(st.ops[at].value)
    ensures Later(e, ops, n, n + 1, st, Share(st, Renamed(st, ops[n]), at))
  { }

  lemma VisitIsLater<V, W, A>(k: Kernels<V, W, A>, e: Settings, ops: seq<Op>, n: nat, st: Pass)
    requires Flow(e, ops) && n < |ops| && PassInv(e, ops, n, st)
    ensures Later(e, ops, n, n + 1, st, Visit(k, e, st, ops[n]))
  {
    var o := Renamed(st, ops[n]);
    ResolvedIns(e, ops, n, st);
    if !Candidate(k, e, o) {
      PushIsLater(e, ops, n, st, st.table);
    } else {
      var key := KeyOf(st, o);
      if key !in st.table {
        PushIsLater(e, ops, n, st, st.table[key := n]);
      } else if AnyActive(st.active, o.ins) && !e.mergeActive {
        ShareIsLater(e, ops, n, st, key);
      } else {
        DropIsLater(e, ops, n, st, key);
      }
    }
  }

  lemma LaterStill(e: Settings, ops: seq<Op>, m: nat, n: nat, a: Pass, b: Pass, c: Pass)
    requires m <= n < |ops| && Later(e, ops, m, n, a, b) && Later(e, ops, n, n + 1, b, c)
    ensures Later(e, ops, m, n + 1, a, c)
  {
    forall i | 0 <= i < m ensures OpStays(a.ops[i], c.ops[i]) {
      assert OpStays(a.ops[i], b.ops[i]) && OpStays(b.ops[i], c.ops[i]);
    }
    forall s: nat ensures NameStays(ops, m, a, c, s) {
      assert NameStays(ops, m, a, b, s) && NameStays(ops, n, b, c, s);
    }
    var next := n + 1;
    forall s: nat | s < |e.writes| ensures SlotStays(ops, m, next, a, c, s) {
      assert SlotStays(ops, m, n, a, b, s) && SlotStays(ops, n, n + 1, b, c, s);
    }
  }

  lemma NextIsLater<V, W, A>(k: Kernels<V, W, A>, e: Settings, ops: seq<Op>, n: nat)
    requires Flow(e, ops) && n < |ops|
    ensures Later(e, ops, n, n + 1, VisitAll(k, e, ops, n), VisitAll(k, e, ops, n + 1))
  {
    PassInvAll(k, e, ops, n);
    VisitIsLater(k, e, ops, n, VisitAll(k, e, ops, n));
  }

  ghost predicate NextAt(e: Settings, ops: seq<Op>, tr: seq<Pass>, i: nat)
    requires i < |ops| && |tr| == |ops| + 1
  {
    Later(e, ops, i, i + 1, tr[i], tr[i + 1])
  }

  lemma {:induction false} LaterAlong(e: Settings, ops: seq<Op>, tr: seq<Pass>, m: nat, n: nat)
    requires |tr| == |ops| + 1 && m < n <= |ops| && forall i :: 0 <= i < |ops| ==> NextAt(e, ops, tr, i)
    ensures Later(e, ops, m, n, tr[m], tr[n])
    decreases n - m
  {
    assert NextAt(e, ops, tr, n - 1);
    if m < n - 1 {
      LaterAlong(e, ops, tr, m, n - 1);
      LaterStill(e, ops, m, n - 1, tr[m], tr[n - 1], tr[n]);
    }
  }

  lemma AllLater<V, W, A>(k: Kernels<V, W, A>, e: Settings, ops: seq<Op>, m: nat, n: nat)
    requires Flow(e, ops) && m <= n <= |ops|
    ensures Later(e, ops, m, n, VisitAll(k, e, ops, m), VisitAll(k, e, ops, n))
  {
    if m < n {
      var tr := seq(|ops| + 1, i requires 0 <= i <= |ops| => VisitAll(k, e, ops, i));
      forall i | 0 <= i < |ops| ensures NextAt(e, ops, tr, i) {
        NextAtIs(k, e, ops, tr, i);
      }
      LaterAlong(e, ops, tr, m, n);
    } else {
      SameIsLater(e, ops, m, VisitAll(k, e, ops, m));
    }
  }

  lemma NextAtIs<V, W, A>(k: Kernels<V, W, A>, e: Settings, ops: seq<Op>, tr: seq<Pass>, i: nat)
    requires Flow(e, ops) && i < |ops| && |tr| == |ops| + 1
    requires tr[i] == VisitAll(k, e, ops, i) && tr[i + 1] == VisitAll(k, e, ops, i + 1)
    ensures NextAt(e, ops, tr, i)
  {
    NextIsLater(k, e, ops, i);
  }

  lemma SameIsLater(e: Settings, ops: seq<Op>, n: nat, st: Pass)
    requires n <= |ops| && PassShape(st, |e.writes|) && |st.ops| == n
    ensures Later(e, ops, n, n, st, st)
  { }

  // ---------------------------------------------------------------- candidates

  lemma {:induction false} NoWriter(ops: seq<Op>, n: nat, s: nat)
    requires n <= |ops| && Unwritten(ops, 0, n, s)
    ensures WriteCount(ops, n, s) == 0
  {
    if n > 0 {
      NoWriter(ops, n - 1, s);
    }
  }

  lemma {:induction false} OneOutput(ops: seq<Op>, n: nat, i: nat)
    requires i < n <= |ops| && ops[i].out2.None?
    requires forall m :: 0 <= m < n && WritesTo(ops[m], ops[i].out) ==> m == i
    ensures WriteCount(ops, n, ops[i].out) == 1
  {
    if n == i + 1 {
      NoWriter(ops, i, ops[i].out);
    } else {
      OneOutput(ops, n - 1, i);
    }
  }

  /** Whether an op may be shared does not depend on what the pass has done so far. */
  lemma CandidateIffSharable<V, W, A>(k: Kernels<V, W, A>, e: Settings, ops: seq<Op>, n: nat, st: Pass)
    requires SettingsFor(e, ops) && Flow(e, ops) && n < |ops| && PassInv(e, ops, n, st)
    ensures Candidate(k, e, Renamed(st, ops[n])) <==> Sharable(k, e.keep, e.params, ops, n)
  {
    var o := ops[n];
    assert WriteFacts(e, ops, n);
    if Sharable(k, e.keep, e.params, ops, n) {
      OneOutput(ops, |ops|, n);
    }
    if Candidate(k, e, Renamed(st, o)) {
      forall m | 0 <= m < |ops| && WritesTo(ops[m], o.out) ensures m == n {
        if m < n {
          TwoWriters(ops, |ops|, m, n, o.out);
        } else if n < m {
          TwoWriters(ops, |ops|, n, m, o.out);
        }
      }
    }
    if e.writes[o.out] == 1 {
      forall j | 0 <= j < |o.ins| ensures o.ins[j] != o.out && Through(st.rename, o.ins[j]) != o.out {
        assert !Pending(ops, n, o.ins[j]);
      }
    }
  }

  /** A sharable op is the first to write its output. */
  lemma SharableWrites<V, W, A>(k: Kernels<V, W, A>, e: Settings, ops: seq<Op>, n: nat)
    requires SettingsFor(e, ops) && Sharable(k, e.keep, e.params, ops, n)
    ensures FirstWrite(ops, ops[n].out) == n && Settled(e, ops, n + 1, ops[n].out)
  {
    OneOutput(ops, |ops|, n);
    FirstWriteIs(ops, 0, ops[n].out);
    assert WritesTo(ops[n], ops[n].out);
    assert OpInRange(ops[n], |e.writes|);
  }

  // ---------------------------------------------------------------- names

  /** The slot that stands for s among the operands of keys. */
  function Canon(st: Pass, s: nat): nat {
    Through(st.primal, Through(st.rename, s))
  }

  lemma CanonStays<V, W, A>(k: Kernels<V, W, A>, e: Settings, ops: seq<Op>, m: nat, n: nat, s: nat)
    requires Flow(e, ops) && m <= n <= |ops| && !Pending(ops, m, s) && s < |e.writes|
    ensures var c := Canon(VisitAll(k, e, ops, m), s);
            && Canon(VisitAll(k, e, ops, n), s) == c < |e.writes| && !Pending(ops, m, c)
            && (c != s ==> Settled(e, ops, m, s) && Settled(e, ops, m, c))
  {
    var st, st' := VisitAll(k, e, ops, m), VisitAll(k, e, ops, n);
    AllLater(k, e, ops, m, n);
    PassInvAll(k, e, ops, m);
    var r := Through(st.rename, s);
    assert NameStays(ops, m, st, st', s) && NameStays(ops, m, st, st', r);
  }

  lemma SettledUnwritten(e: Settings, ops: seq<Op>, m: nat, n: nat, s: nat)
    requires Flow(e, ops) && m <= n <= |ops| && Settled(e, ops, m, s)
    ensures Unwritten(ops, m, n, s)
  {
    forall i | m <= i < n ensures !WritesTo(ops[i], s) {
      assert WriteFacts(e, ops, i) && Settled(e, ops, i, s);
    }
  }

  /** The key under which op n is looked up. */
  function KeyAt<V, W, A>(k: Kernels<V, W, A>, e: Settings, ops: seq<Op>, n: nat): (r: Key)
    requires InRange(ops, |e.writes|) && n < |ops|
  {
    var st := VisitAll(k, e, ops, n);
    var ins := ThroughAll(st.primal, Renamed(st, ops[n]).ins);
    Key(ops[n].sig, ins, Gather(st.version, ins))
  }

  /** What a visit does to a sharable op: it is entered, shared or dropped, and either way its output is
      from then on known under the name of the table's survivor. */
  ghost predicate Shared<V, W, A>(k: Kernels<V, W, A>, e: Settings, ops: seq<Op>, n: nat, st: Pass, st': Pass)
    requires InRange(ops, |e.writes|) && n < |ops| && |st.ops| == n && |st'.ops| == n + 1
  {
    var key, out := KeyAt(k, e, ops, n), ops[n].out;
    && key in st'.table && st'.table[key] <= n && st'.ops[st'.table[key]].Some?
    && var at := st'.table[key];
    && var sv := st'.ops[at].value.out;
    && sv == ops[at].out && Canon(st', out) == sv
    && (key in st.table <==> at < n)
    && (at == n ==> st'.ops[n].Some? && out !in st'.rename && out !in st'.primal)
    && (at < n ==>
          var active := AnyActive(st.active, Renamed(st, ops[n]).ins) && !e.mergeActive;
          && (!active ==> st'.ops[n].None? && out in st'.rename && st'.rename[out] == sv)
          && (active ==> st'.ops[n].Some? && st'.ops[n].value.primal == Some(sv) && out !in st'.rename
                         && out in st'.primal && st'.primal[out] == sv && st'.ops[at].value.primal == Some(sv)))
  }

  /** A table entry was made by the sharable op it names, under its key, and its slot is its own name. */
  ghost predicate EntryFrom<V, W, A>(k: Kernels<V, W, A>, e: Settings, ops: seq<Op>, st: Pass, key: Key)
    requires InRange(ops, |e.writes|) && key in st.table
  {
    var at := st.table[key];
    && at < |st.ops| <= |ops| && Sharable(k, e.keep, e.params, ops, at) && key == KeyAt(k, e, ops, at)
    && st.ops[at].Some? && st.ops[at].value.out == ops[at].out && ops[at].out !in st.primal
  }

  ghost predicate TableFrom<V, W, A>(k: Kernels<V, W, A>, e: Settings, ops: seq<Op>, st: Pass)
    requires InRange(ops, |e.writes|)
  {
    forall key {:trigger EntryFrom(k, e, ops, st, key)} :: key in st.table ==> EntryFrom(k, e, ops, st, key)
  }

  /** The visit of a sharable op. */
  lemma SharableVisit<V, W, A>(k: Kernels<V, W, A>, e: Settings, ops: seq<Op>, n: nat)
    requires SettingsFor(e, ops) && Flow(e, ops) && Sharable(k, e.keep, e.params, ops, n)
    requires TableFrom(k, e, ops, VisitAll(k, e, ops, n))
    ensures Shared(k, e, ops, n, VisitAll(k, e, ops, n), VisitAll(k, e, ops, n + 1))
  {
    var st := VisitAll(k, e, ops, n);
    PassInvAll(k, e, ops, n);
    CandidateIffSharable(k, e, ops, n, st);
    ResolvedIns(e, ops, n, st);
    var o := Renamed(st, ops[n]);
    assert KeyOf(st, o) == KeyAt(k, e, ops, n);
    var key := KeyOf(st, o);
    SharableWrites(k, e, ops, n);
    assert o.out !in st.rename && o.out !in st.primal;
    if key in st.table {
      assert EntryFrom(k, e, ops, st, key);
      SharableWrites(k, e, ops, st.table[key]);
      assert EntryOk(e, ops, n, st, key);
      HitShared(k, e, ops, n, st, key);
    }
  }

  lemma HitShared<V, W, A>(k: Kernels<V, W, A>, e: Settings, ops: seq<Op>, n: nat, st: Pass, key: Key)
    requires Flow(e, ops) && n < |ops| && PassInv(e, ops, n, st) && OpInRange(Renamed(st, ops[n]), |e.writes|)
    requires st == VisitAll(k, e, ops, n) && key == KeyAt(k, e, ops, n) && key in st.table
    requires EntryFrom(k, e, ops, st, key) && EntryOk(e, ops, n, st, key) && ops[st.table[key]].out != ops[n].out
    requires ops[n].out !in st.rename && ops[n].out !in st.primal
    ensures var o := Renamed(st, ops[n]);
            var st' := if AnyActive(st.active, o.ins) && !e.mergeActive then Share(st, o, st.table[key])
                       else Drop(st, o, st.table[key]);
            Shared(k, e, ops, n, st, st')
  { }

  lemma EntriesStay<V, W, A>(k: Kernels<V, W, A>, e: Settings, ops: seq<Op>, n: nat, key: Key)
    requires SettingsFor(e, ops) && Flow(e, ops) && n < |ops|
    requires key in VisitAll(k, e, ops, n).table && EntryFrom(k, e, ops, VisitAll(k, e, ops, n), key)
    ensures key in VisitAll(k, e, ops, n + 1).table && EntryFrom(k, e, ops, VisitAll(k, e, ops, n + 1), key)
  {
    var st, st' := VisitAll(k, e, ops, n), VisitAll(k, e, ops, n + 1);
    NextIsLater(k, e, ops, n);
    var at := st.table[key];
    assert OpStays(st.ops[at], st'.ops[at]);
    SharableWrites(k, e, ops, at);
    assert NameStays(ops, n, st, st', ops[at].out);
    PassInvAll(k, e, ops, n + 1);
    if ops[at].out in st'.primal {
      PassInvAll(k, e, ops, n);
      NewlyShared(k, e, ops, n, st, ops[at].out);
    }
  }

  /** A slot is first shared by the op that writes it. */
  lemma NewlyShared<V, W, A>(k: Kernels<V, W, A>, e: Settings, ops: seq<Op>, n: nat, st: Pass, s: nat)
    requires Flow(e, ops) && n < |ops| && PassInv(e, ops, n, st)
    requires s in Visit(k, e, st, ops[n]).primal && s !in st.primal
    ensures s == ops[n].out && !Settled(e, ops, n, s)
  {
    assert WriteFacts(e, ops, n);
  }

  lemma {:induction false} AllTableFrom<V, W, A>(k: Kernels<V, W, A>, e: Settings, ops: seq<Op>, n: nat)
    requires SettingsFor(e, ops) && Flow(e, ops) && n <= |ops|
    ensures TableFrom(k, e, ops, VisitAll(k, e, ops, n))
  {
    if n > 0 {
      AllTableFrom(k, e, ops, n - 1);
      var st, st' := VisitAll(k, e, ops, n - 1), VisitAll(k, e, ops, n);
      forall key | key in st'.table ensures EntryFrom(k, e, ops, st', key) {
        if key in st.table {
          assert EntryFrom(k, e, ops, st, key);
          EntriesStay(k, e, ops, n - 1, key);
        } else {
          NewEntryFrom(k, e, ops, n - 1, key);
        }
      }
    }
  }

  lemma NewEntryFrom<V, W, A>(k: Kernels<V, W, A>, e: Settings, ops: seq<Op>, n: nat, key: Key)
    requires SettingsFor(e, ops) && Flow(e, ops) && n < |ops| && TableFrom(k, e, ops, VisitAll(k, e, ops, n))
    requires key in VisitAll(k, e, ops, n + 1).table && key !in VisitAll(k, e, ops, n).table
    ensures EntryFrom(k, e, ops, VisitAll(k, e, ops, n + 1), key)
  {
    var st := VisitAll(k, e, ops, n);
    PassInvAll(k, e, ops, n);
    CandidateIffSharable(k, e, ops, n, st);
    ResolvedIns(e, ops, n, st);
    assert KeyOf(st, Renamed(st, ops[n])) == KeyAt(k, e, ops, n);
    SharableVisit(k, e, ops, n);
  }

  /** Both names at once. */
  lemma SharableShared<V, W, A>(k: Kernels<V, W, A>, e: Settings, ops: seq<Op>, n: nat)
    requires SettingsFor(e, ops) && Flow(e, ops) && Sharable(k, e.keep, e.params, ops, n)
    ensures Shared(k, e, ops, n, VisitAll(k, e, ops, n), VisitAll(k, e, ops, n + 1))
  {
    AllTableFrom(k, e, ops, n);
    SharableVisit(k, e, ops, n);
  }

  // ---------------------------------------------------------------- every duplicate is found

  function EndName<V, W, A>(k: Kernels<V, W, A>, e: Settings, ops: seq<Op>, s: nat): nat
    requires InRange(ops, |e.writes|)
  {
    Canon(VisitAll(k, e, ops, |ops|), s)
  }

  /** The inputs of the key, and that the versions stand until op j if the slots are not written. */
  lemma KeyInput<V, W, A>(k: Kernels<V, W, A>, e: Settings, ops: seq<Op>, n: nat, q: nat)
    requires Flow(e, ops) && n < |ops| && q < |ops[n].ins|
    ensures var c := EndName(k, e, ops, ops[n].ins[q]);
            && KeyAt(k, e, ops, n).ins[q] == c < |e.writes| && !Pending(ops, n, c)
            && KeyAt(k, e, ops, n).versions[q] == VisitAll(k, e, ops, n).version[c]
            && (c != ops[n].ins[q] ==> Settled(e, ops, n, ops[n].ins[q]) && Settled(e, ops, n, c))
  {
    assert OpInRange(ops[n], |e.writes|);
    CanonStays(k, e, ops, n, |ops|, ops[n].ins[q]);
  }

  lemma VersionStays<V, W, A>(k: Kernels<V, W, A>, e: Settings, ops: seq<Op>, i: nat, j: nat, c: nat)
    requires Flow(e, ops) && i <= j <= |ops| && c < |e.writes| && !Pending(ops, i, c)
    ensures VisitAll(k, e, ops, i).version[c] == VisitAll(k, e, ops, j).version[c] <==> Unwritten(ops, i, j, c)
  {
    AllLater(k, e, ops, i, j);
    assert SlotStays(ops, i, j, VisitAll(k, e, ops, i), VisitAll(k, e, ops, j), c);
  }

  /** Slots that hold what op h computes have one name at the end, and once written stay as they are. */
  lemma {:induction false} HeldNames<V, W, A>(k: Kernels<V, W, A>, e: Settings, ops: seq<Op>, i: nat, j: nat, h: nat,
                                              s: nat)
    requires SettingsFor(e, ops) && Flow(e, ops) && j < |ops| && Holds(k, e.keep, e.params, ops, j, h, s)
    ensures EndName(k, e, ops, s) == EndName(k, e, ops, ops[h].out)
    ensures i < |ops| && !Pending(ops, i, s) ==> Settled(e, ops, i, s)
    decreases j, 0
  {
    if s == ops[h].out {
      SharableWrites(k, e, ops, h);
    } else {
      var l :| h < l < j && Same(k, e.keep, e.params, ops, h, l) && s == ops[l].out;
      SharableWrites(k, e, ops, l);
      SameIsFound(k, e, ops, h, l);
    }
  }

  lemma {:induction false} SameInputs<V, W, A>(k: Kernels<V, W, A>, e: Settings, ops: seq<Op>, i: nat, j: nat, q: nat)
    requires SettingsFor(e, ops) && Flow(e, ops) && i < j < |ops| && q < |ops[i].ins| == |ops[j].ins|
    requires SameInput(k, e.keep, e.params, ops, i, j, ops[i].ins[q], ops[j].ins[q])
    ensures KeyAt(k, e, ops, i).ins[q] == KeyAt(k, e, ops, j).ins[q]
    ensures KeyAt(k, e, ops, i).versions[q] == KeyAt(k, e, ops, j).versions[q]
    decreases j, 1
  {
    var s, t := ops[i].ins[q], ops[j].ins[q];
    if !(s == t && Unwritten(ops, i, j, s)) {
      var h :| Holds(k, e.keep, e.params, ops, j, h, s) && Holds(k, e.keep, e.params, ops, j, h, t);
      HeldNames(k, e, ops, i, j, h, s);
      HeldNames(k, e, ops, i, j, h, t);
      KeyInput(k, e, ops, i, q);
      assert !Pending(ops, i, s);
    }
    SameColumn(k, e, ops, i, j, q);
  }

  lemma SameColumn<V, W, A>(k: Kernels<V, W, A>, e: Settings, ops: seq<Op>, i: nat, j: nat, q: nat)
    requires Flow(e, ops) && i < j < |ops| && q < |ops[i].ins| == |ops[j].ins|
    requires EndName(k, e, ops, ops[i].ins[q]) == EndName(k, e, ops, ops[j].ins[q])
    requires Settled(e, ops, i, ops[i].ins[q]) || Unwritten(ops, i, j, ops[i].ins[q])
    ensures KeyAt(k, e, ops, i).ins[q] == KeyAt(k, e, ops, j).ins[q]
    ensures KeyAt(k, e, ops, i).versions[q] == KeyAt(k, e, ops, j).versions[q]
  {
    KeyInput(k, e, ops, i, q);
    KeyInput(k, e, ops, j, q);
    var c := EndName(k, e, ops, ops[i].ins[q]);
    if Settled(e, ops, i, c) {
      SettledUnwritten(e, ops, i, j, c);
    }
    VersionStays(k, e, ops, i, j, c);
  }

  /** Both ops are looked up under one key, so both outputs end under one name. */
  lemma {:induction false} SameIsFound<V, W, A>(k: Kernels<V, W, A>, e: Settings, ops: seq<Op>, i: nat, j: nat)
    requires SettingsFor(e, ops) && Flow(e, ops) && j < |ops| && Same(k, e.keep, e.params, ops, i, j)
    ensures KeyAt(k, e, ops, i) == KeyAt(k, e, ops, j)
    ensures EndName(k, e, ops, ops[i].out) == EndName(k, e, ops, ops[j].out)
    ensures KeyAt(k, e, ops, j) in VisitAll(k, e, ops, j).table
    decreases j, 2
  {
    forall q | 0 <= q < |ops[i].ins|
      ensures KeyAt(k, e, ops, i).ins[q] == KeyAt(k, e, ops, j).ins[q]
      ensures KeyAt(k, e, ops, i).versions[q] == KeyAt(k, e, ops, j).versions[q]
    {
      SameInputs(k, e, ops, i, j, q);
    }
    SameKey(k, e, ops, i, j);
  }

  lemma SameKey<V, W, A>(k: Kernels<V, W, A>, e: Settings, ops: seq<Op>, i: nat, j: nat)
    requires SettingsFor(e, ops) && Flow(e, ops) && i < j < |ops| && KeyAt(k, e, ops, i) == KeyAt(k, e, ops, j)
    requires Sharable(k, e.keep, e.params, ops, i) && Sharable(k, e.keep, e.params, ops, j)
    ensures EndName(k, e, ops, ops[i].out) == EndName(k, e, ops, ops[j].out)
    ensures KeyAt(k, e, ops, j) in VisitAll(k, e, ops, j).table
  {
    SharableEnd(k, e, ops, i);
    SharableEnd(k, e, ops, j);
    AllLater(k, e, ops, i + 1, j);
  }

  /** The name under which the output of a sharable op ends. */
  lemma SharableEnd<V, W, A>(k: Kernels<V, W, A>, e: Settings, ops: seq<Op>, n: nat)
    requires SettingsFor(e, ops) && Flow(e, ops) && n < |ops| && Sharable(k, e.keep, e.params, ops, n)
    ensures var key, last := KeyAt(k, e, ops, n), VisitAll(k, e, ops, |ops|);
            && key in VisitAll(k, e, ops, n + 1).table && key in last.table
            && last.table[key] == VisitAll(k, e, ops, n + 1).table[key] <= n
            && EndName(k, e, ops, ops[n].out) == ops[last.table[key]].out
  {
    SharableShared(k, e, ops, n);
    AllLater(k, e, ops, n + 1, |ops|);
    SharableWrites(k, e, ops, n);
    CanonStays(k, e, ops, n + 1, |ops|, ops[n].out);
  }

  // ---------------------------------------------------------------- what becomes of a duplicate

  ghost predicate ActiveAs(e: Settings, ops: seq<Op>, n: nat, st: Pass)
    requires n <= |ops|
  {
    |st.active| == |e.writes| && forall s :: 0 <= s < |e.writes| ==> st.active[s] == Reached(ops, e.params, n, s)
  }

  lemma {:induction false} ActiveIsReached<V, W, A>(k: Kernels<V, W, A>, e: Settings, ops: seq<Op>, n: nat)
    requires Flow(e, ops) && n <= |ops| && !e.mergeActive
    ensures ActiveAs(e, ops, n, VisitAll(k, e, ops, n))
  {
    if n > 0 {
      ActiveIsReached(k, e, ops, n - 1);
      ReachedOn(k, e, ops, n - 1);
    }
  }

  lemma ReachedOn<V, W, A>(k: Kernels<V, W, A>, e: Settings, ops: seq<Op>, n: nat)
    requires Flow(e, ops) && n < |ops| && !e.mergeActive && ActiveAs(e, ops, n, VisitAll(k, e, ops, n))
    ensures ActiveAs(e, ops, n + 1, VisitAll(k, e, ops, n + 1))
  {
    EffectAt(k, e, ops, n);
    ActivityAll(k, e, ops, n);
    InputsReached(e, ops, n, VisitAll(k, e, ops, n));
    ReachedNext(e, ops, n, VisitAll(k, e, ops, n), VisitAll(k, e, ops, n + 1));
  }

  lemma ReachedNext(e: Settings, ops: seq<Op>, n: nat, st: Pass, st': Pass)
    requires n < |ops| && Effect(e, st, ops[n], st') && ActiveAs(e, ops, n, st)
    requires AnyActive(st.active, Renamed(st, ops[n]).ins) == AnyReached(ops, e.params, n, ops[n].ins)
    ensures ActiveAs(e, ops, n + 1, st')
  { }

  lemma InputsReached(e: Settings, ops: seq<Op>, n: nat, st: Pass)
    requires InRange(ops, |e.writes|) && n < |ops| && PassShape(st, |e.writes|)
    requires ActivityOk(e, ops, n, st) && ActiveAs(e, ops, n, st)
    ensures AnyActive(st.active, Renamed(st, ops[n]).ins) == AnyReached(ops, e.params, n, ops[n].ins)
  {
    assert OpInRange(ops[n], |e.writes|);
    var ins, named := ops[n].ins, Renamed(st, ops[n]).ins;
    forall q | 0 <= q < |ins| ensures named[q] < |st.active| && st.active[named[q]] == st.active[ins[q]] { }
    if q :| 0 <= q < |ins| && Reached(ops, e.params, n, ins[q]) {
      assert st.active[named[q]];
    }
  }

  /** Does the pass take op j out, rather than leave it its own adjoint? */
  predicate Merges(e: Settings, ops: seq<Op>, j: nat)
    requires j < |ops|
  {
    e.mergeActive || !AnyReached(ops, e.params, j, ops[j].ins)
  }

  lemma MergesIs<V, W, A>(k: Kernels<V, W, A>, e: Settings, ops: seq<Op>, j: nat)
    requires Flow(e, ops) && j < |ops|
    ensures var st := VisitAll(k, e, ops, j);
            AnyActive(st.active, Renamed(st, ops[j]).ins) && !e.mergeActive <==> !Merges(e, ops, j)
  {
    if !e.mergeActive {
      ActiveIsReached(k, e, ops, j);
      ActivityAll(k, e, ops, j);
      InputsReached(e, ops, j, VisitAll(k, e, ops, j));
    }
  }

  /** How a sharable op ends: sv is the first op that computes the same. */
  ghost predicate Ended<V, W, A>(k: Kernels<V, W, A>, e: Settings, ops: seq<Op>, n: nat, at: nat, last: Pass)
    requires InRange(ops, |e.writes|) && |last.ops| == |ops| && at <= n < |ops|
  {
    var sv, out := ops[at].out, ops[n].out;
    && last.ops[at].Some?
    && (at == n ==> Through(last.rename, out) == out)
    && (at < n && Merges(e, ops, n) ==> last.ops[n].None? && Through(last.rename, out) == sv)
    && (at < n && !Merges(e, ops, n) ==>
          && last.ops[n].Some? && last.ops[n].value.primal == Some(sv) && last.ops[at].value.primal == Some(sv)
          && Through(last.primal, out) == sv)
  }

  lemma EndsAsShared<V, W, A>(k: Kernels<V, W, A>, e: Settings, ops: seq<Op>, n: nat, st: Pass, st': Pass, last: Pass)
    requires InRange(ops, |e.writes|) && n < |ops| && |st.ops| == n && |st'.ops| == n + 1
    requires Shared(k, e, ops, n, st, st') && Later(e, ops, n + 1, |ops|, st', last)
    requires AnyActive(st.active, Renamed(st, ops[n]).ins) && !e.mergeActive <==> !Merges(e, ops, n)
    requires FirstWrite(ops, ops[n].out) == n
    ensures var key := KeyAt(k, e, ops, n);
            key in last.table && last.table[key] <= n && Ended(k, e, ops, n, last.table[key], last)
  {
    assert NameStays(ops, n + 1, st', last, ops[n].out);
    assert OpStays(st'.ops[n], last.ops[n]);
    var at := st'.table[KeyAt(k, e, ops, n)];
    assert OpStays(st'.ops[at], last.ops[at]);
  }

  lemma HowItEnds<V, W, A>(k: Kernels<V, W, A>, e: Settings, ops: seq<Op>, n: nat)
    requires SettingsFor(e, ops) && Flow(e, ops) && n < |ops| && Sharable(k, e.keep, e.params, ops, n)
    ensures var key, last := KeyAt(k, e, ops, n), VisitAll(k, e, ops, |ops|);
            key in last.table && last.table[key] <= n && Ended(k, e, ops, n, last.table[key], last)
  {
    SharableShared(k, e, ops, n);
    SharableWrites(k, e, ops, n);
    MergesIs(k, e, ops, n);
    AllLater(k, e, ops, n + 1, |ops|);
    EndsAsShared(k, e, ops, n, VisitAll(k, e, ops, n), VisitAll(k, e, ops, n + 1), VisitAll(k, e, ops, |ops|));
  }

  lemma {:induction false} KeptHas(ops: seq<Option<Op>>, o: Op)
    ensures o in Kept(ops) <==> Some(o) in ops
  {
    if ops != [] {
      KeptHas(ops[..|ops| - 1], o);
    }
  }

  /** There is one op with this output, and its forward value is that of slot p. */
  ghost predicate TakesFrom(kept: seq<Op>, out: nat, p: nat) {
    (exists o :: o in kept && o.out == out) && forall o :: o in kept && o.out == out ==> o.primal == Some(p)
  }

  lemma OneOpWrites<V, W, A>(k: Kernels<V, W, A>, e: Settings, ops: seq<Op>, n: nat)
    requires SettingsFor(e, ops) && Flow(e, ops) && n < |ops| && Sharable(k, e.keep, e.params, ops, n)
    ensures var last := VisitAll(k, e, ops, |ops|);
            forall o :: o in Kept(last.ops) && o.out == ops[n].out <==> Some(o) == last.ops[n]
  {
    var last := VisitAll(k, e, ops, |ops|);
    PassInvAll(k, e, ops, |ops|);
    forall o: Op ensures o in Kept(last.ops) && o.out == ops[n].out <==> Some(o) == last.ops[n] {
      KeptHas(last.ops, o);
      if o in Kept(last.ops) && o.out == ops[n].out {
        var m :| 0 <= m < |ops| && last.ops[m] == Some(o);
        assert WritesTo(ops[m], ops[n].out);
      }
      assert Some(o) == last.ops[n] ==> Some(o) in last.ops;
    }
  }

  /** Both ops meet one survivor, the second one not itself. */
  lemma OneSurvivor<V, W, A>(k: Kernels<V, W, A>, e: Settings, ops: seq<Op>, i: nat, j: nat) returns (at: nat)
    requires SettingsFor(e, ops) && Flow(e, ops) && j < |ops| && Same(k, e.keep, e.params, ops, i, j)
    ensures var last := VisitAll(k, e, ops, |ops|);
            && at <= i < j && Ended(k, e, ops, i, at, last) && Ended(k, e, ops, j, at, last)
            && Sharable(k, e.keep, e.params, ops, at)
  {
    SameIsFound(k, e, ops, i, j);
    HowItEnds(k, e, ops, i);
    HowItEnds(k, e, ops, j);
    AllTableFrom(k, e, ops, |ops|);
    var last := VisitAll(k, e, ops, |ops|);
    var key := KeyAt(k, e, ops, i);
    assert EntryFrom(k, e, ops, last, key);
    at := last.table[key];
  }

  /** Whichever survivor op j meets, op i has met the same, and was treated alike. */
  lemma SameFate<V, W, A>(k: Kernels<V, W, A>, e: Settings, ops: seq<Op>, i: nat, j: nat, at: nat, last: Pass)
    requires InRange(ops, |e.writes|) && at < i < j < |ops| == |last.ops| && PassInv(e, ops, |ops|, last)
    requires Ended(k, e, ops, i, at, last) && Ended(k, e, ops, j, at, last)
    requires ops[at].out !in {ops[i].out, ops[j].out} && (!e.mergeActive ==> ActivityOk(e, ops, |ops|, last))
    ensures Merges(e, ops, i) == Merges(e, ops, j)
  {
    assert OpInRange(ops[i], |e.writes|) && OpInRange(ops[j], |e.writes|);
  }

  /** The outputs of two ops that compute the same get one name and the second op goes, unless parameters
      reach its inputs and merging is off: then both take their value from one slot. */
  lemma DuplicatesGo<V, W, A>(k: Kernels<V, W, A>, e: Settings, ops: seq<Op>, i: nat, j: nat)
    requires SettingsFor(e, ops) && j < |ops| && Same(k, e.keep, e.params, ops, i, j)
    ensures var last := VisitAll(k, e, ops, |ops|);
            var kept := Kept(last.ops);
            var reached := AnyReached(ops, e.params, j, ops[j].ins);
            && (e.mergeActive || !reached ==>
                  && Through(last.rename, ops[i].out) == Through(last.rename, ops[j].out)
                  && forall o :: o in kept ==> o.out != ops[j].out)
            && (reached && !e.mergeActive ==>
                  exists h :: 0 <= h <= i && TakesFrom(kept, ops[h].out, ops[h].out)
                              && TakesFrom(kept, ops[i].out, ops[h].out) && TakesFrom(kept, ops[j].out, ops[h].out))
  {
    SettingsFlow(e, ops);
    var at := OneSurvivor(k, e, ops, i, j);
    var last := VisitAll(k, e, ops, |ops|);
    PassInvAll(k, e, ops, |ops|);
    if !e.mergeActive {
      ActivityAll(k, e, ops, |ops|);
    }
    SharableWrites(k, e, ops, at);
    SharableWrites(k, e, ops, i);
    SharableWrites(k, e, ops, j);
    if at < i {
      SameFate(k, e, ops, i, j, at, last);
    }
    OneOpWrites(k, e, ops, at);
    OneOpWrites(k, e, ops, i);
    OneOpWrites(k, e, ops, j);
    EndTogether(k, e, ops, i, j, at, last);
  }

  lemma EndTogether<V, W, A>(k: Kernels<V, W, A>, e: Settings, ops: seq<Op>, i: nat, j: nat, at: nat, last: Pass)
    requires InRange(ops, |e.writes|) && at <= i < j < |ops| == |last.ops|
    requires Ended(k, e, ops, i, at, last) && Ended(k, e, ops, j, at, last)
    requires at < i ==> Merges(e, ops, i) == Merges(e, ops, j)
    requires forall n | n in {at, i, j} ::
      forall o :: o in Kept(last.ops) && o.out == ops[n].out <==> Some(o) == last.ops[n]
    ensures Merges(e, ops, j) ==>
      && Through(last.rename, ops[i].out) == Through(last.rename, ops[j].out)
      && forall o :: o in Kept(last.ops) ==> o.out != ops[j].out
    ensures !Merges(e, ops, j) ==>
      forall n :: n in {at, i, j} ==> TakesFrom(Kept(last.ops), ops[n].out, ops[at].out)
  { }

  // ---------------------------------------------------------------- nothing else goes

  /** Op n is looked up and found. */
  ghost predicate Found<V, W, A>(k: Kernels<V, W, A>, e: Settings, ops: seq<Op>, n: nat, at: nat)
    requires InRange(ops, |e.writes|) && n < |ops|
  {
    && Sharable(k, e.keep, e.params, ops, n)
    && KeyAt(k, e, ops, n) in VisitAll(k, e, ops, n).table && VisitAll(k, e, ops, n).table[KeyAt(k, e, ops, n)] == at
  }

  /** A visit that renames or shares anything, or drops its op, has found it. */
  lemma ChangeMeansFound<V, W, A>(k: Kernels<V, W, A>, e: Settings, ops: seq<Op>, n: nat, t: nat)
    requires SettingsFor(e, ops) && Flow(e, ops) && n < |ops|
    requires var st, st' := VisitAll(k, e, ops, n), VisitAll(k, e, ops, n + 1);
             || (t !in st.rename && t !in st.primal && Canon(st', t) != t) || st'.ops[n].None?
             || (st'.ops[n].Some? && st'.ops[n].value.primal.Some?)
    ensures KeyAt(k, e, ops, n) in VisitAll(k, e, ops, n).table
    ensures Found(k, e, ops, n, VisitAll(k, e, ops, n).table[KeyAt(k, e, ops, n)])
    ensures var st, st' := VisitAll(k, e, ops, n), VisitAll(k, e, ops, n + 1);
            t !in st.rename && t !in st.primal && Canon(st', t) != t ==> t == ops[n].out
  {
    var st := VisitAll(k, e, ops, n);
    PassInvAll(k, e, ops, n);
    CandidateIffSharable(k, e, ops, n, st);
    ResolvedIns(e, ops, n, st);
    assert KeyOf(st, Renamed(st, ops[n])) == KeyAt(k, e, ops, n);
  }

  /** What an op that was found is known as. */
  lemma FoundName<V, W, A>(k: Kernels<V, W, A>, e: Settings, ops: seq<Op>, l: nat, at: nat)
    requires SettingsFor(e, ops) && Flow(e, ops) && l < |ops| && Found(k, e, ops, l, at)
    ensures at < l && Sharable(k, e.keep, e.params, ops, at) && KeyAt(k, e, ops, at) == KeyAt(k, e, ops, l)
    ensures Canon(VisitAll(k, e, ops, l + 1), ops[l].out) == ops[at].out
  {
    AllTableFrom(k, e, ops, l);
    assert EntryFrom(k, e, ops, VisitAll(k, e, ops, l), KeyAt(k, e, ops, l));
    SharableShared(k, e, ops, l);
    NextIsLater(k, e, ops, l);
  }

  /** A slot known under another name got it when it was written. */
  lemma NamedWhenWritten<V, W, A>(k: Kernels<V, W, A>, e: Settings, ops: seq<Op>, n: nat, t: nat) returns (l: nat)
    requires Flow(e, ops) && n <= |ops| && t < |e.writes| && !Pending(ops, n, t)
    requires Canon(VisitAll(k, e, ops, n), t) != t
    ensures l < n && t !in VisitAll(k, e, ops, l).rename && t !in VisitAll(k, e, ops, l).primal
    ensures Canon(VisitAll(k, e, ops, l + 1), t) == Canon(VisitAll(k, e, ops, n), t)
  {
    CanonStays(k, e, ops, n, n, t);
    l := FirstWrite(ops, t);
    CanonStays(k, e, ops, l + 1, n, t);
    PassInvAll(k, e, ops, l);
  }

  /** A slot known under another name was written by an op that was found. */
  lemma OtherName<V, W, A>(k: Kernels<V, W, A>, e: Settings, ops: seq<Op>, n: nat, t: nat) returns (l: nat, at: nat)
    requires SettingsFor(e, ops) && Flow(e, ops) && n <= |ops| && t < |e.writes| && !Pending(ops, n, t)
    requires Canon(VisitAll(k, e, ops, n), t) != t
    ensures l < n && t == ops[l].out && Found(k, e, ops, l, at)
    ensures at < l && Sharable(k, e.keep, e.params, ops, at) && Canon(VisitAll(k, e, ops, n), t) == ops[at].out
  {
    l := NamedWhenWritten(k, e, ops, n, t);
    ChangeMeansFound(k, e, ops, l, t);
    at := VisitAll(k, e, ops, l).table[KeyAt(k, e, ops, l)];
    FoundName(k, e, ops, l, at);
  }

  /** What is found under one key computes the same. */
  lemma {:induction false} FoundIsSame<V, W, A>(k: Kernels<V, W, A>, e: Settings, ops: seq<Op>, n: nat, at: nat)
    requires SettingsFor(e, ops) && Flow(e, ops) && n < |ops| && Found(k, e, ops, n, at)
    ensures Same(k, e.keep, e.params, ops, at, n)
    decreases n, 1
  {
    FoundName(k, e, ops, n, at);
    assert |KeyAt(k, e, ops, n).ins| == |ops[n].ins| == |ops[at].ins|;
    forall q | 0 <= q < |ops[at].ins|
      ensures SameInput(k, e.keep, e.params, ops, at, n, ops[at].ins[q], ops[n].ins[q])
    {
      FoundInput(k, e, ops, n, at, q);
    }
  }

  lemma {:induction false} FoundInput<V, W, A>(k: Kernels<V, W, A>, e: Settings, ops: seq<Op>, n: nat, at: nat, q: nat)
    requires SettingsFor(e, ops) && Flow(e, ops) && at < n < |ops| && q < |ops[at].ins| == |ops[n].ins|
    requires KeyAt(k, e, ops, n) == KeyAt(k, e, ops, at)
    ensures SameInput(k, e.keep, e.params, ops, at, n, ops[at].ins[q], ops[n].ins[q])
    decreases n, 0, 2
  {
    var s, t := ops[at].ins[q], ops[n].ins[q];
    if s == t {
      OneSlot(k, e, ops, n, at, q);
    } else {
      KeyInput(k, e, ops, at, q);
      KeyInput(k, e, ops, n, q);
      assert OpInRange(ops[at], |e.writes|) && OpInRange(ops[n], |e.writes|);
      assert !Pending(ops, at, s) && !Pending(ops, n, t);
      var h := TwoSlots(k, e, ops, n, s, t);
    }
  }

  lemma {:induction false} TwoSlots<V, W, A>(k: Kernels<V, W, A>, e: Settings, ops: seq<Op>, n: nat, s: nat, t: nat)
    returns (h: nat)
    requires SettingsFor(e, ops) && Flow(e, ops) && n < |ops| && s < |e.writes| && t < |e.writes| && s != t
    requires !Pending(ops, n, s) && !Pending(ops, n, t) && EndName(k, e, ops, s) == EndName(k, e, ops, t)
    ensures Holds(k, e.keep, e.params, ops, n, h, s) && Holds(k, e.keep, e.params, ops, n, h, t)
    decreases n, 0, 1
  {
    var c := EndName(k, e, ops, s);
    if t == c {
      h := NamedAfter(k, e, ops, n, s, c);
    } else {
      h := NamedAfter(k, e, ops, n, t, c);
      if s != c {
        var h' := NamedAfter(k, e, ops, n, s, c);
      }
    }
  }

  lemma OneSlot<V, W, A>(k: Kernels<V, W, A>, e: Settings, ops: seq<Op>, n: nat, at: nat, q: nat)
    requires Flow(e, ops) && at < n < |ops| && q < |ops[at].ins| == |ops[n].ins| && ops[at].ins[q] == ops[n].ins[q]
    requires KeyAt(k, e, ops, n) == KeyAt(k, e, ops, at)
    ensures Unwritten(ops, at, n, ops[n].ins[q])
  {
    KeyInput(k, e, ops, at, q);
    KeyInput(k, e, ops, n, q);
    var s, c := ops[n].ins[q], KeyAt(k, e, ops, n).ins[q];
    if c == s {
      VersionStays(k, e, ops, at, n, c);
    } else {
      SettledUnwritten(e, ops, at, n, s);
    }
  }

  lemma {:induction false} NamedAfter<V, W, A>(k: Kernels<V, W, A>, e: Settings, ops: seq<Op>, n: nat, t: nat, c: nat)
    returns (h: nat)
    requires SettingsFor(e, ops) && Flow(e, ops) && n < |ops| && t < |e.writes| && !Pending(ops, n, t)
    requires c == EndName(k, e, ops, t) != t
    ensures Holds(k, e.keep, e.params, ops, n, h, t) && c == ops[h].out && h == FirstWrite(ops, c)
    decreases n, 0, 0
  {
    CanonStays(k, e, ops, n, |ops|, t);
    var l, at := OtherName(k, e, ops, n, t);
    FoundIsSame(k, e, ops, l, at);
    SharableWrites(k, e, ops, at);
    h := at;
  }

  /** An op goes exactly when an earlier one computes the same and either no parameter reaches its inputs
      or merging is on. */
  lemma GoneIffSame<V, W, A>(k: Kernels<V, W, A>, e: Settings, ops: seq<Op>, j: nat)
    requires SettingsFor(e, ops) && j < |ops|
    ensures VisitAll(k, e, ops, |ops|).ops[j].None? <==>
            && (e.mergeActive || !AnyReached(ops, e.params, j, ops[j].ins))
            && HasEarlier(k, e.keep, e.params, ops, j)
  {
    SettingsFlow(e, ops);
    if HasEarlier(k, e.keep, e.params, ops, j) {
      var i: nat :| Same(k, e.keep, e.params, ops, i, j);
      SameGoes(k, e, ops, i, j);
    } else if VisitAll(k, e, ops, |ops|).ops[j].None? {
      var i := GoneIsFound(k, e, ops, j);
    }
  }

  lemma SameGoes<V, W, A>(k: Kernels<V, W, A>, e: Settings, ops: seq<Op>, i: nat, j: nat)
    requires SettingsFor(e, ops) && Flow(e, ops) && j < |ops| && Same(k, e.keep, e.params, ops, i, j)
    ensures VisitAll(k, e, ops, |ops|).ops[j].None? <==> e.mergeActive || !AnyReached(ops, e.params, j, ops[j].ins)
  {
    var at := OneSurvivor(k, e, ops, i, j);
  }

  lemma GoneIsFound<V, W, A>(k: Kernels<V, W, A>, e: Settings, ops: seq<Op>, j: nat) returns (i: nat)
    requires SettingsFor(e, ops) && Flow(e, ops) && j < |ops| && VisitAll(k, e, ops, |ops|).ops[j].None?
    ensures Same(k, e.keep, e.params, ops, i, j)
  {
    AllLater(k, e, ops, j + 1, |ops|);
    assert OpStays(VisitAll(k, e, ops, j + 1).ops[j], VisitAll(k, e, ops, |ops|).ops[j]);
    ChangeMeansFound(k, e, ops, j, 0);
    i := VisitAll(k, e, ops, j).table[KeyAt(k, e, ops, j)];
    FoundIsSame(k, e, ops, j, i);
  }

  ghost predicate Marked<V, W, A>(k: Kernels<V, W, A>, e: Settings, ops: seq<Op>, n: nat, j: nat)
    requires InRange(ops, |e.writes|) && j < n <= |ops|
  {
    (exists at :: Found(k, e, ops, j, at)) || exists l :: j < l < n && Found(k, e, ops, l, j)
  }

  lemma NewlyMarked<V, W, A>(k: Kernels<V, W, A>, e: Settings, ops: seq<Op>, n: nat, st: Pass, j: nat)
    requires Flow(e, ops) && j < n < |ops| && PassInv(e, ops, n, st)
    requires st.ops[j].Some? && st.ops[j].value.primal.None?
    requires var o := Visit(k, e, st, ops[n]).ops[j]; o.Some? && o.value.primal.Some?
    ensures Candidate(k, e, Renamed(st, ops[n]))
    ensures forall q :: 0 <= q < |ops[n].ins| ==> Through(st.primal, Renamed(st, ops[n]).ins[q]) < |st.version|
    ensures KeyOf(st, Renamed(st, ops[n])) in st.table && st.table[KeyOf(st, Renamed(st, ops[n]))] == j
  {
    ResolvedIns(e, ops, n, st);
  }

  lemma MarkedNow<V, W, A>(k: Kernels<V, W, A>, e: Settings, ops: seq<Op>, n: nat, j: nat)
    requires SettingsFor(e, ops) && Flow(e, ops) && j < n < |ops|
    requires var o, o' := VisitAll(k, e, ops, n).ops[j], VisitAll(k, e, ops, n + 1).ops[j];
             o.Some? && o.value.primal.None? && o'.Some? && o'.value.primal.Some?
    ensures Found(k, e, ops, n, j)
  {
    var st := VisitAll(k, e, ops, n);
    PassInvAll(k, e, ops, n);
    NewlyMarked(k, e, ops, n, st, j);
    CandidateIffSharable(k, e, ops, n, st);
    assert KeyOf(st, Renamed(st, ops[n])) == KeyAt(k, e, ops, n);
  }

  lemma StaysSome<V, W, A>(k: Kernels<V, W, A>, e: Settings, ops: seq<Op>, n: nat, j: nat)
    requires Flow(e, ops) && j < n < |ops|
    ensures OpStays(VisitAll(k, e, ops, n).ops[j], VisitAll(k, e, ops, n + 1).ops[j])
  {
    NextIsLater(k, e, ops, n);
  }

  lemma {:induction false} MarkedMeansFound<V, W, A>(k: Kernels<V, W, A>, e: Settings, ops: seq<Op>, n: nat, j: nat)
    requires SettingsFor(e, ops) && Flow(e, ops) && j < n <= |ops|
    requires VisitAll(k, e, ops, n).ops[j].Some? && VisitAll(k, e, ops, n).ops[j].value.primal.Some?
    ensures Marked(k, e, ops, n, j)
  {
    if n == j + 1 {
      ChangeMeansFound(k, e, ops, j, 0);
    } else {
      StaysSome(k, e, ops, n - 1, j);
      if VisitAll(k, e, ops, n - 1).ops[j].value.primal.Some? {
        MarkedMeansFound(k, e, ops, n - 1, j);
      } else {
        MarkedNow(k, e, ops, n - 1, j);
      }
    }
  }

  /** A kept op takes its value from a slot, or lends its own, only if it has a duplicate. */
  lemma SharedOnlyIfSame<V, W, A>(k: Kernels<V, W, A>, e: Settings, ops: seq<Op>, j: nat)
    requires SettingsFor(e, ops) && j < |ops|
    requires var o := VisitAll(k, e, ops, |ops|).ops[j]; o.Some? && o.value.primal.Some?
    ensures exists i: nat :: i < |ops| && (Same(k, e.keep, e.params, ops, i, j) || Same(k, e.keep, e.params, ops, j, i))
  {
    SettingsFlow(e, ops);
    MarkedMeansFound(k, e, ops, |ops|, j);
    if at :| Found(k, e, ops, j, at) {
      FoundIsSame(k, e, ops, j, at);
    } else {
      var l :| j < l < |ops| && Found(k, e, ops, l, j);
      FoundIsSame(k, e, ops, l, j);
    }
  }
}
