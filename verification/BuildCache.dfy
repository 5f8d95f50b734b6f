/** The content-addressed build cache: entries are built aside and renamed into place.

    Any number of writers and readers interleave one file-system call at a time, and each may stop for
    good after any of them.
*/
module BuildCache {
  type Key = nat
  type Name = string

  datatype Meta = Meta(files: set<Name>, run: nat)
  datatype MetaFile = Missing | Torn | Whole(meta: Meta)
  datatype Dir = Dir(files: map<Name, nat>, meta: MetaFile)

  /** Where a writer is between `scratch` and the return of `commit` or `discard`. */
  datatype WriterPc =
    | Idle
    | Building(dir: nat)
    | Describing(dir: nat)
    | Described(dir: nat, meta: Meta)
    | RenameFailed(dir: nat)
    | Discarding(dir: nat, lost: bool)
    | Won(meta: Meta)
    | Lost
    | Aborted

  datatype ReaderPc = Asked | Checking(meta: Meta, left: set<Name>) | Hit(meta: Meta) | Miss

  datatype Writer = Writer(key: Key, pc: WriterPc)
  datatype Reader = Reader(key: Key, pc: ReaderPc)

  datatype Disk = Disk(entries: map<Key, Dir>, scratch: map<nat, Dir>)
  datatype State = State(disk: Disk, writers: seq<Writer>, readers: seq<Reader>)

  datatype Action =
    | Open(w: nat, dir: nat)
    | Put(w: nat, name: Name, content: nat)
    | Unlink(w: nat, name: Name)
    | BeginMeta(w: nat)
    | EndMeta(w: nat, meta: Meta)
    | Rename(w: nat)
    | RenameError(w: nat)
    | CheckExists(w: nat)
    | GiveUp(w: nat)
    | RemoveFile(w: nat, name: Name)
    | RemoveMeta(w: nat)
    | RemoveDir(w: nat)
    | ReadMeta(r: nat)
    | CheckFile(r: nat, name: Name)
    | AllThere(r: nat)

  predicate IsEmpty(d: Dir) {
    d == Dir(map[], Missing)
  }

  predicate Complete(d: Dir) {
    d.meta.Whole? && d.meta.meta.files <= d.files.Keys
  }

  /** Rename replaces nothing but an empty directory. */
  predicate Free(entries: map<Key, Dir>, key: Key) {
    key !in entries || IsEmpty(entries[key])
  }

  function DirOf(pc: WriterPc): set<nat> {
    match pc
    case Building(d) => {d}
    case Describing(d) => {d}
    case Described(d, _) => {d}
    case RenameFailed(d) => {d}
    case Discarding(d, _) => {d}
    case _ => {}
  }

  // ---------------------------------------------------------------- one writer's call

  predicate WriterAct(a: Action) {
    !a.ReadMeta? && !a.CheckFile? && !a.AllThere?
  }

  predicate WriterEnabled(disk: Disk, me: Writer, a: Action) {
    && WriterAct(a)
    && DirOf(me.pc) <= disk.scratch.Keys
    && match a
       case Open(_, dir) => me.pc.Idle? && dir !in disk.scratch
       case Put(_, _, _) => me.pc.Building?
       case Unlink(_, name) => me.pc.Building? && name in disk.scratch[me.pc.dir].files
       case BeginMeta(_) => me.pc.Building?
       case EndMeta(_, meta) => me.pc.Describing? && meta.files <= disk.scratch[me.pc.dir].files.Keys
       case Rename(_) => me.pc.Described?
       case RenameError(_) => me.pc.Described?
       case CheckExists(_) => me.pc.RenameFailed?
       case GiveUp(_) => me.pc.Building? || me.pc.Describing? || me.pc.Described?
       case RemoveFile(_, name) => me.pc.Discarding? && name in disk.scratch[me.pc.dir].files
       case RemoveMeta(_) => me.pc.Discarding?
       case RemoveDir(_) => me.pc.Discarding? && IsEmpty(disk.scratch[me.pc.dir])
       case _ => false
  }

  function Edit(disk: Disk, d: nat, dir: Dir): Disk {
    disk.(scratch := disk.scratch[d := dir])
  }

  function WriterStep(disk: Disk, me: Writer, a: Action): (Disk, WriterPc)
    requires WriterEnabled(disk, me, a)
  {
    match a
    case Open(_, dir) => (Edit(disk, dir, Dir(map[], Missing)), Building(dir))
    case Put(_, name, content) =>
      var was := disk.scratch[me.pc.dir];
      (Edit(disk, me.pc.dir, was.(files := was.files[name := content])), me.pc)
    case Unlink(_, name) =>
      var was := disk.scratch[me.pc.dir];
      (Edit(disk, me.pc.dir, was.(files := was.files - {name})), me.pc)
    case BeginMeta(_) => (Edit(disk, me.pc.dir, disk.scratch[me.pc.dir].(meta := Torn)), Describing(me.pc.dir))
    case EndMeta(_, meta) =>
      (Edit(disk, me.pc.dir, disk.scratch[me.pc.dir].(meta := Whole(meta))), Described(me.pc.dir, meta))
    case Rename(_) =>
      if Free(disk.entries, me.key) then
        (Disk(disk.entries[me.key := disk.scratch[me.pc.dir]], disk.scratch - {me.pc.dir}), Won(me.pc.meta))
      else (disk, RenameFailed(me.pc.dir))
    case RenameError(_) => (disk, RenameFailed(me.pc.dir))
    case CheckExists(_) => (disk, Discarding(me.pc.dir, me.key in disk.entries))
    case GiveUp(_) => (disk, Discarding(me.pc.dir, false))
    case RemoveFile(_, name) =>
      var was := disk.scratch[me.pc.dir];
      (Edit(disk, me.pc.dir, was.(files := was.files - {name})), me.pc)
    case RemoveMeta(_) => (Edit(disk, me.pc.dir, disk.scratch[me.pc.dir].(meta := Missing)), me.pc)
    case RemoveDir(_) => (disk.(scratch := disk.scratch - {me.pc.dir}), if me.pc.lost then Lost else Aborted)
  }

  // ---------------------------------------------------------------- one reader's call

  predicate ReaderEnabled(me: Reader, a: Action) {
    match a
    case ReadMeta(_) => me.pc.Asked?
    case CheckFile(_, name) => me.pc.Checking? && name in me.pc.left
    case AllThere(_) => me.pc.Checking? && me.pc.left == {}
    case _ => false
  }

  function ReaderStep(disk: Disk, me: Reader, a: Action): ReaderPc
    requires ReaderEnabled(me, a)
  {
    match a
    case ReadMeta(_) =>
      if me.key in disk.entries && disk.entries[me.key].meta.Whole? then
        var meta := disk.entries[me.key].meta.meta;
        Checking(meta, meta.files)
      else Miss
    case CheckFile(_, name) =>
      if me.key in disk.entries && name in disk.entries[me.key].files then me.pc.(left := me.pc.left - {name}) else Miss
    case AllThere(_) => Hit(me.pc.meta)
  }

  // ---------------------------------------------------------------- the system

  predicate Enabled(s: State, a: Action) {
    if WriterAct(a) then a.w < |s.writers| && WriterEnabled(s.disk, s.writers[a.w], a)
    else a.r < |s.readers| && ReaderEnabled(s.readers[a.r], a)
  }

  function Step(s: State, a: Action): State
    requires Enabled(s, a)
  {
    if WriterAct(a) then
      var next := WriterStep(s.disk, s.writers[a.w], a);
      State(next.0, s.writers[a.w := s.writers[a.w].(pc := next.1)], s.readers)
    else
      s.(readers := s.readers[a.r := s.readers[a.r].(pc := ReaderStep(s.disk, s.readers[a.r], a))])
  }

  /** Every state the processes can go through, in order. */
  ghost predicate IsRun(run: seq<State>, actions: seq<Action>) {
    |run| == |actions| + 1 && forall i :: 0 <= i < |actions| ==> Follows(run, actions, i)
  }

  ghost predicate Follows(run: seq<State>, actions: seq<Action>, i: nat)
    requires i < |actions| && |run| == |actions| + 1
  {
    Enabled(run[i], actions[i]) && run[i + 1] == Step(run[i], actions[i])
  }

  ghost predicate Initial(s: State) {
    && (forall w :: 0 <= w < |s.writers| ==> s.writers[w].pc.Idle?)
    && (forall r :: 0 <= r < |s.readers| ==> s.readers[r].pc.Asked?)
  }

  /** Entries that someone damaged before the run; a crash-free cache has none. */
  ghost predicate Damaged(s0: State, key: Key) {
    key in s0.disk.entries && !Complete(s0.disk.entries[key])
  }

  // ---------------------------------------------------------------- invariant

  ghost predicate Kept(before: map<Key, Dir>, after: map<Key, Dir>) {
    forall key :: key in before && !IsEmpty(before[key]) ==> key in after && after[key] == before[key]
  }

  ghost predicate WriterOk(disk: Disk, me: Writer) {
    && DirOf(me.pc) <= disk.scratch.Keys
    && (me.pc.Described? ==> Complete(disk.scratch[me.pc.dir]) && disk.scratch[me.pc.dir].meta == Whole(me.pc.meta))
    && (me.pc.Won? ==>
          me.key in disk.entries && Complete(disk.entries[me.key]) && disk.entries[me.key].meta == Whole(me.pc.meta))
    && (me.pc.Lost? || (me.pc.Discarding? && me.pc.lost) ==> me.key in disk.entries)
  }

  ghost predicate ReaderOk(disk: Disk, me: Reader) {
    match me.pc
    case Checking(meta, left) =>
      && me.key in disk.entries && disk.entries[me.key].meta == Whole(meta)
      && left <= meta.files && meta.files - left <= disk.entries[me.key].files.Keys
    case Hit(meta) =>
      me.key in disk.entries && disk.entries[me.key].meta == Whole(meta) && Complete(disk.entries[me.key])
    case _ => true
  }

  ghost predicate Apart(writers: seq<Writer>) {
    forall v, w :: 0 <= v < w < |writers| ==>
      DirOf(writers[v].pc) !! DirOf(writers[w].pc)
      && (writers[v].pc.Won? && writers[w].pc.Won? ==> writers[v].key != writers[w].key)
  }

  ghost predicate Owned(leftover: set<nat>, disk: Disk, writers: seq<Writer>) {
    forall d :: d in disk.scratch && d !in leftover ==> exists w :: 0 <= w < |writers| && d in DirOf(writers[w].pc)
  }

  ghost predicate EntriesOk(s0: State, entries: map<Key, Dir>) {
    && Kept(s0.disk.entries, entries)
    && forall key :: key in entries && !Damaged(s0, key) ==> Complete(entries[key])
  }

  ghost predicate Inv(s0: State, s: State) {
    && EntriesOk(s0, s.disk.entries)
    && (forall w :: 0 <= w < |s.writers| ==> WriterOk(s.disk, s.writers[w]))
    && (forall w :: 0 <= w < |s.writers| && s.writers[w].pc.Won? ==> Free(s0.disk.entries, s.writers[w].key))
    && (forall r :: 0 <= r < |s.readers| ==> ReaderOk(s.disk, s.readers[r]))
    && Apart(s.writers)
    && Owned(s0.disk.scratch.Keys, s.disk, s.writers)
  }

  // ---------------------------------------------------------------- what one writer step does

  /** A step touches its own scratch directory and at most fills a free entry with a complete one. */
  ghost predicate Local(disk: Disk, disk': Disk, me: Writer, pc': WriterPc) {
    && (forall d :: d in disk.scratch && d !in DirOf(me.pc) ==>
          d in disk'.scratch && disk'.scratch[d] == disk.scratch[d])
    && (forall d :: d in disk'.scratch ==> d in disk.scratch || d in DirOf(pc'))
    && (forall d :: d in DirOf(me.pc) && d in disk'.scratch ==> d in DirOf(pc'))
    && (forall d :: d in DirOf(pc') ==> d in DirOf(me.pc) || d !in disk.scratch)
    && (disk'.entries == disk.entries
        || (pc'.Won? && Free(disk.entries, me.key) && me.key in disk'.entries
            && disk'.entries == disk.entries[me.key := disk'.entries[me.key]] && Complete(disk'.entries[me.key])))
  }

  lemma WriterStepIsLocal(disk: Disk, me: Writer, a: Action)
    requires WriterEnabled(disk, me, a) && WriterOk(disk, me)
    ensures var (disk', pc') := WriterStep(disk, me, a);
            && Local(disk, disk', me, pc') && WriterOk(disk', me.(pc := pc'))
            && (pc'.Won? ==> Free(disk.entries, me.key))
  { }

  lemma OthersKeep(disk: Disk, disk': Disk, me: Writer, pc': WriterPc, other: Writer)
    requires Local(disk, disk', me, pc') && WriterOk(disk, other) && DirOf(me.pc) !! DirOf(other.pc)
    ensures WriterOk(disk', other) && DirOf(pc') !! DirOf(other.pc)
    ensures pc'.Won? && Free(disk.entries, me.key) && other.pc.Won? ==> other.key != me.key
  { }

  lemma EntriesStay(s0: State, disk: Disk, disk': Disk, me: Writer, pc': WriterPc)
    requires EntriesOk(s0, disk.entries) && Local(disk, disk', me, pc')
    ensures EntriesOk(s0, disk'.entries) && Kept(disk.entries, disk'.entries)
  { }

  lemma ReaderStays(disk: Disk, disk': Disk, me: Reader)
    requires Kept(disk.entries, disk'.entries) && ReaderOk(disk, me)
    ensures ReaderOk(disk', me)
  { }

  lemma WritersStay(s0: State, s: State, a: Action)
    requires Inv(s0, s) && WriterAct(a) && Enabled(s, a)
    ensures var s' := Step(s, a);
            && (forall w :: 0 <= w < |s'.writers| ==> WriterOk(s'.disk, s'.writers[w]))
            && (forall w :: 0 <= w < |s'.writers| && s'.writers[w].pc.Won? ==> Free(s0.disk.entries, s'.writers[w].key))
            && Apart(s'.writers)
  {
    var me := s.writers[a.w];
    var (disk', pc') := WriterStep(s.disk, me, a);
    WriterStepIsLocal(s.disk, me, a);
    forall v | 0 <= v < |s.writers| && v != a.w
      ensures WriterOk(disk', s.writers[v]) && DirOf(pc') !! DirOf(s.writers[v].pc)
      ensures pc'.Won? && s.writers[v].pc.Won? ==> s.writers[v].key != me.key
    {
      assert DirOf(me.pc) !! DirOf(s.writers[v].pc);
      OthersKeep(s.disk, disk', me, pc', s.writers[v]);
    }
  }

  lemma WriterKeepsInv(s0: State, s: State, a: Action)
    requires Inv(s0, s) && WriterAct(a) && Enabled(s, a)
    ensures Inv(s0, Step(s, a)) && Kept(s.disk.entries, Step(s, a).disk.entries)
  {
    var me := s.writers[a.w];
    var (disk', pc') := WriterStep(s.disk, me, a);
    WriterStepIsLocal(s.disk, me, a);
    EntriesStay(s0, s.disk, disk', me, pc');
    WritersStay(s0, s, a);
    StillOwned(s0, s, a);
    forall r | 0 <= r < |s.readers| ensures ReaderOk(disk', s.readers[r]) {
      ReaderStays(s.disk, disk', s.readers[r]);
    }
  }

  lemma StillOwned(s0: State, s: State, a: Action)
    requires Inv(s0, s) && WriterAct(a) && Enabled(s, a)
    ensures Owned(s0.disk.scratch.Keys, Step(s, a).disk, Step(s, a).writers)
  {
    var me := s.writers[a.w];
    var (disk', pc') := WriterStep(s.disk, me, a);
    var s' := Step(s, a);
    WriterStepIsLocal(s.disk, me, a);
    forall d | d in disk'.scratch && d !in s0.disk.scratch
      ensures exists w :: 0 <= w < |s'.writers| && d in DirOf(s'.writers[w].pc)
    {
      if d in DirOf(pc') {
        assert d in DirOf(s'.writers[a.w].pc);
      } else {
        var w :| 0 <= w < |s.writers| && d in DirOf(s.writers[w].pc);
        assert d in DirOf(s'.writers[w].pc);
      }
    }
  }

  lemma ReaderKeepsInv(s0: State, s: State, a: Action)
    requires Inv(s0, s) && !WriterAct(a) && Enabled(s, a)
    ensures Inv(s0, Step(s, a)) && Step(s, a).disk == s.disk
  { }

  // ---------------------------------------------------------------- every run

  lemma StepKeepsInv(s0: State, s: State, a: Action)
    requires Inv(s0, s) && Enabled(s, a)
    ensures Inv(s0, Step(s, a)) && Kept(s.disk.entries, Step(s, a).disk.entries)
  {
    if WriterAct(a) {
      WriterKeepsInv(s0, s, a);
    } else {
      ReaderKeepsInv(s0, s, a);
    }
  }

  lemma {:induction false} RunKeepsInv(run: seq<State>, actions: seq<Action>, i: nat)
    requires IsRun(run, actions) && Initial(run[0]) && i < |run|
    ensures Inv(run[0], run[i])
  {
    if i > 0 {
      RunKeepsInv(run, actions, i - 1);
      assert Follows(run, actions, i - 1);
      StepKeepsInv(run[0], run[i - 1], actions[i - 1]);
    }
  }

  /** An entry, once visible, is never changed, replaced or removed. */
  lemma {:induction false} EntriesAreKept(run: seq<State>, actions: seq<Action>, i: nat, j: nat)
    requires IsRun(run, actions) && Initial(run[0]) && i <= j < |run|
    ensures Kept(run[i].disk.entries, run[j].disk.entries)
    decreases j - i
  {
    if i < j {
      EntriesAreKept(run, actions, i, j - 1);
      RunKeepsInv(run, actions, j - 1);
      assert Follows(run, actions, j - 1);
      StepKeepsInv(run[0], run[j - 1], actions[j - 1]);
      KeptTwice(run[i].disk.entries, run[j - 1].disk.entries, run[j].disk.entries);
    }
  }

  lemma KeptTwice(a: map<Key, Dir>, b: map<Key, Dir>, c: map<Key, Dir>)
    requires Kept(a, b) && Kept(b, c)
    ensures Kept(a, c)
  { }

  /** Entries appear complete or not at all. */
  lemma VisibleEntriesAreComplete(run: seq<State>, actions: seq<Action>, i: nat, key: Key)
    requires IsRun(run, actions) && Initial(run[0]) && i < |run| && key in run[i].disk.entries
    ensures Complete(run[i].disk.entries[key]) || Damaged(run[0], key)
  {
    RunKeepsInv(run, actions, i);
  }

  /** At most one commit per key returns True, and none for a key that was there before. */
  lemma OneWinnerPerKey(run: seq<State>, actions: seq<Action>, i: nat, v: nat, w: nat)
    requires IsRun(run, actions) && Initial(run[0]) && i < |run| && v < |run[i].writers| && w < |run[i].writers|
    requires run[i].writers[v].pc.Won? && run[i].writers[w].pc.Won? && run[i].writers[v].key == run[i].writers[w].key
    ensures v == w && Free(run[0].disk.entries, run[i].writers[v].key)
  {
    RunKeepsInv(run, actions, i);
    assert Apart(run[i].writers);
  }

  /** A writer that won keeps having its own metadata in place, and every file it lists. */
  lemma WinnerStays(run: seq<State>, actions: seq<Action>, i: nat, w: nat)
    requires IsRun(run, actions) && Initial(run[0]) && i < |run| && w < |run[i].writers| && run[i].writers[w].pc.Won?
    ensures var me := run[i].writers[w];
            && me.key in run[i].disk.entries && Complete(run[i].disk.entries[me.key])
            && run[i].disk.entries[me.key].meta == Whole(me.pc.meta)
  {
    RunKeepsInv(run, actions, i);
    assert WriterOk(run[i].disk, run[i].writers[w]);
  }

  /** When every writer has returned, no scratch directory of theirs is left, and whoever lost finds an entry. */
  lemma NothingLeftBehind(run: seq<State>, actions: seq<Action>, i: nat)
    requires IsRun(run, actions) && Initial(run[0]) && i < |run|
    requires forall w :: 0 <= w < |run[i].writers| ==> DirOf(run[i].writers[w].pc) == {}
    ensures run[i].disk.scratch.Keys <= run[0].disk.scratch.Keys
    ensures forall w :: 0 <= w < |run[i].writers| && run[i].writers[w].pc.Lost? ==>
      run[i].writers[w].key in run[i].disk.entries
  {
    RunKeepsInv(run, actions, i);
    assert forall w :: 0 <= w < |run[i].writers| ==> WriterOk(run[i].disk, run[i].writers[w]);
  }

  ghost predicate OnCourse(me: Reader, key: Key, entry: Dir) {
    && me.key == key && !me.pc.Miss?
    && (me.pc.Checking? || me.pc.Hit? ==> entry.meta == Whole(me.pc.meta))
    && (me.pc.Checking? ==> me.pc.left <= entry.files.Keys)
  }

  /** A key once committed always looks up as a hit, with the metadata that was committed. */
  lemma {:induction false} CommittedKeysHit(run: seq<State>, actions: seq<Action>, i: nat, j: nat, r: nat)
    requires IsRun(run, actions) && Initial(run[0]) && i <= j < |run| && r < |run[i].readers|
    requires run[i].readers[r].pc.Asked?
    requires run[i].readers[r].key in run[i].disk.entries && Complete(run[i].disk.entries[run[i].readers[r].key])
    ensures r < |run[j].readers|
    ensures OnCourse(run[j].readers[r], run[i].readers[r].key, run[i].disk.entries[run[i].readers[r].key])
    decreases j - i
  {
    if i < j {
      CommittedKeysHit(run, actions, i, j - 1, r);
      EntriesAreKept(run, actions, i, j - 1);
      assert Follows(run, actions, j - 1);
    }
  }

  /** A lookup that has not returned can always go on, so it returns after its metadata's files. */
  lemma LookupsCanGoOn(s: State, r: nat) returns (a: Action)
    requires r < |s.readers| && (s.readers[r].pc.Asked? || s.readers[r].pc.Checking?)
    ensures Enabled(s, a) && !WriterAct(a) && a.r == r
    ensures var before, after := s.readers[r].pc, Step(s, a).readers[r].pc;
            before.Checking? && after.Checking? ==> after.left < before.left
  {
    var pc := s.readers[r].pc;
    if pc.Asked? {
      a := ReadMeta(r);
    } else if pc.left == {} {
      a := AllThere(r);
    } else {
      var name :| name in pc.left;
      a := CheckFile(r, name);
    }
  }

  /** What the model leaves open: any directory name that is free, any files, giving up or a failing rename
      at any time, and a lookup at any time. */
  lemma NothingIsRuledOut(s: State, w: nat, r: nat)
    requires w < |s.writers| && WriterOk(s.disk, s.writers[w]) && r < |s.readers|
    ensures s.writers[w].pc.Idle? ==> forall dir :: dir !in s.disk.scratch ==> Enabled(s, Open(w, dir))
    ensures s.writers[w].pc.Building? ==>
      && (forall name, content :: Enabled(s, Put(w, name, content))) && Enabled(s, BeginMeta(w))
      && (forall name :: name in s.disk.scratch[s.writers[w].pc.dir].files ==> Enabled(s, Unlink(w, name)))
    ensures s.writers[w].pc.Described? ==> Enabled(s, Rename(w)) && Enabled(s, RenameError(w))
    ensures s.writers[w].pc.Building? || s.writers[w].pc.Describing? || s.writers[w].pc.Described? ==>
      Enabled(s, GiveUp(w))
    ensures s.readers[r].pc.Asked? ==> Enabled(s, ReadMeta(r))
  { }

  /** A hit is never wrong, even in a damaged cache. */
  lemma HitsAreComplete(run: seq<State>, actions: seq<Action>, i: nat, r: nat)
    requires IsRun(run, actions) && Initial(run[0]) && i < |run| && r < |run[i].readers| && run[i].readers[r].pc.Hit?
    ensures var me := run[i].readers[r];
            me.key in run[i].disk.entries && Complete(run[i].disk.entries[me.key])
            && run[i].disk.entries[me.key].meta == Whole(me.pc.meta)
  {
    RunKeepsInv(run, actions, i);
    assert ReaderOk(run[i].disk, run[i].readers[r]);
  }

  /** A damaged entry is never repaired: no writer wins its key and no lookup hits, in any run. */
  lemma DamageIsForever(run: seq<State>, actions: seq<Action>, i: nat, key: Key)
    requires IsRun(run, actions) && Initial(run[0]) && i < |run| && Damaged(run[0], key)
    requires !IsEmpty(run[0].disk.entries[key])
    ensures key in run[i].disk.entries && run[i].disk.entries[key] == run[0].disk.entries[key]
    ensures forall w :: 0 <= w < |run[i].writers| && run[i].writers[w].key == key ==> !run[i].writers[w].pc.Won?
    ensures forall r :: 0 <= r < |run[i].readers| && run[i].readers[r].key == key ==> !run[i].readers[r].pc.Hit?
  {
    RunKeepsInv(run, actions, i);
    EntriesAreKept(run, actions, 0, i);
    assert forall w :: 0 <= w < |run[i].writers| ==> WriterOk(run[i].disk, run[i].writers[w]);
    assert forall r :: 0 <= r < |run[i].readers| ==> ReaderOk(run[i].disk, run[i].readers[r]);
  }
}
