/** One step of a job on the cache stands for a whole run of calls: whatever other processes do in
    between, a lookup and a commit leave what `CmdstanJob` says they leave.
*/
module CacheRefinement {
  import opened Options
  import B = BuildCache
  import C = CmdstanJob

  // ---------------------------------------------------------------- names and directories

  function NameOf(f: C.File): B.Name {
    match f
    case Stan => "model.stan"
    case Hpp => "model.hpp"
    case Exe => "model"
    case GradBench => "gradbench"
  }

  function Names(files: set<C.File>): set<B.Name> {
    set f | f in files :: NameOf(f)
  }

  /** The two kinds of key never collide. */
  function Number(key: C.Key): B.Key {
    match key
    case ModelKey(h) => 2 * h
    case DriverKey(h) => 2 * h + 1
  }

  lemma NamesDiffer(f: C.File, g: C.File)
    requires NameOf(f) == NameOf(g)
    ensures f == g
  {
    assert |NameOf(f)| == |NameOf(g)| && NameOf(f)[0] == NameOf(g)[0];
  }

  lemma NamesWithin(a: set<C.File>, b: set<C.File>)
    ensures Names(a) <= Names(b) <==> a <= b
    ensures Names(a) == {} <==> a == {}
  {
    if Names(a) <= Names(b) {
      forall f | f in a ensures f in b {
        assert NameOf(f) in Names(b);
        var g :| g in b && NameOf(g) == NameOf(f);
        NamesDiffer(f, g);
      }
    }
    if f :| f in a {
      assert NameOf(f) in Names(a);
    }
  }

  /** A folder stands for a directory with the same files that is as complete and as empty. */
  predicate Stands(d: B.Dir, f: C.Folder) {
    && d.files.Keys == Names(f.files)
    && (B.Complete(d) <==> C.Complete(f))
    && (B.IsEmpty(d) <==> C.IsEmpty(f))
  }

  /** Every directory of a job's files has such a folder, whatever its metadata file holds. */
  lemma SomeFolderStands(d: B.Dir, files: set<C.File>) returns (f: C.Folder)
    requires d.files.Keys == Names(files)
    ensures Stands(d, f)
  {
    NamesWithin(files, {});
    if B.Complete(d) {
      f := C.Folder(files, Some({}));
    } else if files != {} || B.IsEmpty(d) {
      f := C.Folder(files, None);
    } else {
      f := C.Folder({}, Some({C.Stan}));
    }
  }

  predicate EntryStands(disk: B.Disk, w: C.World, key: C.Key) {
    && (Number(key) in disk.entries <==> key in w.entries)
    && (key in w.entries ==> Stands(disk.entries[Number(key)], w.entries[key]))
  }

  // ---------------------------------------------------------------- lookup

  /** A hit was a hit when the lookup returned, and a miss was a miss when it began. */
  lemma LookupRefines(run: seq<B.State>, actions: seq<B.Action>, i: nat, j: nat, r: nat, key: C.Key, before: C.World,
                      after: C.World)
    requires B.IsRun(run, actions) && B.Initial(run[0]) && i <= j < |run| && r < |run[i].readers|
    requires run[i].readers[r] == B.Reader(Number(key), B.Asked)
    requires EntryStands(run[i].disk, before, key) && EntryStands(run[j].disk, after, key)
    ensures r < |run[j].readers|
    ensures run[j].readers[r].pc.Hit? ==> C.Lookup(after, key)
    ensures run[j].readers[r].pc.Miss? ==> !C.Lookup(before, key)
  {
    ReadersStay(run, actions, i, j, r);
    if run[j].readers[r].pc.Hit? {
      B.HitsAreComplete(run, actions, j, r);
    }
    if C.Lookup(before, key) {
      B.CommittedKeysHit(run, actions, i, j, r);
    }
  }

  lemma {:induction false} ReadersStay(run: seq<B.State>, actions: seq<B.Action>, i: nat, j: nat, r: nat)
    requires B.IsRun(run, actions) && i <= j < |run| && r < |run[i].readers|
    ensures r < |run[j].readers| && run[j].readers[r].key == run[i].readers[r].key
    decreases j - i
  {
    if i < j {
      ReadersStay(run, actions, i, j - 1, r);
      assert B.Follows(run, actions, j - 1);
    }
  }

  // ---------------------------------------------------------------- commit

  /** The calls of `commit`, with the metadata listing these files. */
  predicate CommitCall(a: B.Action, listed: set<C.File>) {
    || a.BeginMeta? || (a.EndMeta? && a.meta.files == Names(listed)) || a.Rename? || a.CheckExists?
    || a.RemoveFile? || a.RemoveMeta? || a.RemoveDir?
  }

  /** From i on writer w only commits, and whoever else renames into its key has built the same files. */
  ghost predicate Committing(run: seq<B.State>, actions: seq<B.Action>, i: nat, j: nat, w: nat, listed: set<C.File>)
    requires B.IsRun(run, actions) && i <= j < |run| && w < |run[i].writers|
  {
    forall t :: i <= t < j ==> CommittingAt(run, actions, t, w, run[i].writers[w].key, listed)
  }

  ghost predicate CommittingAt(run: seq<B.State>, actions: seq<B.Action>, t: nat, w: nat, key: B.Key,
                               listed: set<C.File>)
    requires B.IsRun(run, actions) && t < |actions|
  {
    var a := actions[t];
    assert B.Follows(run, actions, t);
    && (B.WriterAct(a) && a.w == w ==> CommitCall(a, listed))
    && (a.Rename? && a.w != w && run[t].writers[a.w].key == key ==>
          BuiltOf(run[t].disk.scratch[run[t].writers[a.w].pc.dir], listed))
  }

  predicate BuiltOf(d: B.Dir, listed: set<C.File>) {
    d.files.Keys == Names(listed) && d.meta.Whole? && d.meta.meta.files == Names(listed)
  }

  /** What holds while the commit has not returned: its directory holds what it held, and the entry is as
      it was or, if it was free, one that a rival built. */
  ghost predicate Underway(s: B.State, start: B.Disk, w: nat, key: B.Key, id: nat, listed: set<C.File>) {
    && w < |s.writers| && s.writers[w].key == key && B.DirOf(s.writers[w].pc) == {id} && id in start.scratch
    && id in s.disk.scratch
    && (s.writers[w].pc.Building? || s.writers[w].pc.Describing? || s.writers[w].pc.Described? ==>
          s.disk.scratch[id].files == start.scratch[id].files)
    && (s.writers[w].pc.Described? ==>
          s.writers[w].pc.meta.files == Names(listed) && s.disk.scratch[id].meta == B.Whole(s.writers[w].pc.meta))
    && (s.writers[w].pc.RenameFailed? ==> !B.Free(s.disk.entries, key))
    && (s.writers[w].pc.Discarding? ==> s.writers[w].pc.lost && !B.Free(s.disk.entries, key))
    && (SameEntry(start.entries, s.disk.entries, key) || Rivalled(start, s.disk, key, listed))
  }

  predicate SameEntry(before: map<B.Key, B.Dir>, after: map<B.Key, B.Dir>, key: B.Key) {
    (key in before <==> key in after) && (key in before ==> before[key] == after[key])
  }

  predicate Rivalled(start: B.Disk, disk: B.Disk, key: B.Key, listed: set<C.File>) {
    B.Free(start.entries, key) && key in disk.entries && BuiltOf(disk.entries[key], listed)
  }

  /** What the commit has done when it returns. */
  ghost predicate Returned(s: B.State, start: B.Disk, w: nat, key: B.Key, id: nat, listed: set<C.File>) {
    && w < |s.writers| && s.writers[w].key == key && id in start.scratch && id !in s.disk.scratch
    && (if s.writers[w].pc.Won? then
          && B.Free(start.entries, key) && key in s.disk.entries
          && s.disk.entries[key].files == start.scratch[id].files
          && s.disk.entries[key].meta.Whole? && s.disk.entries[key].meta.meta.files == Names(listed)
        else
          && s.writers[w].pc.Lost? && !B.Free(s.disk.entries, key)
          && (SameEntry(start.entries, s.disk.entries, key) || Rivalled(start, s.disk, key, listed)))
  }

  lemma OwnCall(s0: B.State, s: B.State, a: B.Action, start: B.Disk, w: nat, key: B.Key, id: nat, listed: set<C.File>)
    requires B.Inv(s0, s) && B.Enabled(s, a) && B.WriterAct(a) && a.w == w && CommitCall(a, listed)
    requires Underway(s, start, w, key, id, listed)
    ensures Underway(B.Step(s, a), start, w, key, id, listed) || Returned(B.Step(s, a), start, w, key, id, listed)
  {
    assert s.writers[w].pc.dir == id;
  }

  /** Another process leaves the entry alone or fills it with what a rival builds. */
  lemma OtherEntry(s0: B.State, s: B.State, a: B.Action, start: B.Disk, key: B.Key, listed: set<C.File>)
    requires B.Inv(s0, s) && B.Enabled(s, a) && B.WriterAct(a)
    requires SameEntry(start.entries, s.disk.entries, key) || Rivalled(start, s.disk, key, listed)
    requires a.Rename? && s.writers[a.w].key == key ==> BuiltOf(s.disk.scratch[s.writers[a.w].pc.dir], listed)
    ensures var disk := B.Step(s, a).disk;
            && (!B.Free(s.disk.entries, key) ==> !B.Free(disk.entries, key))
            && (SameEntry(start.entries, disk.entries, key) || Rivalled(start, disk, key, listed))
  {
    if !a.Rename? {
      assert B.Step(s, a).disk.entries == s.disk.entries;
    }
  }

  lemma OtherCall(s0: B.State, s: B.State, a: B.Action, start: B.Disk, w: nat, key: B.Key, id: nat,
                  listed: set<C.File>)
    requires B.Inv(s0, s) && B.Enabled(s, a) && (B.WriterAct(a) ==> a.w != w)
    requires Underway(s, start, w, key, id, listed)
    requires a.Rename? && s.writers[a.w].key == key ==> BuiltOf(s.disk.scratch[s.writers[a.w].pc.dir], listed)
    ensures Underway(B.Step(s, a), start, w, key, id, listed)
  {
    if B.WriterAct(a) {
      OtherEntry(s0, s, a, start, key, listed);
      OwnDirectoryStays(s0, s, a, w, id);
    }
  }

  lemma OwnDirectoryStays(s0: B.State, s: B.State, a: B.Action, w: nat, id: nat)
    requires B.Inv(s0, s) && B.Enabled(s, a) && B.WriterAct(a) && a.w != w < |s.writers|
    requires B.DirOf(s.writers[w].pc) == {id} && id in s.disk.scratch
    ensures var s' := B.Step(s, a);
            |s'.writers| == |s.writers| && s'.writers[w] == s.writers[w]
            && id in s'.disk.scratch && s'.disk.scratch[id] == s.disk.scratch[id]
  {
    B.WriterStepIsLocal(s.disk, s.writers[a.w], a);
    assert B.DirOf(s.writers[a.w].pc) !! B.DirOf(s.writers[w].pc);
  }

  lemma AnyCall(s0: B.State, run: seq<B.State>, actions: seq<B.Action>, t: nat, start: B.Disk, w: nat, key: B.Key,
                id: nat, listed: set<C.File>)
    requires B.IsRun(run, actions) && t < |actions| && B.Inv(s0, run[t])
    requires CommittingAt(run, actions, t, w, key, listed) && Underway(run[t], start, w, key, id, listed)
    ensures Underway(run[t + 1], start, w, key, id, listed) || Returned(run[t + 1], start, w, key, id, listed)
  {
    assert B.Follows(run, actions, t);
    var a := actions[t];
    if B.WriterAct(a) && a.w == w {
      OwnCall(s0, run[t], a, start, w, key, id, listed);
    } else {
      OtherCall(s0, run[t], a, start, w, key, id, listed);
    }
  }

  ghost predicate Open(s: B.State, w: nat) {
    w < |s.writers| && B.DirOf(s.writers[w].pc) != {}
  }

  lemma StartsUnderway(s0: B.State, s: B.State, w: nat, id: nat, listed: set<C.File>)
    requires B.Inv(s0, s) && w < |s.writers| && s.writers[w].pc == B.Building(id)
    ensures Underway(s, s.disk, w, s.writers[w].key, id, listed)
  {
    assert B.WriterOk(s.disk, s.writers[w]);
  }

  lemma {:induction false} StaysUnderway(run: seq<B.State>, actions: seq<B.Action>, i: nat, j: nat, w: nat, id: nat,
                                         listed: set<C.File>)
    requires B.IsRun(run, actions) && B.Initial(run[0]) && i <= j < |run| && w < |run[i].writers|
    requires run[i].writers[w].pc == B.Building(id) && Committing(run, actions, i, j, w, listed)
    requires forall t :: i < t <= j ==> Open(run[t], w)
    ensures Underway(run[j], run[i].disk, w, run[i].writers[w].key, id, listed)
    decreases j - i
  {
    if i == j {
      B.RunKeepsInv(run, actions, i);
      StartsUnderway(run[0], run[i], w, id, listed);
    } else {
      StaysUnderway(run, actions, i, j - 1, w, id, listed);
      B.RunKeepsInv(run, actions, j - 1);
      assert CommittingAt(run, actions, j - 1, w, run[i].writers[w].key, listed);
      AnyCall(run[0], run, actions, j - 1, run[i].disk, w, run[i].writers[w].key, id, listed);
      assert Open(run[j], w);
    }
  }

  lemma Returns(run: seq<B.State>, actions: seq<B.Action>, i: nat, j: nat, w: nat, id: nat, listed: set<C.File>)
    requires B.IsRun(run, actions) && B.Initial(run[0]) && i < j < |run| && w < |run[i].writers|
    requires run[i].writers[w].pc == B.Building(id) && Committing(run, actions, i, j, w, listed)
    requires (forall t :: i < t < j ==> Open(run[t], w)) && !Open(run[j], w)
    ensures Returned(run[j], run[i].disk, w, run[i].writers[w].key, id, listed)
  {
    StaysUnderway(run, actions, i, j - 1, w, id, listed);
    B.RunKeepsInv(run, actions, j - 1);
    assert CommittingAt(run, actions, j - 1, w, run[i].writers[w].key, listed);
    AnyCall(run[0], run, actions, j - 1, run[i].disk, w, run[i].writers[w].key, id, listed);
  }

  lemma ReturnedIsCommit(s: B.State, start: B.Disk, w: nat, id: nat, cfg: C.Config, world: C.World, key: C.Key,
                         listed: set<C.File>)
    requires Returned(s, start, w, Number(key), id, listed)
    requires EntryStands(start, world, key) && id in world.scratch && listed <= world.scratch[id]
    requires start.scratch[id].files.Keys == Names(world.scratch[id])
    requires C.Free(world.entries, key) ==> (cfg.rival(key) <==> s.writers[w].pc.Lost?)
    ensures s.writers[w].pc.Won? <==> C.Free(world.entries, key) && !cfg.rival(key)
    ensures EntryStands(s.disk, C.Commit(cfg, world, id, key, listed), key)
  {
    NamesWithin(listed, world.scratch[id]);
    NamesWithin(world.scratch[id], {});
    NamesWithin(listed, listed);
    assert B.Free(start.entries, Number(key)) <==> C.Free(world.entries, key);
  }

  /** However the calls of other processes fall between its own, a commit that returns at j has done what
      `Commit` does, the rival being whoever made it lose a key that was free. */
  lemma CommitRefines(run: seq<B.State>, actions: seq<B.Action>, i: nat, j: nat, w: nat, id: nat, cfg: C.Config,
                      world: C.World, key: C.Key, listed: set<C.File>)
    requires B.IsRun(run, actions) && B.Initial(run[0]) && i < j < |run| && w < |run[i].writers|
    requires run[i].writers[w] == B.Writer(Number(key), B.Building(id)) && Committing(run, actions, i, j, w, listed)
    requires forall t :: i < t < j ==> Open(run[t], w)
    requires w < |run[j].writers| && !Open(run[j], w)
    requires EntryStands(run[i].disk, world, key) && id in world.scratch && listed <= world.scratch[id]
    requires id in run[i].disk.scratch && run[i].disk.scratch[id].files.Keys == Names(world.scratch[id])
    requires C.Free(world.entries, key) ==> (cfg.rival(key) <==> run[j].writers[w].pc.Lost?)
    ensures run[j].writers[w].pc.Won? <==> C.Free(world.entries, key) && !cfg.rival(key)
    ensures run[j].writers[w].pc.Lost? <==> !C.Free(world.entries, key) || cfg.rival(key)
    ensures EntryStands(run[j].disk, C.Commit(cfg, world, id, key, listed), key)
    ensures id !in run[j].disk.scratch && id !in C.Commit(cfg, world, id, key, listed).scratch
  {
    Returns(run, actions, i, j, w, id, listed);
    ReturnedIsCommit(run[j], run[i].disk, w, id, cfg, world, key, listed);
  }

  /** Until it returns, a commit can make its next call. */
  lemma CommitCanGoOn(s: B.State, start: B.Disk, w: nat, key: B.Key, id: nat, listed: set<C.File>, meta: B.Meta)
    returns (a: B.Action)
    requires Underway(s, start, w, key, id, listed) && meta.files == Names(listed) <= start.scratch[id].files.Keys
    ensures B.Enabled(s, a) && B.WriterAct(a) && a.w == w && CommitCall(a, listed)
  {
    match s.writers[w].pc
    case Building(_) => a := B.BeginMeta(w);
    case Describing(_) => a := B.EndMeta(w, meta);
    case Described(_, _) => a := B.Rename(w);
    case RenameFailed(_) => a := B.CheckExists(w);
    case Discarding(_, _) =>
      var d := s.disk.scratch[id];
      if d.files != map[] {
        var name :| name in d.files;
        a := B.RemoveFile(w, name);
      } else if d.meta != B.Missing {
        a := B.RemoveMeta(w);
      } else {
        a := B.RemoveDir(w);
      }
  }
}
