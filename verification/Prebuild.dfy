/** Building every CmdStan binary before any timing starts, in a wave of leaders and a wave of twins. */
module Prebuild {
  import opened Options
  import opened CmdstanJob
  import opened JobInvariants

  datatype Shop = Shop(w: World, jobs: map<Name, Job>, builds: map<Name, Build>)

  const Broken := Build(None, None, true, false, false)

  // ---------------------------------------------------------------- command discipline

  predicate AllDrivers(cmds: set<Command>) {
    forall c :: c in cmds ==> c.stage.Driver?
  }

  /** One more event; None once stanc or make ran beside another command. */
  function After(running: Option<set<Command>>, e: Event): Option<set<Command>> {
    if running.None? then None else
      var now := running.value;
      match e
      case Begin(c) =>
        if c in now || (now != {} && !(c.stage.Driver? && AllDrivers(now))) then None else Some(now + {c})
      case End(c) => if c in now then Some(now - {c}) else None
  }

  /** The commands running after this log, provided that every stanc and make ran alone. */
  function Running(log: seq<Event>): Option<set<Command>> {
    if log == [] then Some({}) else After(Running(log[..|log| - 1]), log[|log| - 1])
  }

  lemma AloneIsFine(w: World, stage: Stage, name: Name)
    requires Running(w.log) == Some({})
    ensures Running(Alone(w, stage, name).log) == Some({})
  { }

  /** The model ran a command since the log had `from` events. */
  ghost predicate Mentions(log: seq<Event>, from: nat, name: Name) {
    exists i :: from <= i < |log| && log[i].cmd.name == name
  }

  /** The log grew, and exactly these models ran commands meanwhile. */
  ghost predicate Traced(before: seq<Event>, after: seq<Event>, busy: set<Name>) {
    before <= after && forall n :: Mentions(after, |before|, n) <==> n in busy
  }

  lemma TracedThen(a: seq<Event>, b: seq<Event>, c: seq<Event>, x: set<Name>, y: set<Name>)
    requires Traced(a, b, x) && Traced(b, c, y)
    ensures Traced(a, c, x + y)
  {
    forall n ensures Mentions(c, |a|, n) <==> Mentions(b, |a|, n) || Mentions(c, |b|, n) {
      if i :| |a| <= i < |b| && b[i].cmd.name == n {
        assert c[i].cmd.name == n;
      }
      if i :| |a| <= i < |c| && c[i].cmd.name == n {
        assert i < |b| ==> b[i].cmd.name == n;
      }
    }
  }

  lemma OneTrace(log: seq<Event>, more: seq<Event>, name: Name)
    requires forall i :: 0 <= i < |more| ==> more[i].cmd.name == name
    ensures Traced(log, log + more, if more == [] then {} else {name})
  {
    assert more != [] ==> (log + more)[|log|].cmd.name == name;
  }

  /** The largest number of commands that ran at a time. */
  function Peak(log: seq<Event>): nat {
    if log == [] then 0 else
      var before, now := Peak(log[..|log| - 1]), if Running(log).Some? then |Running(log).value| else 0;
      if before < now then now else before
  }

  /** Since then never more than this many commands ran at a time. */
  predicate NoWider(before: seq<Event>, after: seq<Event>, most: nat) {
    Peak(after) <= Peak(before) || Peak(after) <= most
  }

  lemma OneMoreEvent(log: seq<Event>, e: Event, most: nat)
    ensures Running(log + [e]) == After(Running(log), e)
    ensures Running(log + [e]).Some? && |Running(log + [e]).value| <= most ==> NoWider(log, log + [e], most)
  { }

  lemma AloneIsNarrow(log: seq<Event>, stage: Stage, name: Name)
    requires Running(log) == Some({})
    ensures NoWider(log, log + RunOf(stage, name), 1)
  {
    var c := Command(stage, name);
    OneMoreEvent(log, Begin(c), 1);
    OneMoreEvent(log + [Begin(c)], End(c), 1);
    assert log + RunOf(stage, name) == log + [Begin(c)] + [End(c)];
    assert {} + {c} == {c} && {c} - {c} == {};
  }

  // ---------------------------------------------------------------- the commands of one model

  /** The events of this model, in order. */
  function Of(log: seq<Event>, name: Name): seq<Event> {
    if log == [] then [] else
      Of(log[..|log| - 1], name) + if log[|log| - 1].cmd.name == name then [log[|log| - 1]] else []
  }

  function RunOf(stage: Stage, name: Name): seq<Event> {
    [Begin(Command(stage, name)), End(Command(stage, name))]
  }

  lemma {:induction false} OfAppend(a: seq<Event>, b: seq<Event>, name: Name)
    ensures Of(a + b, name) == Of(a, name) + Of(b, name)
  {
    if b == [] {
      assert a + b == a;
    } else {
      var n := |b| - 1;
      assert (a + b)[..|a + b| - 1] == a + b[..n];
      OfAppend(a, b[..n], name);
    }
  }

  lemma OfOne(e: Event, name: Name)
    ensures Of([e], name) == if e.cmd.name == name then [e] else []
  {
    assert Of([], name) == [];
  }

  lemma OfRun(stage: Stage, n: Name, name: Name)
    ensures Of(RunOf(stage, n), name) == if n == name then RunOf(stage, n) else []
  {
    var c := Command(stage, n);
    assert RunOf(stage, n) == [Begin(c)] + [End(c)];
    OfAppend([Begin(c)], [End(c)], name);
    OfOne(Begin(c), name);
    OfOne(End(c), name);
  }

  /** Since then the busy models ran their command of this stage, and those in `open` have not ended it. */
  ghost predicate Worked(before: seq<Event>, after: seq<Event>, stage: Stage, busy: set<Name>, open: set<Name>) {
    forall n :: WorkedAt(before, after, stage, busy, open, n)
  }

  predicate WorkedAt(before: seq<Event>, after: seq<Event>, stage: Stage, busy: set<Name>, open: set<Name>, n: Name) {
    Of(after, n) == Of(before, n) + Share(stage, n, busy, open)
  }

  function Share(stage: Stage, n: Name, busy: set<Name>, open: set<Name>): seq<Event> {
    if n !in busy then [] else if n in open then [Begin(Command(stage, n))] else RunOf(stage, n)
  }

  lemma WorkedAlone(log0: seq<Event>, log: seq<Event>, stage: Stage, busy: set<Name>, name: Name)
    requires Worked(log0, log, stage, busy, {}) && name !in busy
    ensures Worked(log0, log + RunOf(stage, name), stage, busy + {name}, {})
  {
    var log', busy' := log + RunOf(stage, name), busy + {name};
    forall n ensures WorkedAt(log0, log', stage, busy', {}, n) {
      assert WorkedAt(log0, log, stage, busy, {}, n);
      OfAppend(log, RunOf(stage, name), n);
      OfRun(stage, name, n);
    }
  }

  lemma WorkBegins(log0: seq<Event>, log: seq<Event>, stage: Stage, busy: set<Name>, open: set<Name>, name: Name)
    requires Worked(log0, log, stage, busy, open) && name !in busy && open <= busy
    ensures Worked(log0, log + [Begin(Command(stage, name))], stage, busy + {name}, open + {name})
  {
    var e := Begin(Command(stage, name));
    var log', busy', open' := log + [e], busy + {name}, open + {name};
    forall n ensures WorkedAt(log0, log', stage, busy', open', n) {
      assert WorkedAt(log0, log, stage, busy, open, n);
      OfAppend(log, [e], n);
      OfOne(e, n);
    }
  }

  lemma WorkEnds(log0: seq<Event>, log: seq<Event>, stage: Stage, busy: set<Name>, open: set<Name>, name: Name)
    requires Worked(log0, log, stage, busy, open) && name in open && open <= busy
    ensures Worked(log0, log + [End(Command(stage, name))], stage, busy, open - {name})
  {
    var e := End(Command(stage, name));
    var log', open' := log + [e], open - {name};
    forall n ensures WorkedAt(log0, log', stage, busy, open', n) {
      assert WorkedAt(log0, log, stage, busy, open, n);
      OfAppend(log, [e], n);
      OfOne(e, n);
    }
  }

  // ---------------------------------------------------------------- invariant

  function HashOf(cfg: Config, name: Name): Option<nat> {
    if cfg.cached then cfg.hash(name) else None
  }

  /** Every scratch directory is loose (nobody's) or belongs to exactly one job. */
  ghost predicate ScratchOk(w: World, jobs: map<Name, Job>, loose: set<nat>) {
    && loose <= w.scratch.Keys
    && (forall id :: id in w.scratch ==> id < w.next)
    && (forall n :: n in jobs ==> Ids(jobs[n]) !! loose)
    && (forall m, n :: m in jobs && n in jobs && m != n ==> Ids(jobs[m]) !! Ids(jobs[n]))
    && (forall id :: id in w.scratch && id !in loose ==> exists n :: n in jobs && id in Ids(jobs[n]))
  }

  ghost predicate JobsOk(cfg: Config, w0: World, w: World, jobs: map<Name, Job>) {
    forall n :: n in jobs ==> Belongs(cfg, n, jobs[n]) && JobOk(w0, w, jobs[n])
  }

  ghost predicate Belongs(cfg: Config, name: Name, job: Job) {
    job.name == name && job.hash == HashOf(cfg, name) && (cfg.cached ==> job.hash.Some?)
  }

  ghost predicate BuildsOk(cfg: Config, w0: World, w: World, builds: map<Name, Build>) {
    forall n :: n in builds ==> BuildOk(w0, w, cfg, n, builds[n])
  }

  ghost predicate Inv(cfg: Config, w0: World, s: Shop, loose: set<nat>) {
    && EntriesOk(w0, s.w)
    && s.jobs.Keys !! s.builds.Keys
    && ScratchOk(s.w, s.jobs, loose)
    && JobsOk(cfg, w0, s.w, s.jobs)
    && BuildsOk(cfg, w0, s.w, s.builds)
  }

  lemma OtherJobStays(w0: World, w: World, w': World, name: Name, ids: set<nat>, ids': set<nat>, job: Job)
    requires Local(w0, w, w', name, ids, ids') && JobOk(w0, w, job) && job.name != name && Ids(job) !! ids
    ensures JobOk(w0, w', job)
  { }

  lemma OtherBuildStays(cfg: Config, w0: World, w: World, w': World, name: Name, ids: set<nat>, ids': set<nat>,
                        n: Name, b: Build)
    requires Local(w0, w, w', name, ids, ids') && BuildOk(w0, w, cfg, n, b) && n != name
    ensures BuildOk(w0, w', cfg, n, b)
  { }

  /** The directories a name's job holds. */
  function IdsOf(jobs: map<Name, Job>, name: Name): set<nat> {
    if name in jobs then Ids(jobs[name]) else {}
  }

  lemma OthersStay(cfg: Config, w0: World, s: Shop, loose: set<nat>, w': World, name: Name, ids': set<nat>)
    requires Inv(cfg, w0, s, loose) && Local(w0, s.w, w', name, IdsOf(s.jobs, name), ids')
    ensures JobsOk(cfg, w0, w', s.jobs - {name}) && BuildsOk(cfg, w0, w', s.builds - {name})
  {
    forall n | n in s.jobs && n != name ensures JobOk(w0, w', s.jobs[n]) {
      OtherJobStays(w0, s.w, w', name, IdsOf(s.jobs, name), ids', s.jobs[n]);
    }
    forall n | n in s.builds && n != name ensures BuildOk(w0, w', cfg, n, s.builds[n]) {
      OtherBuildStays(cfg, w0, s.w, w', name, IdsOf(s.jobs, name), ids', n, s.builds[n]);
    }
  }

  lemma ScratchMoves(w0: World, w: World, jobs: map<Name, Job>, loose: set<nat>, w': World, name: Name, job': Job)
    requires ScratchOk(w, jobs, loose) && Local(w0, w, w', name, IdsOf(jobs, name), Ids(job'))
    requires forall n :: n in jobs ==> Ids(jobs[n]) <= w.scratch.Keys
    ensures ScratchOk(w', jobs[name := job'], loose)
  {
    var jobs' := jobs[name := job'];
    forall id | id in w'.scratch && id !in loose ensures exists n :: n in jobs' && id in Ids(jobs'[n]) {
      if id in Ids(job') {
        assert id in Ids(jobs'[name]);
      } else {
        var n :| n in jobs && id in Ids(jobs[n]);
        assert id in Ids(jobs'[n]);
      }
    }
  }

  /** A name's job goes on, or starts, holding other directories. */
  lemma JobMoves(cfg: Config, w0: World, s: Shop, loose: set<nat>, w': World, name: Name, job': Job)
    requires Inv(cfg, w0, s, loose) && name !in s.builds
    requires Local(w0, s.w, w', name, IdsOf(s.jobs, name), Ids(job'))
    requires JobOk(w0, w', job') && Belongs(cfg, name, job')
    ensures Inv(cfg, w0, Shop(w', s.jobs[name := job'], s.builds), loose)
  {
    OthersStay(cfg, w0, s, loose, w', name, Ids(job'));
    ScratchMoves(w0, s.w, s.jobs, loose, w', name, job');
    assert s.builds - {name} == s.builds;
    var jobs' := s.jobs[name := job'];
    forall n | n in jobs' ensures Belongs(cfg, n, jobs'[n]) && JobOk(w0, w', jobs'[n]) {
      assert n != name ==> n in s.jobs - {name};
    }
  }

  /** A name's job ends with a record; directories it lost track of are loose. */
  lemma JobEnds(cfg: Config, w0: World, s: Shop, loose: set<nat>, w': World, name: Name, lost: set<nat>, b: Build)
    requires Inv(cfg, w0, s, loose) && Local(w0, s.w, w', name, IdsOf(s.jobs, name), lost)
    requires lost !! s.w.scratch.Keys && BuildOk(w0, w', cfg, name, b)
    ensures Inv(cfg, w0, Shop(w', s.jobs - {name}, s.builds[name := b]), loose + lost)
  {
    OthersStay(cfg, w0, s, loose, w', name, lost);
    ScratchEnds(w0, s.w, s.jobs, loose, w', name, lost);
  }

  lemma ScratchEnds(w0: World, w: World, jobs: map<Name, Job>, loose: set<nat>, w': World, name: Name, lost: set<nat>)
    requires ScratchOk(w, jobs, loose) && Local(w0, w, w', name, IdsOf(jobs, name), lost) && lost !! w.scratch.Keys
    requires forall n :: n in jobs ==> Ids(jobs[n]) <= w.scratch.Keys
    ensures ScratchOk(w', jobs - {name}, loose + lost)
  {
    var jobs' := jobs - {name};
    forall id | id in w'.scratch && id !in loose + lost ensures exists n :: n in jobs' && id in Ids(jobs'[n]) {
      var n :| n in jobs && id in Ids(jobs[n]);
      assert n in jobs' && id in Ids(jobs'[n]);
    }
  }

  // ---------------------------------------------------------------- one guarded step

  /** An exception aborts the job and leaves a record of the failure. */
  function Guarded(s: Shop, name: Name, w': World, job': Option<Job>): Shop
    requires name in s.jobs
  {
    if job'.Some? then Shop(w', s.jobs[name := job'.value], s.builds)
    else Shop(Abort(w', s.jobs[name]), s.jobs - {name}, s.builds[name := Broken])
  }

  lemma GuardedKeeps(cfg: Config, w0: World, s: Shop, loose: set<nat>, name: Name, w': World, job': Option<Job>)
    requires Inv(cfg, w0, s, loose) && name in s.jobs && StageOk(w0, s.w, s.jobs[name], w', job')
    ensures Inv(cfg, w0, Guarded(s, name, w', job'), loose)
  {
    var job := s.jobs[name];
    if job'.Some? {
      JobMoves(cfg, w0, s, loose, w', name, job'.value);
    } else {
      AbortIsLocal(w0, w', job, job);
      LocalThenLocal(w0, s.w, w', Abort(w', job), name, Ids(job), Ids(job), {});
      JobEnds(cfg, w0, s, loose, Abort(w', job), name, {}, Broken);
      assert loose + {} == loose;
    }
  }
}
