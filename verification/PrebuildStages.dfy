/** The serial stages of a wave: constructors, stanc one model at a time, make one model at a time. */
module PrebuildStages {
  import opened Options
  import opened CmdstanJob
  import opened JobInvariants
  import opened JobStatus
  import opened Prebuild

  // ---------------------------------------------------------------- what every stage keeps

  /** From s0 to s only these names' jobs changed, no record did and no name got lost. */
  ghost predicate Moves(cfg: Config, w0: World, loose: set<nat>, s0: Shop, s: Shop, names: set<Name>) {
    && Inv(cfg, w0, s, loose)
    && (forall n :: (n in s.jobs || n in s.builds) <==> (n in s0.jobs || n in s0.builds))
    && (forall n :: n in s0.builds ==> n in s.builds && s.builds[n] == s0.builds[n])
    && (forall n :: n !in names ==> (n in s.jobs <==> n in s0.jobs))
    && (forall n :: n in s.jobs && n !in names ==> s.jobs[n] == s0.jobs[n])
  }

  /** Every new record is that of an exception. */
  ghost predicate OnlyFailures(s0: Shop, s: Shop) {
    forall n :: n in s.builds && n !in s0.builds ==> s.builds[n] == Broken
  }

  ghost predicate Advances(cfg: Config, w0: World, loose: set<nat>, s0: Shop, s: Shop, names: set<Name>) {
    Moves(cfg, w0, loose, s0, s, names) && OnlyFailures(s0, s)
  }

  lemma MovesOn(cfg: Config, w0: World, loose: set<nat>, s0: Shop, s1: Shop, s2: Shop, name: Name, names: set<Name>)
    requires Moves(cfg, w0, loose, s0, s1, names) && Moves(cfg, w0, loose, s1, s2, {name}) && name in names
    ensures Moves(cfg, w0, loose, s0, s2, names)
  { }

  lemma AdvancesTwice(cfg: Config, w0: World, loose: set<nat>, s0: Shop, s1: Shop, s2: Shop, a: set<Name>, b: set<Name>)
    requires Advances(cfg, w0, loose, s0, s1, a) && Advances(cfg, w0, loose, s1, s2, b)
    ensures Advances(cfg, w0, loose, s0, s2, a + b)
  { }

  lemma AdvancesOn(cfg: Config, w0: World, loose: set<nat>, s0: Shop, s1: Shop, s2: Shop, name: Name, names: set<Name>)
    requires Advances(cfg, w0, loose, s0, s1, names) && Advances(cfg, w0, loose, s1, s2, {name}) && name in names
    ensures Advances(cfg, w0, loose, s0, s2, names)
  {
    AdvancesTwice(cfg, w0, loose, s0, s1, s2, names, {name});
    assert names + {name} == names;
  }

  function JobIn(jobs: map<Name, Job>, name: Name): Option<Job> {
    if name in jobs then Some(jobs[name]) else None
  }

  function StatusIn(jobs: map<Name, Job>, name: Name): Status {
    StatusOf(JobIn(jobs, name))
  }

  lemma GuardedJobs(s: Shop, name: Name, w': World, job': Option<Job>)
    requires name in s.jobs
    ensures var s' := Guarded(s, name, w', job');
            && (forall n :: n in s'.jobs || n in s'.builds <==> n in s.jobs || n in s.builds)
            && (forall n :: n in s.builds && n != name ==> n in s'.builds && s'.builds[n] == s.builds[n])
            && (forall n :: n != name ==> (n in s'.jobs <==> n in s.jobs))
            && (forall n :: n in s'.jobs && n != name ==> s'.jobs[n] == s.jobs[n])
            && JobIn(s'.jobs, name) == job' && s'.w.log == w'.log && s'.w.entries == w'.entries
            && OnlyFailures(s, s')
  { }

  /** Apply what a stage did; an exception aborts the job and records the failure. */
  method Guard(cfg: Config, s: Shop, name: Name, w': World, job': Option<Job>, ghost w0: World, ghost loose: set<nat>)
    returns (s': Shop)
    requires Inv(cfg, w0, s, loose) && name in s.jobs && StageOk(w0, s.w, s.jobs[name], w', job')
    ensures Advances(cfg, w0, loose, s, s', {name}) && s'.w.log == w'.log && s'.w.entries == w'.entries
    ensures JobIn(s'.jobs, name) == job'
  {
    GuardedKeeps(cfg, w0, s, loose, name, w', job');
    GuardedJobs(s, name, w', job');
    s' := Guarded(s, name, w', job');
    assert name !in s.builds;
  }

  /** The driver stage is still to come. */
  predicate Undriven(job: Job) {
    job.driverScratch.None? && (!job.driverHit ==> job.build.gradient.None?)
  }

  /** The driver command is running. */
  predicate Started(job: Job) {
    && !job.driverHit && (job.hash.Some? ==> job.driverScratch.Some?) && job.build.gradient.None?
    && (job.modelHit ==> !Failed(job.build))
  }

  ghost predicate AllUndriven(jobs: map<Name, Job>) {
    forall n :: n in jobs ==> Undriven(jobs[n])
  }

  ghost predicate NoDup(names: seq<Name>) {
    forall i, j :: 0 <= i < j < |names| ==> names[i] != names[j]
  }

  ghost predicate Seen(names: seq<Name>, i: nat, n: Name)
    requires i <= |names|
  {
    exists j :: 0 <= j < i && names[j] == n
  }

  lemma SeenIsIn(names: seq<Name>)
    ensures forall n :: Seen(names, |names|, n) <==> n in names
  { }

  lemma SeenNext(names: seq<Name>, i: nat)
    requires i < |names|
    ensures forall n :: Seen(names, i + 1, n) <==> Seen(names, i, n) || n == names[i]
    ensures NoDup(names) ==> !Seen(names, i, names[i])
  {
    forall n ensures Seen(names, i + 1, n) <==> Seen(names, i, n) || n == names[i] { }
  }

  // ---------------------------------------------------------------- constructing the jobs

  /** One constructor: a job, or a record of the failure and perhaps a directory nobody owns. */
  method MakeJob(cfg: Config, s: Shop, name: Name, ghost w0: World, ghost loose: set<nat>)
    returns (s': Shop, ghost loose': set<nat>)
    requires Inv(cfg, w0, s, loose) && name !in s.jobs && name !in s.builds
    ensures Inv(cfg, w0, s', loose') && loose <= loose'
    ensures loose' == loose <==> !Leaks(cfg, s.w, name)
    ensures s'.w.entries == s.w.entries && s'.w.log == s.w.log
    ensures MadeOne(cfg, s, s', name)
  {
    ConstructIsLocal(cfg, w0, s.w, name);
    var (w', job) := Construct(cfg, s.w, name);
    if job.Some? {
      s', loose' := Shop(w', s.jobs[name := job.value], s.builds), loose;
      JobMoves(cfg, w0, s, loose, w', name, job.value);
    } else {
      ghost var lost :| Local(w0, s.w, w', name, {}, lost) && (lost == {} <==> !Leaks(cfg, s.w, name));
      s', loose' := Shop(w', s.jobs, s.builds[name := Broken]), loose + lost;
      JobEnds(cfg, w0, s, loose, w', name, lost, Broken);
      assert s.jobs - {name} == s.jobs;
    }
  }

  ghost predicate MadeOne(cfg: Config, s: Shop, s': Shop, name: Name) {
    && StatusIn(s'.jobs, name) == Initial(cfg, s.w, name)
    && if name in s'.jobs then
         s'.builds == s.builds && s'.jobs == s.jobs[name := s'.jobs[name]] && Undriven(s'.jobs[name])
       else s'.jobs == s.jobs && s'.builds == s.builds[name := Broken]
  }

  ghost predicate NoneLeaks(cfg: Config, w: World, wave: seq<Name>, n: nat)
    requires n <= |wave|
  {
    forall j :: 0 <= j < n ==> !Leaks(cfg, w, wave[j])
  }

  /** The first i names of the wave have a job or a record, and nothing else changed. */
  ghost predicate MadeUpTo(cfg: Config, s0: Shop, s: Shop, wave: seq<Name>, i: nat)
    requires i <= |wave|
  {
    && s.w.entries == s0.w.entries && s.w.log == s0.w.log && OnlyFailures(s0, s)
    && (forall n :: (n in s.jobs || n in s.builds) <==> (n in s0.builds || Seen(wave, i, n)))
    && (forall n :: n in s0.builds ==> n in s.builds && s.builds[n] == s0.builds[n])
    && (forall n :: n in s.jobs ==> Seen(wave, i, n))
    && AllUndriven(s.jobs)
    && (forall n :: Seen(wave, i, n) ==> StatusIn(s.jobs, n) == Initial(cfg, s0.w, n))
  }

  method MakeJobs(cfg: Config, s0: Shop, wave: seq<Name>, ghost w0: World, ghost loose0: set<nat>)
    returns (s: Shop, ghost loose: set<nat>)
    requires Inv(cfg, w0, s0, loose0) && s0.jobs == map[] && NoDup(wave) && forall n :: n in wave ==> n !in s0.builds
    ensures Inv(cfg, w0, s, loose) && loose0 <= loose && MadeUpTo(cfg, s0, s, wave, |wave|)
    ensures loose == loose0 <==> NoneLeaks(cfg, s0.w, wave, |wave|)
  {
    s, loose := s0, loose0;
    for i := 0 to |wave|
      invariant Inv(cfg, w0, s, loose) && loose0 <= loose && MadeUpTo(cfg, s0, s, wave, i)
      invariant loose == loose0 <==> NoneLeaks(cfg, s0.w, wave, i)
    {
      s, loose := MakeNext(cfg, s0, s, wave, i, w0, loose0, loose);
    }
  }

  method MakeNext(cfg: Config, ghost s0: Shop, s: Shop, wave: seq<Name>, i: nat, ghost w0: World,
                  ghost loose0: set<nat>, ghost loose: set<nat>) returns (s': Shop, ghost loose': set<nat>)
    requires i < |wave| && NoDup(wave) && (forall n :: n in wave ==> n !in s0.builds)
    requires Inv(cfg, w0, s, loose) && loose0 <= loose && MadeUpTo(cfg, s0, s, wave, i)
    requires loose == loose0 <==> NoneLeaks(cfg, s0.w, wave, i)
    ensures Inv(cfg, w0, s', loose') && loose0 <= loose' && MadeUpTo(cfg, s0, s', wave, i + 1)
    ensures loose' == loose0 <==> NoneLeaks(cfg, s0.w, wave, i + 1)
  {
    SeenNext(wave, i);
    SameEntriesSameFuture(cfg, s0.w, s.w, wave[i]);
    s', loose' := MakeJob(cfg, s, wave[i], w0, loose);
    OneMade(cfg, s0, s, s', wave, i);
    assert NoneLeaks(cfg, s0.w, wave, i + 1) <==> NoneLeaks(cfg, s0.w, wave, i) && !Leaks(cfg, s0.w, wave[i]);
  }

  lemma OneMade(cfg: Config, s0: Shop, s: Shop, s': Shop, wave: seq<Name>, i: nat)
    requires i < |wave| && MadeUpTo(cfg, s0, s, wave, i) && wave[i] !in s.jobs && wave[i] !in s.builds
    requires s'.w.entries == s.w.entries && s'.w.log == s.w.log && MadeOne(cfg, s, s', wave[i])
    requires Initial(cfg, s.w, wave[i]) == Initial(cfg, s0.w, wave[i])
    ensures MadeUpTo(cfg, s0, s', wave, i + 1)
  {
    SeenNext(wave, i);
  }

  // ---------------------------------------------------------------- serial stages

  ghost predicate Ready(w0: World, w: World, job: Job) {
    EntriesOk(w0, w) && JobOk(w0, w, job) && forall id :: id in w.scratch ==> id < w.next
  }

  /** What a serial stage does to the log: its command runs alone, or nothing runs. */
  ghost predicate RanAlone(w: World, w': World, stage: Stage, name: Name, ran: bool) {
    && w'.log == w.log + (if ran then RunOf(stage, name) else [])
    && Running(w'.log) == Some({}) && Traced(w.log, w'.log, if ran then {name} else {})
  }

  lemma AloneRuns(w: World, stage: Stage, name: Name)
    requires Running(w.log) == Some({})
    ensures RanAlone(w, Alone(w, stage, name), stage, name, true) && RanAlone(w, w, stage, name, false)
  {
    var c := Command(stage, name);
    AloneIsFine(w, stage, name);
    OneTrace(w.log, [Begin(c), End(c)], name);
    OneTrace(w.log, [], name);
    assert Alone(w, stage, name).log == w.log + [Begin(c), End(c)] && w.log + [] == w.log;
  }

  lemma StancLog(cfg: Config, w: World, job: Job)
    requires Running(w.log) == Some({})
    ensures var r := RunStanc(cfg, w, job);
            RanAlone(w, r.0, Stanc, job.name, !job.modelHit) && (Undriven(job) && r.1.Some? ==> Undriven(r.1.value))
  {
    AloneRuns(w, Stanc, job.name);
    assert AddFile(Alone(w, Stanc, job.name), job, Hpp).log == Alone(w, Stanc, job.name).log;
  }

  lemma MakeLog(cfg: Config, w: World, job: Job)
    requires Running(w.log) == Some({})
    ensures RanAlone(w, RunMake(cfg, w, job).0, Make, job.name, !job.modelHit)
  {
    AloneRuns(w, Make, job.name);
    assert AddFile(Alone(w, Make, job.name), job, Exe).log == Alone(w, Make, job.name).log;
  }

  method DoStanc(cfg: Config, w: World, job: Job, ghost w0: World) returns (w': World, job': Option<Job>)
    requires Ready(w0, w, job) && Running(w.log) == Some({})
    ensures StageOk(w0, w, job, w', job') && RanAlone(w, w', Stanc, job.name, !job.modelHit) && w'.entries == w.entries
    ensures Undriven(job) && job'.Some? ==> Undriven(job'.value)
    ensures StatusOf(job') == AfterStanc(cfg.fate(job.name), StatusOf(Some(job)))
  {
    StancKeeps(cfg, w0, w, job);
    StancLog(cfg, w, job);
    StancStatus(cfg, w, job);
    var r := RunStanc(cfg, w, job);
    w', job' := r.0, r.1;
  }

  method DoMake(cfg: Config, w: World, job: Job, ghost w0: World) returns (w': World, job': Option<Job>)
    requires Ready(w0, w, job) && Running(w.log) == Some({})
    ensures StageOk(w0, w, job, w', job') && RanAlone(w, w', Make, job.name, !job.modelHit)
    ensures w'.entries == w.entries
    ensures StatusOf(job') == AfterMake(cfg.fate(job.name), StatusOf(Some(job)))
  {
    MakeKeeps(cfg, w0, w, job);
    MakeLog(cfg, w, job);
    MakeStatus(cfg, w, job);
    var r := RunMake(cfg, w, job);
    w', job' := r.0, r.1;
  }

  /** A stage of one model: what it may touch, whether its command ran and what became of the job. */
  ghost predicate Staged(cfg: Config, w0: World, loose: set<nat>, s: Shop, s': Shop, stage: Stage, name: Name,
                         ran: bool, status: Status) {
    && Advances(cfg, w0, loose, s, s', {name}) && RanAlone(s.w, s'.w, stage, name, ran) && s'.w.entries == s.w.entries
    && StatusIn(s'.jobs, name) == status
  }

  method Stanc1(cfg: Config, s: Shop, name: Name, ghost w0: World, ghost loose: set<nat>) returns (s': Shop)
    requires Inv(cfg, w0, s, loose) && name in s.jobs && Running(s.w.log) == Some({}) && Undriven(s.jobs[name])
    ensures Staged(cfg, w0, loose, s, s', Stanc, name, !s.jobs[name].modelHit,
                   AfterStanc(cfg.fate(name), StatusIn(s.jobs, name)))
    ensures name in s'.jobs ==> Undriven(s'.jobs[name])
  {
    var w', job' := DoStanc(cfg, s.w, s.jobs[name], w0);
    s' := Guard(cfg, s, name, w', job', w0, loose);
  }

  method Make1(cfg: Config, s: Shop, name: Name, ghost w0: World, ghost loose: set<nat>) returns (s': Shop)
    requires Inv(cfg, w0, s, loose) && name in s.jobs && Running(s.w.log) == Some({})
    ensures Staged(cfg, w0, loose, s, s', Make, name, !s.jobs[name].modelHit,
                   AfterMake(cfg.fate(name), StatusIn(s.jobs, name)))
  {
    var w', job' := DoMake(cfg, s.w, s.jobs[name], w0);
    s' := Guard(cfg, s, name, w', job', w0, loose);
  }

  /** Among the first i models of the list, the missing ones with a job ran a command. */
  ghost predicate BusyUpTo(jobs: map<Name, Job>, list: seq<Name>, i: nat, busy: set<Name>)
    requires i <= |list|
  {
    forall n :: n in busy <==> Seen(list, i, n) && n in jobs && !jobs[n].modelHit
  }

  ghost predicate StatusUpTo(cfg: Config, jobs0: map<Name, Job>, jobs: map<Name, Job>, list: seq<Name>, i: nat,
                             step: (Fate, Status) -> Status)
    requires i <= |list|
  {
    forall n :: StatusIn(jobs, n) ==
      if Seen(list, i, n) then step(cfg.fate(n), StatusIn(jobs0, n)) else StatusIn(jobs0, n)
  }

  /** The busy models ran their command of this stage, one at a time. */
  ghost predicate LogGrew(log0: seq<Event>, log: seq<Event>, stage: Stage, busy: set<Name>) {
    && Running(log) == Some({}) && Traced(log0, log, busy) && Worked(log0, log, stage, busy, {})
    && NoWider(log0, log, 1)
  }

  lemma LogGrows(log0: seq<Event>, w: World, w': World, stage: Stage, busy: set<Name>, name: Name, ran: bool)
    requires LogGrew(log0, w.log, stage, busy) && RanAlone(w, w', stage, name, ran) && name !in busy
    ensures LogGrew(log0, w'.log, stage, busy + if ran then {name} else {})
  {
    TracedThen(log0, w.log, w'.log, busy, if ran then {name} else {});
    AloneIsNarrow(w.log, stage, name);
    WorkedOn(log0, w.log, w'.log, stage, busy, name, ran);
    if !ran {
      assert w'.log == w.log;
    }
  }

  /** The first i models of the list have been through a serial stage that turns statuses as `step` says. */
  ghost predicate SerialUpTo(cfg: Config, w0: World, loose: set<nat>, s0: Shop, s: Shop, list: seq<Name>, i: nat,
                             busy: set<Name>, stage: Stage, step: (Fate, Status) -> Status)
    requires i <= |list|
  {
    && Advances(cfg, w0, loose, s0, s, set n | n in list) && s.w.entries == s0.w.entries
    && LogGrew(s0.w.log, s.w.log, stage, busy)
    && BusyUpTo(s0.jobs, list, i, busy) && StatusUpTo(cfg, s0.jobs, s.jobs, list, i, step)
  }

  lemma SerialStarts(cfg: Config, w0: World, loose: set<nat>, s0: Shop, list: seq<Name>, stage: Stage,
                     step: (Fate, Status) -> Status)
    requires Inv(cfg, w0, s0, loose) && Running(s0.w.log) == Some({})
    ensures SerialUpTo(cfg, w0, loose, s0, s0, list, 0, {}, stage, step)
  {
    assert Traced(s0.w.log, s0.w.log, {});
  }

  lemma BusyNext(jobs: map<Name, Job>, list: seq<Name>, i: nat, busy: set<Name>, missed: bool)
    requires i < |list| && BusyUpTo(jobs, list, i, busy) && (missed <==> list[i] in jobs && !jobs[list[i]].modelHit)
    ensures BusyUpTo(jobs, list, i + 1, busy + if missed then {list[i]} else {})
  {
    SeenNext(list, i);
  }

  lemma StatusNext(cfg: Config, jobs0: map<Name, Job>, jobs: map<Name, Job>, jobs': map<Name, Job>, list: seq<Name>,
                   i: nat, step: (Fate, Status) -> Status)
    requires i < |list| && NoDup(list) && StatusUpTo(cfg, jobs0, jobs, list, i, step)
    requires StatusIn(jobs', list[i]) == step(cfg.fate(list[i]), StatusIn(jobs, list[i]))
    requires forall n :: n != list[i] ==> StatusIn(jobs', n) == StatusIn(jobs, n)
    ensures StatusUpTo(cfg, jobs0, jobs', list, i + 1, step)
    ensures StatusIn(jobs, list[i]) == StatusIn(jobs0, list[i])
  {
    SeenNext(list, i);
  }

  lemma OthersAdvance(cfg: Config, w0: World, loose: set<nat>, s: Shop, s': Shop, name: Name)
    requires Moves(cfg, w0, loose, s, s', {name})
    ensures forall n :: n != name ==> JobIn(s'.jobs, n) == JobIn(s.jobs, n)
  {
    forall n | n != name ensures JobIn(s'.jobs, n) == JobIn(s.jobs, n) {
      assert n !in {name};
    }
  }

  lemma SerialNext(cfg: Config, w0: World, loose: set<nat>, s0: Shop, s: Shop, s': Shop, list: seq<Name>, i: nat,
                   busy: set<Name>, stage: Stage, step: (Fate, Status) -> Status)
    requires i < |list| && NoDup(list) && SerialUpTo(cfg, w0, loose, s0, s, list, i, busy, stage, step)
    requires list[i] in s.jobs
    requires var name := list[i];
             Staged(cfg, w0, loose, s, s', stage, name, !s.jobs[name].modelHit,
                    step(cfg.fate(name), StatusIn(s.jobs, name)))
    ensures SerialUpTo(cfg, w0, loose, s0, s', list, i + 1,
                       busy + if !s.jobs[list[i]].modelHit then {list[i]} else {}, stage, step)
  {
    var name := list[i];
    var missed := !s.jobs[name].modelHit;
    OthersAdvance(cfg, w0, loose, s, s', name);
    StatusNext(cfg, s0.jobs, s.jobs, s'.jobs, list, i, step);
    BusyNext(s0.jobs, list, i, busy, missed);
    AdvancesOn(cfg, w0, loose, s0, s, s', name, set n | n in list);
    SeenNext(list, i);
    LogGrows(s0.w.log, s.w, s'.w, stage, busy, name, missed);
  }

  lemma WorkedOn(log0: seq<Event>, log: seq<Event>, log': seq<Event>, stage: Stage, busy: set<Name>, name: Name,
                 ran: bool)
    requires Worked(log0, log, stage, busy, {}) && name !in busy
    requires log' == log + if ran then RunOf(stage, name) else []
    ensures Worked(log0, log', stage, busy + if ran then {name} else {}, {})
  {
    if ran {
      WorkedAlone(log0, log, stage, busy, name);
    } else {
      assert log' == log && busy + {} == busy;
    }
  }

  lemma SerialSkips(cfg: Config, w0: World, loose: set<nat>, s0: Shop, s: Shop, list: seq<Name>, i: nat,
                    busy: set<Name>, stage: Stage, step: (Fate, Status) -> Status)
    requires i < |list| && NoDup(list) && SerialUpTo(cfg, w0, loose, s0, s, list, i, busy, stage, step)
    requires list[i] !in s.jobs
    requires step(cfg.fate(list[i]), Dead) == Dead
    ensures SerialUpTo(cfg, w0, loose, s0, s, list, i + 1, busy, stage, step)
  {
    StatusNext(cfg, s0.jobs, s.jobs, s.jobs, list, i, step);
    BusyNext(s0.jobs, list, i, busy, false);
    assert busy + {} == busy;
  }

  method Stancs(cfg: Config, s0: Shop, misses: seq<Name>, ghost w0: World, ghost loose: set<nat>)
    returns (s: Shop, ghost busy: set<Name>)
    requires Inv(cfg, w0, s0, loose) && Running(s0.w.log) == Some({}) && NoDup(misses) && AllUndriven(s0.jobs)
    ensures SerialUpTo(cfg, w0, loose, s0, s, misses, |misses|, busy, Stanc, AfterStanc) && AllUndriven(s.jobs)
  {
    s, busy := s0, {};
    SerialStarts(cfg, w0, loose, s0, misses, Stanc, AfterStanc);
    for i := 0 to |misses|
      invariant SerialUpTo(cfg, w0, loose, s0, s, misses, i, busy, Stanc, AfterStanc) && AllUndriven(s.jobs)
    {
      if misses[i] in s.jobs {
        var s' := Stanc1(cfg, s, misses[i], w0, loose);
        SerialNext(cfg, w0, loose, s0, s, s', misses, i, busy, Stanc, AfterStanc);
        StayUndriven(cfg, w0, loose, s, s', misses[i]);
        busy := busy + if !s.jobs[misses[i]].modelHit then {misses[i]} else {};
        s := s';
      } else {
        SerialSkips(cfg, w0, loose, s0, s, misses, i, busy, Stanc, AfterStanc);
      }
    }
  }

  lemma StayUndriven(cfg: Config, w0: World, loose: set<nat>, s: Shop, s': Shop, name: Name)
    requires Advances(cfg, w0, loose, s, s', {name}) && AllUndriven(s.jobs)
    requires name in s'.jobs ==> Undriven(s'.jobs[name])
    ensures AllUndriven(s'.jobs)
  {
    OthersAdvance(cfg, w0, loose, s, s', name);
    forall n | n in s'.jobs && n != name ensures Undriven(s'.jobs[n]) {
      assert JobIn(s'.jobs, n) == JobIn(s.jobs, n);
    }
  }

  method Makes(cfg: Config, s0: Shop, ready: seq<Name>, ghost w0: World, ghost loose: set<nat>)
    returns (s: Shop, ghost busy: set<Name>)
    requires Inv(cfg, w0, s0, loose) && Running(s0.w.log) == Some({}) && NoDup(ready)
    ensures SerialUpTo(cfg, w0, loose, s0, s, ready, |ready|, busy, Make, AfterMake)
  {
    s, busy := s0, {};
    SerialStarts(cfg, w0, loose, s0, ready, Make, AfterMake);
    for i := 0 to |ready|
      invariant SerialUpTo(cfg, w0, loose, s0, s, ready, i, busy, Make, AfterMake)
    {
      if ready[i] in s.jobs {
        var s' := Make1(cfg, s, ready[i], w0, loose);
        SerialNext(cfg, w0, loose, s0, s, s', ready, i, busy, Make, AfterMake);
        busy := busy + if !s.jobs[ready[i]].modelHit then {ready[i]} else {};
        s := s';
      } else {
        SerialSkips(cfg, w0, loose, s0, s, ready, i, busy, Make, AfterMake);
      }
    }
  }
}
