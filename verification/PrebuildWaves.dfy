/** A wave: its stages in order, then the publishing of every build. */
module PrebuildWaves {
  import opened Options
  import opened CmdstanJob
  import opened JobInvariants
  import opened JobStatus
  import opened JobRecords
  import opened Prebuild
  import opened PrebuildStages
  import opened PrebuildPool

  // ---------------------------------------------------------------- stanc, drivers, make

  method Misses(s: Shop, wave: seq<Name>) returns (misses: seq<Name>)
    requires NoDup(wave)
    ensures NoDup(misses)
    ensures forall n :: n in misses <==> n in wave && n in s.jobs && !s.jobs[n].build.hit
  {
    misses := [];
    for i := 0 to |wave|
      invariant NoDup(misses)
      invariant forall n :: n in misses <==> n in wave[..i] && n in s.jobs && !s.jobs[n].build.hit
    {
      if wave[i] in s.jobs && !s.jobs[wave[i]].build.hit {
        assert forall j :: 0 <= j < |misses| ==> misses[j] in misses;
        misses := misses + [wave[i]];
      }
    }
  }

  method ReadyNames(s: Shop, misses: seq<Name>) returns (ready: seq<Name>)
    requires NoDup(misses)
    ensures NoDup(ready)
    ensures forall n :: n in ready <==> n in misses && n in s.jobs && HeaderReady(s.jobs[n])
  {
    ready := [];
    for i := 0 to |misses|
      invariant NoDup(ready)
      invariant forall n :: n in ready <==> n in misses[..i] && n in s.jobs && HeaderReady(s.jobs[n])
    {
      if misses[i] in s.jobs && HeaderReady(s.jobs[misses[i]]) {
        assert forall j :: 0 <= j < |ready| ==> ready[j] in ready;
        ready := ready + [misses[i]];
      }
    }
  }

  /** Where a model stands before the stages and after each of them. */
  ghost predicate Passed(f: Fate, missed: bool, ready: bool, st0: Status, st1: Status, st2: Status, st3: Status) {
    && (missed ==> st1 == AfterStanc(f, st0)) && (!missed ==> st1 == st0)
    && (ready ==> st2 == AfterDriver(f, st1) && st3 == AfterMake(f, st2))
    && (!ready ==> st3 == st2 == st1)
  }

  /** Every model that had a job goes through all stages, and runs commands exactly when it should. */
  lemma PassesAll(cfg: Config, name: Name, missed: bool, ready: bool, st0: Status, st1: Status, st2: Status,
                  st3: Status)
    requires Passed(cfg.fate(name), missed, ready, st0, st1, st2, st3)
    requires st0.Alive? && (missed <==> !(st0.modelHit && st0.driverHit)) && (ready <==> missed && IsReady(st1))
    ensures st3 == Final(cfg.fate(name), st0)
    ensures RunsFrom(cfg, name, st0) <==>
      || (missed && !st0.modelHit)
      || (ready && !st1.driverHit && Starts(cfg, name))
      || (ready && st2.Alive? && !st2.modelHit)
  { }

  ghost predicate Went(cfg: Config, jobs0: map<Name, Job>, jobs: map<Name, Job>, busy: set<Name>) {
    && (forall n :: n in jobs0 ==> StatusIn(jobs, n) == Final(cfg.fate(n), StatusIn(jobs0, n)))
    && (forall n :: n in busy <==> n in jobs0 && RunsFrom(cfg, n, StatusIn(jobs0, n)))
  }

  /** The lists a wave works through: what misses the cache, and what has its header. */
  ghost predicate Lists(jobs0: map<Name, Job>, jobs1: map<Name, Job>, misses: seq<Name>, ready: seq<Name>) {
    && (forall n :: n in misses <==> n in jobs0 && !(jobs0[n].modelHit && jobs0[n].driverHit))
    && (forall n :: n in ready <==> n in misses && IsReady(StatusIn(jobs1, n)))
  }

  ghost predicate DriversDone(cfg: Config, jobs1: map<Name, Job>, jobs2: map<Name, Job>, ready: seq<Name>,
                              busy: set<Name>) {
    && (forall n :: StatusIn(jobs2, n) ==
          if n in ready then AfterDriver(cfg.fate(n), StatusIn(jobs1, n)) else StatusIn(jobs1, n))
    && (forall n :: n in busy <==> n in ready && RunsDriver(cfg, jobs1, n))
  }

  lemma AllWent(cfg: Config, jobs0: map<Name, Job>, jobs1: map<Name, Job>, jobs2: map<Name, Job>, jobs: map<Name, Job>,
                misses: seq<Name>, ready: seq<Name>, b1: set<Name>, b2: set<Name>, b3: set<Name>)
    requires Lists(jobs0, jobs1, misses, ready)
    requires BusyUpTo(jobs0, misses, |misses|, b1) && StatusUpTo(cfg, jobs0, jobs1, misses, |misses|, AfterStanc)
    requires DriversDone(cfg, jobs1, jobs2, ready, b2)
    requires BusyUpTo(jobs2, ready, |ready|, b3) && StatusUpTo(cfg, jobs2, jobs, ready, |ready|, AfterMake)
    ensures Went(cfg, jobs0, jobs, b1 + b2 + b3)
  {
    SeenIsIn(misses);
    SeenIsIn(ready);
    forall n ensures n in jobs0 ==> StatusIn(jobs, n) == Final(cfg.fate(n), StatusIn(jobs0, n))
      ensures n in b1 + b2 + b3 <==> n in jobs0 && RunsFrom(cfg, n, StatusIn(jobs0, n))
    {
      if n in jobs0 {
        PassesAll(cfg, n, n in misses, n in ready,
                  StatusIn(jobs0, n), StatusIn(jobs1, n), StatusIn(jobs2, n), StatusIn(jobs, n));
      }
    }
  }

  /** Each model ran the commands that its status after the constructor says, and no other. */
  ghost predicate AllRan(cfg: Config, jobs0: map<Name, Job>, log0: seq<Event>, log: seq<Event>) {
    forall n {:trigger Of(log, n)} :: Of(log, n) == Of(log0, n) + CommandsFrom(cfg, n, StatusIn(jobs0, n))
  }

  lemma ThreeStages(cfg: Config, jobs0: map<Name, Job>, jobs1: map<Name, Job>, jobs2: map<Name, Job>,
                    misses: seq<Name>, ready: seq<Name>, b1: set<Name>, b2: set<Name>, b3: set<Name>,
                    log0: seq<Event>, log1: seq<Event>, log2: seq<Event>, log: seq<Event>)
    requires Lists(jobs0, jobs1, misses, ready)
    requires BusyUpTo(jobs0, misses, |misses|, b1) && StatusUpTo(cfg, jobs0, jobs1, misses, |misses|, AfterStanc)
    requires DriversDone(cfg, jobs1, jobs2, ready, b2) && BusyUpTo(jobs2, ready, |ready|, b3)
    requires Worked(log0, log1, Stanc, b1, {}) && Worked(log1, log2, Driver, b2, {}) && Worked(log2, log, Make, b3, {})
    ensures AllRan(cfg, jobs0, log0, log)
  {
    forall n ensures Of(log, n) == Of(log0, n) + CommandsFrom(cfg, n, StatusIn(jobs0, n)) {
      StagesOf(cfg, jobs0, jobs1, jobs2, misses, ready, b1, b2, b3, n);
      SharesAddUp(log0, log1, log2, log, b1, b2, b3, n);
    }
  }

  lemma StagesOf(cfg: Config, jobs0: map<Name, Job>, jobs1: map<Name, Job>, jobs2: map<Name, Job>, misses: seq<Name>,
                 ready: seq<Name>, b1: set<Name>, b2: set<Name>, b3: set<Name>, n: Name)
    requires Lists(jobs0, jobs1, misses, ready)
    requires BusyUpTo(jobs0, misses, |misses|, b1) && StatusUpTo(cfg, jobs0, jobs1, misses, |misses|, AfterStanc)
    requires DriversDone(cfg, jobs1, jobs2, ready, b2) && BusyUpTo(jobs2, ready, |ready|, b3)
    ensures CommandsFrom(cfg, n, StatusIn(jobs0, n)) == ShareOf(n, n in b1, n in b2, n in b3)
  {
    SeenIsIn(misses);
    SeenIsIn(ready);
    OneRan(cfg, n, n in misses, n in ready, n in b1, n in b2, n in b3,
           StatusIn(jobs0, n), StatusIn(jobs1, n), StatusIn(jobs2, n));
  }

  function ShareOf(n: Name, stanc: bool, driver: bool, make: bool): seq<Event> {
    (if stanc then RunOf(Stanc, n) else []) + (if driver then RunOf(Driver, n) else []) +
    (if make then RunOf(Make, n) else [])
  }

  lemma SharesAddUp(log0: seq<Event>, log1: seq<Event>, log2: seq<Event>, log: seq<Event>, b1: set<Name>,
                    b2: set<Name>, b3: set<Name>, n: Name)
    requires Worked(log0, log1, Stanc, b1, {}) && Worked(log1, log2, Driver, b2, {}) && Worked(log2, log, Make, b3, {})
    ensures Of(log, n) == Of(log0, n) + ShareOf(n, n in b1, n in b2, n in b3)
  {
    assert WorkedAt(log2, log, Make, b3, {}, n) && WorkedAt(log1, log2, Driver, b2, {}, n);
    assert WorkedAt(log0, log1, Stanc, b1, {}, n);
  }

  lemma OneRan(cfg: Config, n: Name, missed: bool, ready: bool, stanc: bool, driver: bool, make: bool,
               st0: Status, st1: Status, st2: Status)
    requires missed <==> st0.Alive? && !(st0.modelHit && st0.driverHit)
    requires ready <==> missed && IsReady(st1)
    requires st1 == if missed then AfterStanc(cfg.fate(n), st0) else st0
    requires st2 == if ready then AfterDriver(cfg.fate(n), st1) else st1
    requires stanc <==> missed && st0.Alive? && !st0.modelHit
    requires driver <==> ready && st1.Alive? && !st1.driverHit && Starts(cfg, n)
    requires make <==> ready && st2.Alive? && !st2.modelHit
    ensures CommandsFrom(cfg, n, st0) == ShareOf(n, stanc, driver, make)
  { }

  /** One stage after another. */
  ghost predicate Along(cfg: Config, w0: World, loose: set<nat>, s0: Shop, s: Shop, names: set<Name>, busy: set<Name>) {
    && Advances(cfg, w0, loose, s0, s, names) && s.w.entries == s0.w.entries
    && Running(s.w.log) == Some({}) && Traced(s0.w.log, s.w.log, busy)
  }

  lemma AlongThen(cfg: Config, w0: World, loose: set<nat>, s0: Shop, s1: Shop, s2: Shop, a: set<Name>, b: set<Name>,
                  names: set<Name>, x: set<Name>, y: set<Name>)
    requires Along(cfg, w0, loose, s0, s1, a, x) && Along(cfg, w0, loose, s1, s2, b, y) && a <= names && b <= names
    ensures Along(cfg, w0, loose, s0, s2, names, x + y)
  {
    AdvancesTwice(cfg, w0, loose, s0, s1, s2, a, b);
    TracedThen(s0.w.log, s1.w.log, s2.w.log, x, y);
  }

  method DriverStage(cfg: Config, s0: Shop, ready: seq<Name>, workers: nat, ghost w0: World, ghost loose: set<nat>)
    returns (s: Shop, ghost busy: set<Name>)
    requires Inv(cfg, w0, s0, loose) && Running(s0.w.log) == Some({}) && workers >= 1 && AllUndriven(s0.jobs)
    requires forall n :: n in ready ==> n in s0.jobs
    ensures Along(cfg, w0, loose, s0, s, (set n | n in ready), busy) && DriversDone(cfg, s0.jobs, s.jobs, ready, busy)
    ensures Worked(s0.w.log, s.w.log, Driver, busy, {}) && NoWider(s0.w.log, s.w.log, workers)
  {
    s, busy := RunDrivers(cfg, s0, (set n | n in ready), workers, w0, loose);
    forall n | n !in ready ensures StatusIn(s.jobs, n) == StatusIn(s0.jobs, n) {
      assert n !in (set m | m in ready);
    }
  }

  lemma ListsAre(cfg: Config, w0: World, s0: Shop, s1: Shop, loose: set<nat>, wave: seq<Name>, misses: seq<Name>,
                 ready: seq<Name>)
    requires JobsOk(cfg, w0, s0.w, s0.jobs) && (forall n :: n in s0.jobs ==> n in wave)
    requires forall n :: n in misses <==> n in wave && n in s0.jobs && !s0.jobs[n].build.hit
    requires forall n :: n in ready <==> n in misses && n in s1.jobs && HeaderReady(s1.jobs[n])
    ensures Lists(s0.jobs, s1.jobs, misses, ready)
  { }

  /** stanc one at a time, drivers together, make one at a time. */
  method BuildStages(cfg: Config, s0: Shop, wave: seq<Name>, workers: nat, ghost w0: World, ghost loose: set<nat>)
    returns (s: Shop, ghost busy: set<Name>)
    requires Inv(cfg, w0, s0, loose) && Running(s0.w.log) == Some({}) && workers >= 1
    requires NoDup(wave) && AllUndriven(s0.jobs) && forall n :: n in s0.jobs ==> n in wave
    ensures Along(cfg, w0, loose, s0, s, (set n | n in wave), busy) && Went(cfg, s0.jobs, s.jobs, busy)
    ensures AllRan(cfg, s0.jobs, s0.w.log, s.w.log) && NoWider(s0.w.log, s.w.log, workers)
  {
    ghost var names := set n | n in wave;
    var misses := Misses(s0, wave);
    var s1, b1 := Stancs(cfg, s0, misses, w0, loose);
    var ready := ReadyNames(s1, misses);
    var s2, b2 := DriverStage(cfg, s1, ready, workers, w0, loose);
    ghost var b3;
    s, b3 := Makes(cfg, s2, ready, w0, loose);
    busy := b1 + b2 + b3;
    ListsAre(cfg, w0, s0, s1, loose, wave, misses, ready);
    AllWent(cfg, s0.jobs, s1.jobs, s2.jobs, s.jobs, misses, ready, b1, b2, b3);
    ThreeStages(cfg, s0.jobs, s1.jobs, s2.jobs, misses, ready, b1, b2, b3, s0.w.log, s1.w.log, s2.w.log, s.w.log);
    AlongThen(cfg, w0, loose, s0, s1, s2, (set n | n in misses), (set n | n in ready), names, b1, b2);
    AlongThen(cfg, w0, loose, s0, s2, s, names, (set n | n in ready), names, b1 + b2, b3);
  }

  // ---------------------------------------------------------------- finishing

  method DoFinish(cfg: Config, w: World, job: Job, ghost w0: World) returns (w': World, build: Option<Build>)
    requires Ready(w0, w, job) && Belongs(cfg, job.name, job) && GotThrough(StatusOf(Some(job)))
    ensures Local(w0, w, w', job.name, Ids(job), {}) && w'.log == w.log
    ensures build.Some? ==> BuildOk(w0, w', cfg, job.name, build.value)
    ensures forall key :: !Free(w'.entries, key) <==>
      !Free(w.entries, key) || Fills(cfg, job.name, StatusOf(Some(job)), key)
    ensures build == RecordFrom(cfg, job.name, StatusOf(Some(job)))
  {
    FinishKeeps(cfg, w0, w, job);
    FinishRecord(cfg, w0, w, job);
    FinishRunsNothing(cfg, w, job);
    var r := Finish(cfg, w, job);
    w', build := r.0, r.1;
    forall key ensures !Free(w'.entries, key) <==>
        !Free(w.entries, key) || Fills(cfg, job.name, StatusOf(Some(job)), key) {
      FinishFills(cfg, w0, w, job, key);
    }
  }

  method Finish1(cfg: Config, s: Shop, name: Name, ghost w0: World, ghost loose: set<nat>) returns (s': Shop)
    requires Inv(cfg, w0, s, loose) && name in s.jobs && GotThrough(StatusIn(s.jobs, name))
    ensures Moves(cfg, w0, loose, s, s', {name}) && s'.w.log == s.w.log && name !in s'.jobs
    ensures name in s'.builds && s'.builds[name] == Noted(cfg, name, StatusIn(s.jobs, name))
    ensures forall key :: !Free(s'.w.entries, key) <==>
      !Free(s.w.entries, key) || Fills(cfg, name, StatusIn(s.jobs, name), key)
  {
    var w', build := DoFinish(cfg, s.w, s.jobs[name], w0);
    var record := if build.Some? then build.value else Broken;
    JobEnds(cfg, w0, s, loose, w', name, {}, record);
    assert loose + {} == loose;
    s' := Shop(w', s.jobs - {name}, s.builds[name := record]);
  }

  /** One of the first i models of the wave fills this key. */
  ghost predicate SomeFills(cfg: Config, jobs: map<Name, Job>, wave: seq<Name>, i: nat, key: Key)
    requires i <= |wave|
  {
    exists j :: 0 <= j < i && Fills(cfg, wave[j], StatusIn(jobs, wave[j]), key)
  }

  /** The first i models of the wave have no job left, and the cache holds what they committed. */
  ghost predicate FinishedUpTo(cfg: Config, s0: Shop, s: Shop, wave: seq<Name>, i: nat)
    requires i <= |wave|
  {
    && s.w.log == s0.w.log
    && (forall n :: JobIn(s.jobs, n) == if Seen(wave, i, n) then None else JobIn(s0.jobs, n))
    && (forall n :: Seen(wave, i, n) && n in s0.jobs ==>
          n in s.builds && s.builds[n] == Noted(cfg, n, StatusIn(s0.jobs, n)))
    && (forall key :: !Free(s.w.entries, key) <==> !Free(s0.w.entries, key) || SomeFills(cfg, s0.jobs, wave, i, key))
  }

  lemma FinishedNext(cfg: Config, s0: Shop, s: Shop, s': Shop, wave: seq<Name>, i: nat)
    requires i < |wave| && NoDup(wave) && FinishedUpTo(cfg, s0, s, wave, i) && s'.w.log == s.w.log
    requires forall n :: JobIn(s'.jobs, n) == if n == wave[i] then None else JobIn(s.jobs, n)
    requires wave[i] in s.jobs ==>
      wave[i] in s'.builds && s'.builds[wave[i]] == Noted(cfg, wave[i], StatusIn(s.jobs, wave[i]))
    requires forall n :: n in s.builds ==> n in s'.builds && s'.builds[n] == s.builds[n]
    requires forall key :: !Free(s'.w.entries, key) <==>
      !Free(s.w.entries, key) || Fills(cfg, wave[i], StatusIn(s.jobs, wave[i]), key)
    ensures FinishedUpTo(cfg, s0, s', wave, i + 1)
  {
    SeenNext(wave, i);
    forall key ensures SomeFills(cfg, s0.jobs, wave, i + 1, key) <==>
                       SomeFills(cfg, s0.jobs, wave, i, key) || Fills(cfg, wave[i], StatusIn(s0.jobs, wave[i]), key) { }
  }

  ghost predicate AllThrough(jobs: map<Name, Job>) {
    forall n :: n in jobs ==> GotThrough(StatusIn(jobs, n))
  }

  method FinishOn(cfg: Config, ghost s0: Shop, s: Shop, wave: seq<Name>, i: nat, ghost w0: World, ghost loose: set<nat>)
    returns (s': Shop)
    requires i < |wave| && NoDup(wave) && FinishedUpTo(cfg, s0, s, wave, i) && AllThrough(s0.jobs)
    requires Moves(cfg, w0, loose, s0, s, set n | n in wave)
    ensures Moves(cfg, w0, loose, s0, s', set n | n in wave) && FinishedUpTo(cfg, s0, s', wave, i + 1)
  {
    if wave[i] in s.jobs {
      assert JobIn(s.jobs, wave[i]) == JobIn(s0.jobs, wave[i]);
      s' := Finish1(cfg, s, wave[i], w0, loose);
      MovesOn(cfg, w0, loose, s0, s, s', wave[i], set n | n in wave);
      OthersAdvance(cfg, w0, loose, s, s', wave[i]);
    } else {
      s' := s;
    }
    FinishedNext(cfg, s0, s, s', wave, i);
  }

  method Finishes(cfg: Config, s0: Shop, wave: seq<Name>, ghost w0: World, ghost loose: set<nat>) returns (s: Shop)
    requires Inv(cfg, w0, s0, loose) && NoDup(wave) && AllThrough(s0.jobs)
    ensures Moves(cfg, w0, loose, s0, s, set n | n in wave) && FinishedUpTo(cfg, s0, s, wave, |wave|)
  {
    s := s0;
    for i := 0 to |wave|
      invariant Moves(cfg, w0, loose, s0, s, set n | n in wave) && FinishedUpTo(cfg, s0, s, wave, i)
    {
      s := FinishOn(cfg, s0, s, wave, i, w0, loose);
    }
  }

  // ---------------------------------------------------------------- a wave

  /** All records are there, earlier ones are unchanged and no job is left. */
  ghost predicate Settled(s0: Shop, s: Shop, names: set<Name>) {
    && s.jobs == map[]
    && (forall n :: n in s.builds <==> n in s0.builds || n in names)
    && (forall n :: n in s0.builds ==> s.builds[n] == s0.builds[n])
  }

  /** Some model of the wave commits an entry under this key, judged by the cache it starts from. */
  ghost predicate Committed(cfg: Config, w: World, wave: seq<Name>, key: Key) {
    exists n :: n in wave && Commits(cfg, w, n, key)
  }

  lemma FillsAreCommits(cfg: Config, w: World, jobs0: map<Name, Job>, jobs: map<Name, Job>, busy: set<Name>,
                        wave: seq<Name>, key: Key)
    requires forall n :: n in wave ==> StatusIn(jobs0, n) == Initial(cfg, w, n)
    requires forall n :: n in jobs ==> n in jobs0
    requires Went(cfg, jobs0, jobs, busy)
    ensures SomeFills(cfg, jobs, wave, |wave|, key) <==> Committed(cfg, w, wave, key)
  {
    forall n | n in wave ensures Fills(cfg, n, StatusIn(jobs, n), key) <==> Commits(cfg, w, n, key) {
      CommitsIsExact(cfg, w, n, key);
      assert n in jobs0 ==> StatusIn(jobs, n) == Final(cfg.fate(n), StatusIn(jobs0, n));
    }
    if Committed(cfg, w, wave, key) {
      var n :| n in wave && Commits(cfg, w, n, key);
      var j :| 0 <= j < |wave| && wave[j] == n;
      assert Fills(cfg, wave[j], StatusIn(jobs, wave[j]), key);
    }
  }

  lemma BusyAreRunning(cfg: Config, w: World, jobs0: map<Name, Job>, jobs: map<Name, Job>, busy: set<Name>,
                       wave: seq<Name>)
    requires forall n :: n in wave ==> StatusIn(jobs0, n) == Initial(cfg, w, n)
    requires forall n :: n in jobs0 ==> n in wave
    requires Went(cfg, jobs0, jobs, busy)
    ensures forall n :: n in busy <==> n in wave && Runs(cfg, w, n)
  {
    forall n ensures n in busy <==> n in wave && Runs(cfg, w, n) {
      RunsIsExact(cfg, w, n);
    }
  }

  method RunJobs(cfg: Config, s0: Shop, wave: seq<Name>, workers: nat, ghost w0: World, ghost loose: set<nat>)
    returns (s: Shop, ghost busy: set<Name>, ghost built: map<Name, Job>)
    requires Inv(cfg, w0, s0, loose) && Running(s0.w.log) == Some({}) && workers >= 1
    requires NoDup(wave) && AllUndriven(s0.jobs) && forall n :: n in s0.jobs ==> n in wave
    requires forall n :: n in s0.jobs ==> Fresh(StatusIn(s0.jobs, n))
    ensures Inv(cfg, w0, s, loose) && Settled(s0, s, s0.jobs.Keys)
    ensures Running(s.w.log) == Some({}) && Traced(s0.w.log, s.w.log, busy) && Went(cfg, s0.jobs, built, busy)
    ensures built.Keys <= s0.jobs.Keys
    ensures forall key :: !Free(s.w.entries, key) <==>
      !Free(s0.w.entries, key) || SomeFills(cfg, built, wave, |wave|, key)
    ensures forall n :: n in s0.jobs ==>
      n in s.builds && s.builds[n] == Noted(cfg, n, Final(cfg.fate(n), StatusIn(s0.jobs, n)))
    ensures AllRan(cfg, s0.jobs, s0.w.log, s.w.log) && NoWider(s0.w.log, s.w.log, workers)
  {
    var s1;
    s1, busy := BuildStages(cfg, s0, wave, workers, w0, loose);
    built := s1.jobs;
    WentThrough(cfg, w0, loose, s0, s1, wave, busy);
    s := Finishes(cfg, s1, wave, w0, loose);
    SeenIsIn(wave);
    NothingLeft(cfg, w0, loose, s0, s1, s, wave);
    AllNoted(cfg, w0, loose, s0, s1, s, wave, busy);
  }

  lemma WentThrough(cfg: Config, w0: World, loose: set<nat>, s0: Shop, s1: Shop, wave: seq<Name>, busy: set<Name>)
    requires Moves(cfg, w0, loose, s0, s1, set n | n in wave) && Went(cfg, s0.jobs, s1.jobs, busy)
    requires (forall n :: n in s0.jobs ==> Fresh(StatusIn(s0.jobs, n))) && Inv(cfg, w0, s0, loose)
    ensures AllThrough(s1.jobs)
  {
    forall n | n in s1.jobs ensures GotThrough(StatusIn(s1.jobs, n)) {
      assert n in s0.jobs;
      FinalIsThrough(cfg.fate(n), StatusIn(s0.jobs, n));
    }
  }

  /** A model that got to the end is recorded by finishing, any other by the stage that raised. */
  lemma AllNoted(cfg: Config, w0: World, loose: set<nat>, s0: Shop, s1: Shop, s: Shop, wave: seq<Name>, busy: set<Name>)
    requires Inv(cfg, w0, s0, loose) && forall n :: n in s0.jobs ==> n in wave
    requires Advances(cfg, w0, loose, s0, s1, set n | n in wave) && Moves(cfg, w0, loose, s1, s, set n | n in wave)
    requires Went(cfg, s0.jobs, s1.jobs, busy) && FinishedUpTo(cfg, s1, s, wave, |wave|)
    ensures forall n :: n in s0.jobs ==>
      n in s.builds && s.builds[n] == Noted(cfg, n, Final(cfg.fate(n), StatusIn(s0.jobs, n)))
  {
    SeenIsIn(wave);
    forall n | n in s0.jobs
      ensures n in s.builds && s.builds[n] == Noted(cfg, n, Final(cfg.fate(n), StatusIn(s0.jobs, n)))
    {
      assert StatusIn(s1.jobs, n) == Final(cfg.fate(n), StatusIn(s0.jobs, n));
      if n !in s1.jobs {
        assert n in s1.builds && n !in s0.builds;
      }
    }
  }

  lemma NothingLeft(cfg: Config, w0: World, loose: set<nat>, s0: Shop, s1: Shop, s: Shop, wave: seq<Name>)
    requires Inv(cfg, w0, s0, loose) && forall n :: n in s0.jobs ==> n in wave
    requires Moves(cfg, w0, loose, s0, s1, set n | n in wave) && Moves(cfg, w0, loose, s1, s, set n | n in wave)
    requires forall n :: JobIn(s.jobs, n) == if n in wave then None else JobIn(s1.jobs, n)
    ensures Settled(s0, s, s0.jobs.Keys) && s1.jobs.Keys <= s0.jobs.Keys
  {
    forall n ensures n !in s.jobs && (n in s1.jobs ==> n in s0.jobs) {
      assert JobIn(s.jobs, n) == if n in wave then None else JobIn(s1.jobs, n);
      assert n in wave <==> n in (set m | m in wave);
    }
    assert s.jobs == map[];
  }

  /** Every model of the wave ends with one record; it ran a command exactly when the cache it started
      from and its own steps say so, and the cache gained exactly the entries that were committed. */
  method RunWave(cfg: Config, s0: Shop, wave: seq<Name>, workers: nat, ghost w0: World, ghost loose0: set<nat>)
    returns (s: Shop, ghost loose: set<nat>, ghost busy: set<Name>)
    requires Inv(cfg, w0, s0, loose0) && s0.jobs == map[] && NoDup(wave) && (forall n :: n in wave ==> n !in s0.builds)
    requires Running(s0.w.log) == Some({}) && workers >= 1
    ensures Inv(cfg, w0, s, loose) && Settled(s0, s, set n | n in wave)
    ensures loose0 <= loose && (loose == loose0 <==> NoneLeaks(cfg, s0.w, wave, |wave|))
    ensures Running(s.w.log) == Some({}) && Traced(s0.w.log, s.w.log, busy)
    ensures forall n :: n in busy <==> n in wave && Runs(cfg, s0.w, n)
    ensures forall key :: !Free(s.w.entries, key) <==> !Free(s0.w.entries, key) || Committed(cfg, s0.w, wave, key)
    ensures forall n :: n in wave ==> n in s.builds && RecordFits(cfg, s0.w, n, s.builds[n])
    ensures forall n {:trigger Of(s.w.log, n)} ::
      Of(s.w.log, n) == Of(s0.w.log, n) + if n in wave then CommandsFor(cfg, s0.w, n) else []
    ensures NoWider(s0.w.log, s.w.log, workers)
  {
    var s1;
    s1, loose := MakeJobs(cfg, s0, wave, w0, loose0);
    JobsAreFresh(cfg, s0, s1, wave);
    ghost var built;
    s, busy, built := RunJobs(cfg, s1, wave, workers, w0, loose);
    WaveIs(cfg, s0, s1, s, wave, built, busy);
    WaveSettles(cfg, s0, s1, s, wave);
  }

  lemma WaveSettles(cfg: Config, s0: Shop, s1: Shop, s: Shop, wave: seq<Name>)
    requires MadeUpTo(cfg, s0, s1, wave, |wave|) && Settled(s1, s, s1.jobs.Keys)
    requires (forall n :: n in wave ==> n !in s0.builds)
    ensures Settled(s0, s, set n | n in wave)
  {
    SeenIsIn(wave);
  }

  /** What the models of a wave did and left, judged by the cache it started from. */
  lemma WaveIs(cfg: Config, s0: Shop, s1: Shop, s: Shop, wave: seq<Name>, built: map<Name, Job>, busy: set<Name>)
    requires MadeUpTo(cfg, s0, s1, wave, |wave|) && (forall n :: n in wave ==> n !in s0.builds)
    requires Went(cfg, s1.jobs, built, busy) && built.Keys <= s1.jobs.Keys && Settled(s1, s, s1.jobs.Keys)
    requires AllRan(cfg, s1.jobs, s1.w.log, s.w.log)
    requires forall n :: n in s1.jobs ==>
      n in s.builds && s.builds[n] == Noted(cfg, n, Final(cfg.fate(n), StatusIn(s1.jobs, n)))
    ensures forall n :: n in busy <==> n in wave && Runs(cfg, s0.w, n)
    ensures forall key :: SomeFills(cfg, built, wave, |wave|, key) <==> Committed(cfg, s0.w, wave, key)
    ensures forall n :: n in wave ==> n in s.builds && RecordFits(cfg, s0.w, n, s.builds[n])
    ensures forall n {:trigger Of(s.w.log, n)} ::
      Of(s.w.log, n) == Of(s0.w.log, n) + if n in wave then CommandsFor(cfg, s0.w, n) else []
  {
    SeenIsIn(wave);
    BusyAreRunning(cfg, s0.w, s1.jobs, built, busy, wave);
    AllCommits(cfg, s0.w, s1.jobs, built, busy, wave);
    AllFit(cfg, s0, s1, s, wave);
    WaveRan(cfg, s0, s1, s, wave);
  }

  lemma JobsAreFresh(cfg: Config, s0: Shop, s1: Shop, wave: seq<Name>)
    requires MadeUpTo(cfg, s0, s1, wave, |wave|)
    ensures forall n :: n in s1.jobs ==> n in wave && Fresh(StatusIn(s1.jobs, n))
  {
    forall n | n in s1.jobs ensures n in wave && Fresh(StatusIn(s1.jobs, n)) {
      InitialIsFresh(cfg, s0.w, n);
    }
  }

  lemma AllCommits(cfg: Config, w: World, jobs0: map<Name, Job>, jobs: map<Name, Job>, busy: set<Name>,
                   wave: seq<Name>)
    requires forall n :: n in wave ==> StatusIn(jobs0, n) == Initial(cfg, w, n)
    requires forall n :: n in jobs ==> n in jobs0
    requires Went(cfg, jobs0, jobs, busy)
    ensures forall key :: SomeFills(cfg, jobs, wave, |wave|, key) <==> Committed(cfg, w, wave, key)
  {
    forall key ensures SomeFills(cfg, jobs, wave, |wave|, key) <==> Committed(cfg, w, wave, key) {
      FillsAreCommits(cfg, w, jobs0, jobs, busy, wave, key);
    }
  }

  /** The commands of a model, judged by the cache its wave starts from. */
  function CommandsFor(cfg: Config, w: World, name: Name): seq<Event> {
    var h := HashOf(cfg, name);
    CommandsOf(cfg, name, h.Some? && Lookup(w, ModelKey(h.value)), h.Some? && Lookup(w, DriverKey(h.value)))
  }

  lemma WaveRan(cfg: Config, s0: Shop, s1: Shop, s: Shop, wave: seq<Name>)
    requires MadeUpTo(cfg, s0, s1, wave, |wave|) && AllRan(cfg, s1.jobs, s1.w.log, s.w.log)
    ensures forall n {:trigger Of(s.w.log, n)} ::
      Of(s.w.log, n) == Of(s0.w.log, n) + if n in wave then CommandsFor(cfg, s0.w, n) else []
  {
    SeenIsIn(wave);
    forall n ensures Of(s.w.log, n) == Of(s0.w.log, n) + if n in wave then CommandsFor(cfg, s0.w, n) else [] {
      CommandsAre(cfg, s0.w, n);
      if n in wave {
        assert StatusIn(s1.jobs, n) == Initial(cfg, s0.w, n);
      } else {
        assert StatusIn(s1.jobs, n) == Dead;
      }
    }
  }

  /** The record of a model, judged by the cache its wave starts from. */
  ghost predicate RecordFits(cfg: Config, w: World, name: Name, b: Build) {
    var h := HashOf(cfg, name);
    RecordIs(cfg, name, h.Some? && Lookup(w, ModelKey(h.value)), h.Some? && Lookup(w, DriverKey(h.value)), b)
  }

  lemma AllFit(cfg: Config, s0: Shop, s1: Shop, s: Shop, wave: seq<Name>)
    requires MadeUpTo(cfg, s0, s1, wave, |wave|) && forall n :: n in wave ==> n !in s0.builds
    requires forall n :: n in s1.jobs ==>
      n in s.builds && s.builds[n] == Noted(cfg, n, Final(cfg.fate(n), StatusIn(s1.jobs, n)))
    requires forall n :: n in s1.builds ==> n in s.builds && s.builds[n] == s1.builds[n]
    ensures forall n :: n in wave ==> n in s.builds && RecordFits(cfg, s0.w, n, s.builds[n])
  {
    SeenIsIn(wave);
    forall n | n in wave ensures n in s.builds && RecordFits(cfg, s0.w, n, s.builds[n]) {
      NotedIs(cfg, s0.w, n);
      assert StatusIn(s1.jobs, n) == Initial(cfg, s0.w, n);
      if n !in s1.jobs {
        assert n in s1.builds && s1.builds[n] == Broken;
      }
    }
  }
}
