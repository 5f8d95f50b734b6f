/** The driver commands of a wave, which run beside each other. */
module PrebuildPool {
  import opened Options
  import opened CmdstanJob
  import opened JobInvariants
  import opened JobStatus
  import opened Prebuild
  import opened PrebuildStages

  // ---------------------------------------------------------------- one driver command

  ghost predicate Drivers(log: seq<Event>, running: set<Name>) {
    var now := Running(log);
    now.Some? && forall c :: c in now.value <==> c.stage.Driver? && c.name in running
  }

  lemma DriverBegins(log: seq<Event>, running: set<Name>, name: Name)
    requires Drivers(log, running) && name !in running
    ensures Drivers(log + [Begin(Command(Driver, name))], running + {name})
    ensures Traced(log, log + [Begin(Command(Driver, name))], {name}) && Traced(log, log, {})
  {
    OneTrace(log, [Begin(Command(Driver, name))], name);
  }

  lemma DriverEnds(log: seq<Event>, running: set<Name>, name: Name)
    requires Drivers(log, running) && name in running
    ensures Drivers(log + [End(Command(Driver, name))], running - {name})
    ensures Traced(log, log + [End(Command(Driver, name))], {name})
  {
    OneTrace(log, [End(Command(Driver, name))], name);
  }

  method DoStart(cfg: Config, w: World, job: Job, ghost running: set<Name>, ghost w0: World)
    returns (w': World, job': Job, started: bool)
    requires Ready(w0, w, job) && cfg.cached == job.hash.Some? && Undriven(job) && !job.driverHit
    requires Drivers(w.log, running) && job.name !in running
    ensures StageOk(w0, w, job, w', Some(job')) && w'.entries == w.entries && (started <==> Starts(cfg, job.name))
    ensures Drivers(w'.log, if started then running + {job.name} else running) && (started ==> Started(job'))
    ensures w'.log == w.log + if started then [Begin(Command(Driver, job.name))] else []
    ensures Traced(w.log, w'.log, if started then {job.name} else {}) && StatusOf(Some(job')) == StatusOf(Some(job))
    ensures !started ==> AfterDriver(cfg.fate(job.name), StatusOf(Some(job))).Dead?
  {
    StartDriverKeeps(cfg, w0, w, job);
    StartStatus(cfg, w, job);
    StartLog(cfg, w, job, running);
    var r := StartDriver(cfg, w, job);
    w', job', started := r.0, r.1, r.2;
    StartedJob(cfg, w, job);
  }

  lemma StartLog(cfg: Config, w: World, job: Job, running: set<Name>)
    requires Drivers(w.log, running) && job.name !in running
    ensures var r := StartDriver(cfg, w, job);
            && r.0.log == w.log + (if r.2 then [Begin(Command(Driver, job.name))] else [])
            && Drivers(r.0.log, if r.2 then running + {job.name} else running)
            && Traced(w.log, r.0.log, if r.2 then {job.name} else {})
  {
    DriverBegins(w.log, running, job.name);
    var r := StartDriver(cfg, w, job);
    if r.2 {
      assert r.0.log == w.log + [Begin(Command(Driver, job.name))];
    } else {
      assert r.0.log == w.log == w.log + [];
    }
  }

  lemma StartedJob(cfg: Config, w: World, job: Job)
    requires cfg.cached == job.hash.Some? && Undriven(job) && !job.driverHit
    requires job.modelHit ==> !Failed(job.build) || job.driverScratch.Some?
    ensures var r := StartDriver(cfg, w, job);
            r.2 ==> Started(r.1)
  { }

  method DoEnd(cfg: Config, w: World, job: Job, ghost running: set<Name>, ghost w0: World)
    returns (w': World, job': Option<Job>)
    requires Ready(w0, w, job) && Started(job) && Drivers(w.log, running) && job.name in running
    ensures StageOk(w0, w, job, w', job') && w'.entries == w.entries
    ensures Drivers(w'.log, running - {job.name}) && Traced(w.log, w'.log, {job.name})
    ensures w'.log == w.log + [End(Command(Driver, job.name))]
    ensures StatusOf(job') == AfterDriver(cfg.fate(job.name), StatusOf(Some(job)))
  {
    EndDriverKeeps(cfg, w0, w, job);
    EndStatus(cfg, w, job);
    DriverEnds(w.log, running, job.name);
    var r := EndDriver(cfg, w, job);
    assert r.0.log == w.log + [End(Command(Driver, job.name))];
    w', job' := r.0, r.1;
  }

  /** A worker takes a model: its driver command starts, or the stage is over at once. */
  method Begin1(cfg: Config, s: Shop, name: Name, ghost running: set<Name>, ghost w0: World, ghost loose: set<nat>)
    returns (s': Shop, started: bool)
    requires Inv(cfg, w0, s, loose) && name in s.jobs && Drivers(s.w.log, running)
    requires Undriven(s.jobs[name]) && name !in running
    ensures Advances(cfg, w0, loose, s, s', {name}) && s'.w.entries == s.w.entries
    ensures started <==> !s.jobs[name].driverHit && Starts(cfg, name)
    ensures Drivers(s'.w.log, if started then running + {name} else running)
    ensures Traced(s.w.log, s'.w.log, if started then {name} else {})
    ensures s'.w.log == s.w.log + if started then [Begin(Command(Driver, name))] else []
    ensures if started then name in s'.jobs && Started(s'.jobs[name]) &&
                            StatusIn(s'.jobs, name) == StatusIn(s.jobs, name)
            else StatusIn(s'.jobs, name) == AfterDriver(cfg.fate(name), StatusIn(s.jobs, name))
  {
    if s.jobs[name].driverHit {
      s', started := s, false;
      OneTrace(s.w.log, [], name);
      assert s.w.log + [] == s.w.log;
    } else {
      var w', job';
      w', job', started := DoStart(cfg, s.w, s.jobs[name], running, w0);
      s' := Guard(cfg, s, name, w', Some(job'), w0, loose);
      if !started {
        var s'' := Raise(cfg, s', name, w0, loose);
        AdvancesOn(cfg, w0, loose, s, s', s'', name, {name});
        s' := s'';
      }
    }
  }

  method Raise(cfg: Config, s: Shop, name: Name, ghost w0: World, ghost loose: set<nat>) returns (s': Shop)
    requires Inv(cfg, w0, s, loose) && name in s.jobs
    ensures Advances(cfg, w0, loose, s, s', {name}) && s'.w.log == s.w.log && s'.w.entries == s.w.entries
    ensures name !in s'.jobs
  {
    LogIsLocal(w0, s.w, s.w, s.jobs[name]);
    s' := Guard(cfg, s, name, s.w, None, w0, loose);
  }

  method End1(cfg: Config, s: Shop, name: Name, ghost running: set<Name>, ghost w0: World, ghost loose: set<nat>)
    returns (s': Shop)
    requires Inv(cfg, w0, s, loose) && name in s.jobs && Drivers(s.w.log, running)
    requires Started(s.jobs[name]) && name in running
    ensures Advances(cfg, w0, loose, s, s', {name}) && s'.w.entries == s.w.entries
    ensures Drivers(s'.w.log, running - {name}) && Traced(s.w.log, s'.w.log, {name})
    ensures s'.w.log == s.w.log + [End(Command(Driver, name))]
    ensures StatusIn(s'.jobs, name) == AfterDriver(cfg.fate(name), StatusIn(s.jobs, name))
  {
    var w', job' := DoEnd(cfg, s.w, s.jobs[name], running, w0);
    s' := Guard(cfg, s, name, w', job', w0, loose);
  }

  // ---------------------------------------------------------------- the pool

  /** Who waits for a worker, who runs and what became of those that are through. */
  ghost predicate PoolOk(cfg: Config, jobs0: map<Name, Job>, jobs: map<Name, Job>, ready: set<Name>,
                         pending: set<Name>, running: set<Name>) {
    && pending <= ready && running <= ready && pending !! running
    && (forall n :: n in pending ==> JobIn(jobs, n) == JobIn(jobs0, n))
    && (forall n :: n in running ==> n in jobs && Started(jobs[n]) && StatusIn(jobs, n) == StatusIn(jobs0, n))
    && (forall n :: n in ready && n !in pending && n !in running ==>
          StatusIn(jobs, n) == AfterDriver(cfg.fate(n), StatusIn(jobs0, n)))
  }

  /** The driver command of a model that has a job. */
  predicate RunsDriver(cfg: Config, jobs: map<Name, Job>, name: Name) {
    name in jobs && !jobs[name].driverHit && Starts(cfg, name)
  }

  ghost predicate PoolBusy(cfg: Config, jobs: map<Name, Job>, took: set<Name>, busy: set<Name>) {
    forall n :: n in busy <==> n in took && RunsDriver(cfg, jobs, n)
  }

  /** What one step of the pool does to the model it is about. */
  ghost predicate Stepped(cfg: Config, jobs: map<Name, Job>, jobs': map<Name, Job>, name: Name, started: bool) {
    if started then name in jobs' && Started(jobs'[name]) && StatusIn(jobs', name) == StatusIn(jobs, name)
    else StatusIn(jobs', name) == AfterDriver(cfg.fate(name), StatusIn(jobs, name))
  }

  lemma PoolKeeps(cfg: Config, jobs0: map<Name, Job>, jobs: map<Name, Job>, jobs': map<Name, Job>, ready: set<Name>,
                  pending: set<Name>, running: set<Name>, name: Name, started: bool)
    requires PoolOk(cfg, jobs0, jobs, ready, pending, running) && name in pending + running
    requires Stepped(cfg, jobs, jobs', name, started) && forall n :: n != name ==> JobIn(jobs', n) == JobIn(jobs, n)
    ensures PoolOk(cfg, jobs0, jobs', ready, pending - {name}, if started then running + {name} else running - {name})
  {
    assert StatusIn(jobs, name) == StatusIn(jobs0, name);
    var running' := if started then running + {name} else running - {name};
    forall n | n in running' ensures n in jobs' && Started(jobs'[n]) && StatusIn(jobs', n) == StatusIn(jobs0, n) {
      assert n != name ==> JobIn(jobs', n) == JobIn(jobs, n);
    }
  }

  function Work(pending: set<Name>, running: set<Name>): nat {
    2 * |pending| + |running|
  }

  lemma WorkShrinks(pending: set<Name>, running: set<Name>, name: Name, started: bool)
    requires pending !! running && (name in pending || name in running) && (started ==> name in pending)
    ensures Work(pending - {name}, if started then running + {name} else running - {name}) < Work(pending, running)
    ensures |running - {name}| <= |running| && |running + {name}| <= |running| + 1
  { }

  /** The models that started are those that ran a driver command, and the running ones are still among them. */
  ghost predicate PoolLog(cfg: Config, jobs0: map<Name, Job>, log0: seq<Event>, log: seq<Event>, took: set<Name>,
                          running: set<Name>, busy: set<Name>) {
    && Drivers(log, running) && Traced(log0, log, busy) && PoolBusy(cfg, jobs0, took, busy) && running <= busy
    && Worked(log0, log, Driver, busy, running)
  }

  /** What holds between two steps of the pool. */
  ghost predicate PoolInv(cfg: Config, w0: World, loose: set<nat>, s0: Shop, s: Shop, ready: set<Name>,
                          pending: set<Name>, running: set<Name>, busy: set<Name>, workers: nat) {
    && Advances(cfg, w0, loose, s0, s, ready) && s.w.entries == s0.w.entries
    && |running| <= workers && NoWider(s0.w.log, s.w.log, workers)
    && PoolOk(cfg, s0.jobs, s.jobs, ready, pending, running)
    && PoolLog(cfg, s0.jobs, s0.w.log, s.w.log, ready - pending, running, busy)
  }

  function StepEvents(name: Name, running: set<Name>, started: bool): seq<Event> {
    if name in running then [End(Command(Driver, name))]
    else if started then [Begin(Command(Driver, name))] else []
  }

  /** A worker takes a waiting model, or a running command ends. */
  method PoolMove(cfg: Config, s: Shop, name: Name, pending: set<Name>, running: set<Name>, ghost w0: World,
                  ghost loose: set<nat>) returns (s': Shop, started: bool, ghost ran: set<Name>)
    requires Inv(cfg, w0, s, loose) && Drivers(s.w.log, running) && name in s.jobs
    requires if name in pending then Undriven(s.jobs[name]) && name !in running
             else name in running && Started(s.jobs[name])
    ensures started <==> name in pending && RunsDriver(cfg, s.jobs, name)
    ensures Advances(cfg, w0, loose, s, s', {name}) && s'.w.entries == s.w.entries
    ensures Drivers(s'.w.log, if started then running + {name} else running - {name})
    ensures Traced(s.w.log, s'.w.log, ran) && Stepped(cfg, s.jobs, s'.jobs, name, started)
    ensures s'.w.log == s.w.log + StepEvents(name, running, started)
    ensures ran == (if name in running || started then {name} else {})
  {
    if name in pending {
      s', started := Begin1(cfg, s, name, running, w0, loose);
      assert running - {name} == running;
    } else {
      s' := End1(cfg, s, name, running, w0, loose);
      started := false;
    }
    ran := if name in running || started then {name} else {};
  }

  lemma LogStep(cfg: Config, jobs0: map<Name, Job>, log0: seq<Event>, log: seq<Event>, log': seq<Event>,
                ready: set<Name>, pending: set<Name>, running: set<Name>, busy: set<Name>, name: Name,
                started: bool, ran: set<Name>)
    requires PoolLog(cfg, jobs0, log0, log, ready - pending, running, busy) && Traced(log, log', ran)
    requires name in ready && (name in pending || name in running) && pending !! running
    requires Drivers(log', if started then running + {name} else running - {name})
    requires ran == if name in running || started then {name} else {}
    requires log' == log + StepEvents(name, running, started)
    requires if name in pending then started <==> RunsDriver(cfg, jobs0, name) else !started
    ensures PoolLog(cfg, jobs0, log0, log', ready - (pending - {name}),
                    if started then running + {name} else running - {name}, busy + ran)
  {
    TracedThen(log0, log, log', busy, ran);
    assert ready - (pending - {name}) == ready - pending + {name};
    if name in running {
      WorkEnds(log0, log, Driver, busy, running, name);
      assert busy + ran == busy;
    } else if started {
      WorkBegins(log0, log, Driver, busy, running, name);
    } else {
      assert log' == log && busy + ran == busy && running - {name} == running;
    }
  }

  /** As many commands run as there are models that started. */
  lemma DriversCount(log: seq<Event>, running: set<Name>)
    requires Drivers(log, running)
    ensures |Running(log).value| == |running|
  {
    var now := Running(log).value;
    assert now == set n | n in running :: Command(Driver, n);
    SameSize(running, now);
  }

  lemma {:induction false} SameSize(names: set<Name>, cmds: set<Command>)
    requires cmds == set n | n in names :: Command(Driver, n)
    ensures |cmds| == |names|
    decreases |names|
  {
    if names != {} {
      var n :| n in names;
      SameSize(names - {n}, cmds - {Command(Driver, n)});
    }
  }

  lemma StepIsNarrow(log0: seq<Event>, log: seq<Event>, log': seq<Event>, running: set<Name>, name: Name,
                     started: bool, workers: nat)
    requires NoWider(log0, log, workers) && log' == log + StepEvents(name, running, started)
    requires |running| <= workers && (started ==> name !in running && |running| < workers)
    requires Drivers(log', if started then running + {name} else running - {name})
    ensures NoWider(log0, log', workers) && |if started then running + {name} else running - {name}| <= workers
  {
    var running' := if started then running + {name} else running - {name};
    DriversCount(log', running');
    var events := StepEvents(name, running, started);
    if started || name in running {
      assert events == [events[0]];
      OneMoreEvent(log, events[0], workers);
    } else {
      assert log' == log;
    }
  }

  lemma PoolNext(cfg: Config, w0: World, loose: set<nat>, s0: Shop, s: Shop, s': Shop, ready: set<Name>, name: Name)
    requires Advances(cfg, w0, loose, s0, s, ready) && Advances(cfg, w0, loose, s, s', {name}) && name in ready
    ensures Advances(cfg, w0, loose, s0, s', ready)
    ensures forall n :: n != name ==> JobIn(s'.jobs, n) == JobIn(s.jobs, n)
  {
    AdvancesOn(cfg, w0, loose, s0, s, s', name, ready);
    OthersAdvance(cfg, w0, loose, s, s', name);
  }

  method PoolMoveOn(cfg: Config, ghost s0: Shop, s: Shop, name: Name, ghost ready: set<Name>, pending: set<Name>,
                    running: set<Name>, ghost w0: World, ghost loose: set<nat>)
    returns (s': Shop, started: bool, ghost ran: set<Name>)
    requires Advances(cfg, w0, loose, s0, s, ready) && s.w.entries == s0.w.entries
    requires Drivers(s.w.log, running) && (name in pending || name in running)
    requires AllUndriven(s0.jobs) && ready <= s0.jobs.Keys && PoolOk(cfg, s0.jobs, s.jobs, ready, pending, running)
    ensures started ==> name in pending
    ensures Advances(cfg, w0, loose, s0, s', ready) && s'.w.entries == s0.w.entries
    ensures Drivers(s'.w.log, if started then running + {name} else running - {name}) && Traced(s.w.log, s'.w.log, ran)
    ensures s'.w.log == s.w.log + StepEvents(name, running, started)
    ensures ran == (if name in running || started then {name} else {})
    ensures name in pending ==> (started <==> RunsDriver(cfg, s0.jobs, name))
    ensures PoolOk(cfg, s0.jobs, s'.jobs, ready, pending - {name},
                   if started then running + {name} else running - {name})
  {
    assert name in pending ==> JobIn(s.jobs, name) == JobIn(s0.jobs, name);
    s', started, ran := PoolMove(cfg, s, name, pending, running, w0, loose);
    PoolNext(cfg, w0, loose, s0, s, s', ready, name);
    PoolKeeps(cfg, s0.jobs, s.jobs, s'.jobs, ready, pending, running, name, started);
  }

  /** One step of the pool. */
  method PoolStep(cfg: Config, ghost s0: Shop, s: Shop, name: Name, ghost ready: set<Name>, pending: set<Name>,
                  running: set<Name>, ghost busy: set<Name>, ghost workers: nat, ghost w0: World,
                  ghost loose: set<nat>) returns (s': Shop, started: bool, ghost busy': set<Name>)
    requires PoolInv(cfg, w0, loose, s0, s, ready, pending, running, busy, workers)
    requires AllUndriven(s0.jobs) && ready <= s0.jobs.Keys && (name in pending || name in running)
    requires name in pending ==> |running| < workers
    ensures started ==> name in pending
    ensures PoolInv(cfg, w0, loose, s0, s', ready, pending - {name},
                    if started then running + {name} else running - {name}, busy', workers)
  {
    ghost var ran;
    s', started, ran := PoolMoveOn(cfg, s0, s, name, ready, pending, running, w0, loose);
    busy' := busy + ran;
    StepIsNarrow(s0.w.log, s.w.log, s'.w.log, running, name, started, workers);
    LogStep(cfg, s0.jobs, s0.w.log, s.w.log, s'.w.log, ready, pending, running, busy, name, started, ran);
  }

  /** Driver commands start and end in any order, as many at a time as there are workers. */
  method RunDrivers(cfg: Config, s0: Shop, ready: set<Name>, workers: nat, ghost w0: World, ghost loose: set<nat>)
    returns (s: Shop, ghost busy: set<Name>)
    requires Inv(cfg, w0, s0, loose) && Running(s0.w.log) == Some({}) && ready <= s0.jobs.Keys && workers >= 1
    requires AllUndriven(s0.jobs)
    ensures Advances(cfg, w0, loose, s0, s, ready) && s.w.entries == s0.w.entries
    ensures Running(s.w.log) == Some({}) && Traced(s0.w.log, s.w.log, busy)
    ensures Worked(s0.w.log, s.w.log, Driver, busy, {}) && NoWider(s0.w.log, s.w.log, workers)
    ensures forall n :: n in busy <==> n in ready && RunsDriver(cfg, s0.jobs, n)
    ensures forall n :: n in ready ==> StatusIn(s.jobs, n) == AfterDriver(cfg.fate(n), StatusIn(s0.jobs, n))
  {
    s, busy := s0, {};
    var pending, running := ready, {};
    assert Traced(s0.w.log, s0.w.log, {});
    while pending != {} || running != {}
      invariant PoolInv(cfg, w0, loose, s0, s, ready, pending, running, busy, workers)
      decreases Work(pending, running)
    {
      var name := Pick(pending, running, workers);
      var started;
      s, started, busy := PoolStep(cfg, s0, s, name, ready, pending, running, busy, workers, w0, loose);
      WorkShrinks(pending, running, name, started);
      pending, running := pending - {name}, if started then running + {name} else running - {name};
    }
    assert Running(s.w.log).value == {};
  }

  /** Any running command may end next; a waiting model may start while a worker is free. */
  method Pick(pending: set<Name>, running: set<Name>, workers: nat) returns (name: Name)
    requires (pending != {} || running != {}) && workers >= 1 && pending !! running
    ensures name in pending || name in running
    ensures name in pending ==> |running| < workers
  {
    var more := *;
    if pending != {} && |running| < workers && (more || running == {}) {
      name :| name in pending;
    } else {
      name :| name in running;
    }
  }
}
