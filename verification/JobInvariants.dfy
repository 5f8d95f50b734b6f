/** What every stage of a job keeps: other jobs, published entries and recorded paths. */
module JobInvariants {
  import opened Options
  import opened CmdstanJob

  function Expected(key: Key): set<File> {
    if key.ModelKey? then {Stan, Hpp, Exe} else {GradBench}
  }

  predicate Whole(key: Key, f: Folder) {
    f.listed == Some(Expected(key)) && Expected(key) <= f.files
  }

  /** The file was missing from a nonempty entry that was there before. */
  ghost predicate MissingBefore(w0: World, p: Path) {
    p.InEntry? && !Free(w0.entries, p.key) && p.file !in w0.entries[p.key].files
  }

  /** The path leads to a file, or into an entry that lacked the file before anything ran. */
  ghost predicate PathOk(w0: World, w: World, p: Path) {
    Exists(w, p) || MissingBefore(w0, p)
  }

  /** Entries stay, and only empty ones are ever filled. */
  ghost predicate Grows(before: map<Key, Folder>, after: map<Key, Folder>) {
    forall key :: !Free(before, key) ==> key in after && after[key] == before[key]
  }

  ghost predicate EntriesOk(w0: World, w: World) {
    Grows(w0.entries, w.entries)
    && forall key :: Free(w0.entries, key) && !Free(w.entries, key) ==> Whole(key, w.entries[key])
  }

  function Ids(job: Job): set<nat> {
    (if job.scratch.Some? then {job.scratch.value} else {})
    + (if job.driverScratch.Some? then {job.driverScratch.value} else {})
  }

  /** Where the executable and the gradient driver of an unfinished job are. */
  ghost predicate PlacesOk(job: Job) {
    && (job.build.executable.Some? ==>
          job.build.executable.value ==
            if job.scratch.None? && job.hash.Some? then InEntry(ModelKey(job.hash.value), Exe) else Home(job, Exe))
    && (job.build.gradient.Some? ==>
          job.build.gradient.value ==
            if job.driverScratch.Some? then InScratch(job.driverScratch.value, GradBench)
            else if job.hash.Some? then InEntry(DriverKey(job.hash.value), GradBench) else InWork(job.name, GradBench))
  }

  /** The files in the directory of a model that is being built. */
  ghost predicate BuiltSoFar(job: Job, files: set<File>) {
    Stan in files && (job.stancOk ==> Hpp in files) && (Exe in files ==> job.build.executable.Some?)
  }

  /** The driver's directory, while the driver is being built. */
  ghost predicate DriverSoFar(job: Job, w: World) {
    && (job.hash.Some? && job.build.gradient.Some? && !job.driverHit ==> job.driverScratch.Some?)
    && (job.driverScratch.Some? && job.driverScratch.value in w.scratch &&
        GradBench in w.scratch[job.driverScratch.value] ==>
          job.build.gradient.Some?)
  }

  ghost predicate JobOk(w0: World, w: World, job: Job) {
    && Ids(job) <= w.scratch.Keys
    && (job.scratch.Some? && job.driverScratch.Some? ==> job.scratch != job.driverScratch)
    && (job.hash.None? ==> Ids(job) == {} && !job.modelHit && !job.driverHit)
    && (job.hash.Some? ==> (job.modelHit <==> job.scratch.None?))
    && (job.driverHit ==> job.driverScratch.None? && job.build.gradient.Some?)
    && (job.modelHit ==> !Free(w.entries, ModelKey(job.hash.value)))
    && (job.driverHit ==> !Free(w.entries, DriverKey(job.hash.value)))
    && (job.scratch.Some? ==> BuiltSoFar(job, w.scratch[job.scratch.value]))
    && DriverSoFar(job, w)
    && PlacesOk(job)
    && (job.build.executable.Some? ==> PathOk(w0, w, job.build.executable.value))
    && (job.build.gradient.Some? ==> PathOk(w0, w, job.build.gradient.value))
    && (job.build.hit <==> job.modelHit && job.driverHit)
    && (job.modelHit && Failed(job.build) ==> job.build.gradient.None? && job.driverScratch.Some?)
  }

  ghost predicate Recorded(w0: World, w: World, name: Name, p: Option<Path>) {
    p.Some? ==> PathOk(w0, w, p.value) && !p.value.InScratch? && (p.value.InWork? ==> p.value.name == name)
  }

  ghost predicate Published(w: World, b: Build, hash: Option<nat>) {
    !Failed(b) && b.executable.Some? && b.gradient.Some? && hash.Some? ==>
      !Free(w.entries, ModelKey(hash.value)) && !Free(w.entries, DriverKey(hash.value))
  }

  ghost predicate BuildOk(w0: World, w: World, cfg: Config, name: Name, b: Build) {
    && Recorded(w0, w, name, b.executable) && Recorded(w0, w, name, b.gradient)
    && (cfg.cached ==> Published(w, b, cfg.hash(name)))
  }

  /** All that a step of the job called name may touch, when its directories go from ids to ids'. */
  ghost predicate Local(w0: World, w: World, w': World, name: Name, ids: set<nat>, ids': set<nat>) {
    && EntriesOk(w0, w') && Grows(w.entries, w'.entries)
    && (forall id :: id in w.scratch && id !in ids ==> id in w'.scratch && w'.scratch[id] == w.scratch[id])
    && w'.scratch.Keys == w.scratch.Keys - ids + ids'
    && (forall id :: id in ids' ==> id in ids || id >= w.next)
    && w'.next >= w.next && (forall id :: id in ids' ==> id < w'.next)
    && (forall m :: m in w.work && m != name ==> m in w'.work && w'.work[m] == w.work[m])
  }

  // ---------------------------------------------------------------- stage by stage

  ghost predicate ConstructOk(cfg: Config, w0: World, w: World, name: Name, w': World, job: Option<Job>) {
    && (job.Some? ==> JobOk(w0, w', job.value) && job.value.name == name && Local(w0, w, w', name, {}, Ids(job.value))
                      && (cfg.cached ==> job.value.hash.Some?)
                      && job.value.hash == if cfg.cached then cfg.hash(name) else None)
    && (job.None? ==> exists ids :: Local(w0, w, w', name, {}, ids) && (ids == {} <==> !Leaks(cfg, w, name)))
    && w'.log == w.log && w'.entries == w.entries
  }

  lemma ConstructIsLocal(cfg: Config, w0: World, w: World, name: Name)
    requires EntriesOk(w0, w) && forall id :: id in w.scratch ==> id < w.next
    ensures ConstructOk(cfg, w0, w, name, Construct(cfg, w, name).0, Construct(cfg, w, name).1)
  {
    if Construct(cfg, w, name).1.None? {
      assert Local(w0, w, Construct(cfg, w, name).0, name, {}, if Leaks(cfg, w, name) then {w.next} else {});
    } else if cfg.cached {
      CachedConstruct(cfg, w0, w, name);
    }
  }

  lemma CachedConstruct(cfg: Config, w0: World, w: World, name: Name)
    requires EntriesOk(w0, w) && cfg.cached && Construct(cfg, w, name).1.Some?
    requires forall id :: id in w.scratch ==> id < w.next
    ensures ConstructOk(cfg, w0, w, name, Construct(cfg, w, name).0, Construct(cfg, w, name).1)
  { }

  /** A constructor that fails after making its scratch directory leaves nobody to discard it. */
  ghost predicate Leaks(cfg: Config, w: World, name: Name) {
    && cfg.cached && cfg.fate(name).making.NoSource?
    && cfg.hash(name).Some? && !Lookup(w, ModelKey(cfg.hash(name).value))
  }

  /** The job's own directories only gained files. */
  ghost predicate Gains(w: World, w': World, job: Job) {
    && (forall id :: id in Ids(job) ==> id in w.scratch && id in w'.scratch && w.scratch[id] <= w'.scratch[id])
    && (job.name in w.work ==> job.name in w'.work && w.work[job.name] <= w'.work[job.name])
  }

  lemma JobSurvives(w0: World, w: World, w': World, job: Job)
    requires JobOk(w0, w, job) && Gains(w, w', job) && Grows(w.entries, w'.entries)
    requires job.scratch.Some? && Exe in w'.scratch[job.scratch.value] ==> job.build.executable.Some?
    requires DriverSoFar(job, w')
    ensures JobOk(w0, w', job)
  { }

  lemma AddFileIsLocal(w0: World, w: World, job: Job, file: File)
    requires EntriesOk(w0, w) && Ids(job) <= w.scratch.Keys && (forall id :: id in w.scratch ==> id < w.next)
    ensures Local(w0, w, AddFile(w, job, file), job.name, Ids(job), Ids(job)) && Gains(w, AddFile(w, job, file), job)
    ensures Exists(AddFile(w, job, file), Home(job, file))
  { }

  ghost predicate StageOk(w0: World, w: World, job: Job, w': World, job': Option<Job>) {
    if job'.Some? then
      JobOk(w0, w', job'.value) && job'.value.name == job.name && job'.value.hash == job.hash
      && Local(w0, w, w', job.name, Ids(job), Ids(job'.value))
    else Local(w0, w, w', job.name, Ids(job), Ids(job))
  }

  /** Running a command touches nothing but the log. */
  lemma LogIsLocal(w0: World, w: World, w': World, job: Job)
    requires EntriesOk(w0, w) && JobOk(w0, w, job) && w' == w.(log := w'.log)
    requires forall id :: id in w.scratch ==> id < w.next
    ensures Local(w0, w, w', job.name, Ids(job), Ids(job)) && JobOk(w0, w', job) && EntriesOk(w0, w')
  { }

  lemma StageAfterLog(w0: World, w: World, w1: World, job: Job, w2: World, job': Option<Job>)
    requires w1 == w.(log := w1.log) && StageOk(w0, w1, job, w2, job')
    ensures StageOk(w0, w, job, w2, job')
  { }

  /** The header is there. */
  lemma StancDone(w0: World, w: World, job: Job)
    requires EntriesOk(w0, w) && JobOk(w0, w, job) && !job.modelHit && (forall id :: id in w.scratch ==> id < w.next)
    ensures StageOk(w0, w, job, AddFile(w, job, Hpp), Some(job.(stancOk := true)))
  {
    AddFileIsLocal(w0, w, job, Hpp);
    JobSurvives(w0, w, AddFile(w, job, Hpp), job);
  }

  lemma StancKeeps(cfg: Config, w0: World, w: World, job: Job)
    requires EntriesOk(w0, w) && JobOk(w0, w, job) && (forall id :: id in w.scratch ==> id < w.next)
    ensures var r := RunStanc(cfg, w, job); StageOk(w0, w, job, r.0, r.1)
  {
    var after := Alone(w, Stanc, job.name);
    LogIsLocal(w0, w, after, job);
    if !job.modelHit && cfg.fate(job.name).stanc.Succeeds? {
      StancDone(w0, after, job);
      StageAfterLog(w0, w, after, job, RunStanc(cfg, w, job).0, RunStanc(cfg, w, job).1);
    }
  }

  /** The executable is there. */
  lemma MakeDone(w0: World, w: World, job: Job)
    requires EntriesOk(w0, w) && JobOk(w0, w, job) && !job.modelHit && (forall id :: id in w.scratch ==> id < w.next)
    ensures StageOk(w0, w, job, AddFile(w, job, Exe),
                    Some(job.(build := job.build.(executable := Some(Home(job, Exe))))))
  {
    AddFileIsLocal(w0, w, job, Exe);
  }

  lemma MakeKeeps(cfg: Config, w0: World, w: World, job: Job)
    requires EntriesOk(w0, w) && JobOk(w0, w, job) && (forall id :: id in w.scratch ==> id < w.next)
    ensures var r := RunMake(cfg, w, job); StageOk(w0, w, job, r.0, r.1)
  {
    var after := Alone(w, Make, job.name);
    LogIsLocal(w0, w, after, job);
    if !job.modelHit && cfg.fate(job.name).make.Succeeds? {
      MakeDone(w0, after, job);
      StageAfterLog(w0, w, after, job, RunMake(cfg, w, job).0, RunMake(cfg, w, job).1);
    }
  }

  lemma NewScratchIsLocal(w0: World, w: World, job: Job, files: set<File>)
    requires EntriesOk(w0, w) && JobOk(w0, w, job) && (forall id :: id in w.scratch ==> id < w.next)
    requires job.hash.Some? && !job.driverHit && job.driverScratch.None? && job.build.gradient.None?
    requires GradBench !in files
    ensures StageOk(w0, w, job, NewScratch(w, files), Some(job.(driverScratch := Some(w.next))))
  { }

  lemma StartDriverKeeps(cfg: Config, w0: World, w: World, job: Job)
    requires EntriesOk(w0, w) && JobOk(w0, w, job) && (forall id :: id in w.scratch ==> id < w.next)
    requires cfg.cached == job.hash.Some? && !job.driverHit && job.driverScratch.None? && job.build.gradient.None?
    ensures var r := StartDriver(cfg, w, job);
            && StageOk(w0, w, job, r.0, Some(r.1)) && !r.1.driverHit
            && r.1.build == job.build && r.1.modelHit == job.modelHit
            && (r.2 && cfg.cached ==> r.1.driverScratch.Some?)
  {
    if cfg.cached {
      NewScratchIsLocal(w0, w, job, {});
      NewScratchIsLocal(w0, w, job, {Hpp});
      var w' := NewScratch(w, {Hpp});
      LogIsLocal(w0, w', Logged(w', Begin(Command(Driver, job.name))), job.(driverScratch := Some(w.next)));
    } else {
      LogIsLocal(w0, w, Logged(w, Begin(Command(Driver, job.name))), job);
    }
  }

  /** The driver command has left its program where it ran. */
  lemma DriverDone(w0: World, w: World, job: Job)
    requires EntriesOk(w0, w) && JobOk(w0, w, job) && (forall id :: id in w.scratch ==> id < w.next)
    requires !job.driverHit && (job.hash.Some? ==> job.driverScratch.Some?) && job.build.gradient.None?
    requires job.modelHit ==> !Failed(job.build)
    ensures var at := job.(scratch := if job.driverScratch.Some? then job.driverScratch else job.scratch);
            StageOk(w0, w, job, AddFile(w, at, GradBench),
                    Some(job.(build := job.build.(gradient := Some(Home(at, GradBench))))))
  { }

  lemma EndDriverKeeps(cfg: Config, w0: World, w: World, job: Job)
    requires EntriesOk(w0, w) && JobOk(w0, w, job) && (forall id :: id in w.scratch ==> id < w.next)
    requires !job.driverHit && (job.hash.Some? ==> job.driverScratch.Some?) && job.build.gradient.None?
    requires job.modelHit ==> !Failed(job.build)
    ensures var r := EndDriver(cfg, w, job); StageOk(w0, w, job, r.0, r.1)
  {
    var after := Logged(w, End(Command(Driver, job.name)));
    LogIsLocal(w0, w, after, job);
    if DriverOutcome(cfg, job).Succeeds? {
      DriverDone(w0, after, job);
      StageAfterLog(w0, w, after, job, EndDriver(cfg, w, job).0, EndDriver(cfg, w, job).1);
    }
  }

  // ---------------------------------------------------------------- finishing

  lemma KeepIsLocal(cfg: Config, w0: World, w: World, job: Job)
    requires EntriesOk(w0, w) && JobOk(w0, w, job)
    ensures Local(w0, w, Abort(Keep(cfg, w, job).0, job), job.name, Ids(job), {})
  {
    KeepScratch(cfg, w, job);
    AbortScratch(w, job);
  }

  lemma KeepScratch(cfg: Config, w: World, job: Job)
    ensures var kept := Keep(cfg, w, job).0;
            && kept.entries == w.entries && kept.next == w.next
            && Abort(kept, job).scratch == Abort(w, job).scratch
            && forall m :: m in w.work && m != job.name ==> m in kept.work && kept.work[m] == w.work[m]
  { }

  lemma AbortScratch(w: World, job: Job)
    ensures Abort(w, job).scratch.Keys == w.scratch.Keys - Ids(job)
    ensures forall id :: id in w.scratch && id !in Ids(job) ==>
              id in Abort(w, job).scratch && Abort(w, job).scratch[id] == w.scratch[id]
    ensures Abort(w, job) == w.(scratch := Abort(w, job).scratch)
  { }

  lemma KeepRecords(cfg: Config, w0: World, w: World, job: Job)
    requires EntriesOk(w0, w) && JobOk(w0, w, job) && job.hash.Some? && Failed(job.build)
    ensures var r := Keep(cfg, w, job);
            r.1.Some? ==> && Recorded(w0, Abort(r.0, job), job.name, r.1.value.executable)
                          && Recorded(w0, Abort(r.0, job), job.name, r.1.value.gradient) && Failed(r.1.value)
  { }

  lemma CommitIsLocal(cfg: Config, w0: World, w: World, name: Name, id: nat, key: Key)
    requires EntriesOk(w0, w) && id in w.scratch && Expected(key) <= w.scratch[id]
    ensures var w' := Commit(cfg, w, id, key, Expected(key));
            Local(w0, w, w', name, {id}, {}) && !Free(w'.entries, key)
            && (Free(w0.entries, key) ==> Whole(key, w'.entries[key]))
  { }

  /** What a job looks like once its model is in the cache. */
  function AsHit(job: Job): Job {
    job.(modelHit := true, build := job.build.(hit := job.driverHit))
  }

  lemma PublishModelKeeps(cfg: Config, w0: World, w: World, job: Job)
    requires EntriesOk(w0, w) && JobOk(w0, w, job) && job.hash.Some? && (forall id :: id in w.scratch ==> id < w.next)
    requires !Failed(job.build)
    ensures var r := PublishModel(cfg, w, job);
            if r.1.None? then r.0 == w
            else r.1.value.scratch.None? && r.1.value.driverScratch == job.driverScratch
                 && StageOk(w0, w, job, r.0, Some(AsHit(r.1.value)))
                 && !Failed(r.1.value.build) && r.1.value.driverHit == job.driverHit
  {
    var r := PublishModel(cfg, w, job);
    if job.scratch.Some? && r.1.Some? {
      CommitIsLocal(cfg, w0, w, job.name, job.scratch.value, ModelKey(job.hash.value));
    }
  }

  lemma PublishDriverKeeps(cfg: Config, w0: World, w: World, job: Job)
    requires EntriesOk(w0, w) && JobOk(w0, w, job) && job.hash.Some? && job.scratch.None?
    ensures var r := PublishDriver(cfg, w, job);
            if r.1.None? then r.0 == w
            else Local(w0, w, r.0, job.name, Ids(job), {}) && Ids(r.1.value) == {}
  {
    var r := PublishDriver(cfg, w, job);
    if job.driverScratch.Some? && r.1.Some? {
      var id := job.driverScratch.value;
      var cleaned := w.(scratch := w.scratch[id := w.scratch[id] - {Hpp}]);
      CommitIsLocal(cfg, w0, cleaned, job.name, id, DriverKey(job.hash.value));
    }
  }

  lemma PublishDriverRecords(cfg: Config, w0: World, w: World, job: Job)
    requires EntriesOk(w0, w) && JobOk(w0, w, job) && job.hash.Some? && job.scratch.None?
    ensures var r := PublishDriver(cfg, w, job);
            r.1.Some? ==>
              && Recorded(w0, r.0, job.name, r.1.value.build.executable)
              && Recorded(w0, r.0, job.name, r.1.value.build.gradient)
              && (job.driverScratch.Some? ==> !Free(r.0.entries, DriverKey(job.hash.value)))
  {
    PublishDriverKeeps(cfg, w0, w, job);
  }

  lemma LocalThenLocal(w0: World, w: World, w1: World, w2: World, name: Name, a: set<nat>, b: set<nat>, c: set<nat>)
    requires Local(w0, w, w1, name, a, b) && Local(w0, w1, w2, name, b, c)
    requires forall id :: id in w.scratch ==> id < w.next
    requires a <= w.scratch.Keys
    ensures Local(w0, w, w2, name, a, c)
  { }

  lemma AbortIsLocal(w0: World, w: World, job: Job, was: Job)
    requires EntriesOk(w0, w) && Ids(job) <= w.scratch.Keys && Ids(was) !! (w.scratch.Keys - Ids(job))
    requires Ids(job) <= Ids(was)
    ensures Local(w0, w, Abort(w, was), job.name, Ids(job), {})
  { }

  /** Whatever happens while it publishes, a successful job leaves no directory. */
  lemma PublishIsLocal(cfg: Config, w0: World, w: World, job: Job)
    requires EntriesOk(w0, w) && JobOk(w0, w, job) && job.hash.Some? && (forall id :: id in w.scratch ==> id < w.next)
    requires !Failed(job.build)
    ensures Local(w0, w, Finish(cfg, w, job).0, job.name, Ids(job), {})
  {
    PublishModelKeeps(cfg, w0, w, job);
    var model := PublishModel(cfg, w, job);
    if model.1.None? {
      AbortIsLocal(w0, w, job, job);
    } else {
      DriverThenAbort(cfg, w0, model.0, model.1.value, job);
      LocalThenLocal(w0, w, model.0, Finish(cfg, w, job).0, job.name, Ids(job), Ids(model.1.value), {});
    }
  }

  /** The second half of publishing; `was` is the job before its model was published. */
  lemma HitPublishesSame(cfg: Config, w: World, job: Job)
    requires job.hash.Some?
    ensures var r, r' := PublishDriver(cfg, w, job), PublishDriver(cfg, w, AsHit(job));
            r.0 == r'.0 && r.1.None? == r'.1.None?
  { }

  lemma DriverThenAbort(cfg: Config, w0: World, w: World, job: Job, was: Job)
    requires EntriesOk(w0, w) && JobOk(w0, w, AsHit(job)) && job.hash.Some? && job.scratch.None?
    requires Ids(job) <= Ids(was) && Ids(was) !! (w.scratch.Keys - Ids(job)) && was.name == job.name
    ensures Local(w0, w, Abort(PublishDriver(cfg, w, job).0, was), job.name, Ids(job), {})
  {
    PublishDriverKeeps(cfg, w0, w, AsHit(job));
    HitPublishesSame(cfg, w, job);
    var driver := PublishDriver(cfg, w, job);
    if driver.1.None? {
      AbortIsLocal(w0, w, job, was);
    } else {
      assert Abort(driver.0, was).scratch == driver.0.scratch;
    }
  }

  /** A record it returns names files that are there, and a complete one means both entries are. */
  lemma PublishRecords(cfg: Config, w0: World, w: World, job: Job)
    requires EntriesOk(w0, w) && JobOk(w0, w, job) && job.hash.Some? && (forall id :: id in w.scratch ==> id < w.next)
    requires !Failed(job.build)
    ensures var r := Finish(cfg, w, job);
            r.1.Some? ==> && Recorded(w0, r.0, job.name, r.1.value.executable)
                          && Recorded(w0, r.0, job.name, r.1.value.gradient)
                          && Published(r.0, r.1.value, job.hash)
  {
    PublishModelKeeps(cfg, w0, w, job);
    var model := PublishModel(cfg, w, job);
    if model.1.Some? {
      var job1 := AsHit(model.1.value);
      PublishDriverKeeps(cfg, w0, model.0, job1);
      PublishDriverRecords(cfg, w0, model.0, job1);
      var driver := PublishDriver(cfg, model.0, model.1.value);
      assert driver.0 == PublishDriver(cfg, model.0, job1).0;
    }
  }

  lemma FinishKeeps(cfg: Config, w0: World, w: World, job: Job)
    requires EntriesOk(w0, w) && JobOk(w0, w, job) && (forall id :: id in w.scratch ==> id < w.next)
    requires job.hash == if cfg.cached then cfg.hash(job.name) else None
    ensures var r := Finish(cfg, w, job);
            Local(w0, w, r.0, job.name, Ids(job), {}) && (r.1.Some? ==> BuildOk(w0, r.0, cfg, job.name, r.1.value))
  {
    if job.hash.Some? {
      if Failed(job.build) {
        KeepIsLocal(cfg, w0, w, job);
        KeepRecords(cfg, w0, w, job);
      } else {
        PublishIsLocal(cfg, w0, w, job);
        PublishRecords(cfg, w0, w, job);
      }
    }
  }

  lemma FinishRunsNothing(cfg: Config, w: World, job: Job)
    ensures Finish(cfg, w, job).0.log == w.log
  {
    if job.hash.Some? {
      if Failed(job.build) {
        assert Keep(cfg, w, job).0.log == w.log;
      } else {
        var model := PublishModel(cfg, w, job);
        assert model.0.log == w.log;
        assert model.1.Some? ==> PublishDriver(cfg, model.0, model.1.value).0.log == w.log;
      }
    }
  }

  // ---------------------------------------------------------------- what can go wrong

  const Fine := Fate(Made, Succeeds, Ran(Succeeds), Succeeds, Finishing(false, false, false, false))

  /** Losing the source between hashing it and copying it leaves a scratch directory behind. */
  lemma ConstructorCanLeak(name: Name)
    ensures var cfg := Config(true, _ => Some(0), _ => Fine.(making := NoSource), _ => false);
            var (w, job) := Construct(cfg, World(map[], map[], map[], 0, []), name);
            job.None? && w.scratch == map[0 := {}]
  { }

  /** A half-deleted entry is never replaced, so a build that succeeded records a path to nothing. */
  lemma BrokenEntryMisleads(name: Name)
    ensures var cfg := Config(true, _ => Some(0), _ => Fine, _ => false);
            var w0 := World(map[ModelKey(0) := Folder({Stan}, None)], map[], map[], 0, []);
            var job := Job(name, Some(0), false, false, Some(0), Some(1), true,
                           Build(Some(InScratch(1, GradBench)), Some(InScratch(0, Exe)), false, false, false));
            var w := w0.(scratch := map[0 := {Stan, Hpp, Exe}, 1 := {Hpp, GradBench}], next := 2);
            var r := Finish(cfg, w, job);
            JobOk(w0, w, job) && r.1.Some? && !Failed(r.1.value)
            && r.1.value.executable == Some(InEntry(ModelKey(0), Exe)) && !Exists(r.0, InEntry(ModelKey(0), Exe))
  { }
}
