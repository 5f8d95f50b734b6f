/** What becomes of a job, as a function of what the cache held and of how its steps turn out. */
module JobStatus {
  import opened Options
  import opened CmdstanJob
  import opened JobInvariants

  datatype Status = Dead | Alive(modelHit: bool, driverHit: bool, stancOk: bool, gradientFailed: bool,
                                 buildFailed: bool, gradient: bool, executable: bool)

  function StatusOf(job: Option<Job>): Status {
    if job.None? then Dead else
      var j := job.value;
      Alive(j.modelHit, j.driverHit, j.stancOk, j.build.gradientFailed, j.build.buildFailed, j.build.gradient.Some?,
            j.build.executable.Some?)
  }

  // ---------------------------------------------------------------- stage by stage

  function Initial(cfg: Config, w: World, name: Name): Status {
    StatusOf(Construct(cfg, w, name).1)
  }

  function AfterStanc(f: Fate, s: Status): Status {
    if s.Dead? || s.modelHit then s else
      match f.stanc
      case Raises => Dead
      case Fails => s.(gradientFailed := true)
      case Succeeds => s.(stancOk := true)
  }

  /** The driver command starts; without a cache nothing can go wrong before it does. */
  predicate Starts(cfg: Config, name: Name) {
    !cfg.cached || cfg.fate(name).driver.Ran?
  }

  function AfterDriver(f: Fate, s: Status): Status {
    if s.Dead? || s.driverHit then s else
      match f.driver
      case Ran(Fails) => s.(gradientFailed := true)
      case Ran(Succeeds) => s.(gradient := true)
      case _ => Dead
  }

  function AfterMake(f: Fate, s: Status): Status {
    if s.Dead? || s.modelHit then s else
      match f.make
      case Raises => Dead
      case Fails => s.(buildFailed := true)
      case Succeeds => s.(executable := true)
  }

  predicate IsReady(s: Status) {
    s.Alive? && (s.modelHit || s.stancOk)
  }

  /** All stages up to finishing. */
  function Final(f: Fate, s: Status): Status {
    var first := AfterStanc(f, s);
    if IsReady(first) then AfterMake(f, AfterDriver(f, first)) else first
  }

  lemma StancStatus(cfg: Config, w: World, job: Job)
    ensures var r := RunStanc(cfg, w, job);
            r.0.entries == w.entries && StatusOf(r.1) == AfterStanc(cfg.fate(job.name), StatusOf(Some(job)))
  { }

  lemma StartStatus(cfg: Config, w: World, job: Job)
    ensures var r := StartDriver(cfg, w, job);
            && r.0.entries == w.entries && StatusOf(Some(r.1)) == StatusOf(Some(job))
            && (r.2 <==> Starts(cfg, job.name))
            && (!r.2 && !job.driverHit ==> AfterDriver(cfg.fate(job.name), StatusOf(Some(job))).Dead?)
  { }

  lemma EndStatus(cfg: Config, w: World, job: Job)
    requires !job.driverHit
    ensures var r := EndDriver(cfg, w, job);
            r.0.entries == w.entries && StatusOf(r.1) == AfterDriver(cfg.fate(job.name), StatusOf(Some(job)))
  { }

  lemma MakeStatus(cfg: Config, w: World, job: Job)
    ensures var r := RunMake(cfg, w, job);
            r.0.entries == w.entries && StatusOf(r.1) == AfterMake(cfg.fate(job.name), StatusOf(Some(job)))
  { }

  // ---------------------------------------------------------------- which models run a command

  /** What the cache lookups and the job's own steps say about running a command. */
  predicate RunsCached(f: Fate, modelUsable: bool, driverUsable: bool) {
    !f.making.NoDirectory? && if modelUsable then !driverUsable && f.driver.Ran? else !f.making.NoSource?
  }

  predicate Runs(cfg: Config, w: World, name: Name) {
    if !cfg.cached then cfg.fate(name).making.Made?
    else
      && cfg.hash(name).Some?
      && RunsCached(cfg.fate(name), Lookup(w, ModelKey(cfg.hash(name).value)),
                    Lookup(w, DriverKey(cfg.hash(name).value)))
  }

  predicate RunsFrom(cfg: Config, name: Name, s: Status) {
    s.Alive? && (!s.modelHit || (!s.driverHit && Starts(cfg, name)))
  }

  lemma RunsIsExact(cfg: Config, w: World, name: Name)
    ensures Runs(cfg, w, name) <==> RunsFrom(cfg, name, Initial(cfg, w, name))
  { }

  // ---------------------------------------------------------------- which models publish

  predicate FillsModel(cfg: Config, name: Name, s: Status) {
    && cfg.cached && s.Alive? && !s.modelHit && s.stancOk && !s.gradientFailed && !s.buildFailed && s.executable
    && !cfg.fate(name).finishing.hashModel
  }

  predicate FillsDriver(cfg: Config, name: Name, s: Status) {
    && cfg.cached && s.Alive? && !s.driverHit && !s.gradientFailed && !s.buildFailed && s.gradient
    && (s.modelHit || FillsModel(cfg, name, s)) && !cfg.fate(name).finishing.hashDriver
  }

  /** The job leaves an entry under this key. */
  predicate Fills(cfg: Config, name: Name, s: Status, key: Key) {
    && cfg.cached && cfg.hash(name) == Some(key.hash)
    && if key.ModelKey? then FillsModel(cfg, name, s) else FillsDriver(cfg, name, s)
  }

  /** The model misses and every step up to its commit goes well, whatever happens to the driver's commit. */
  predicate CommitsModel(cfg: Config, w: World, name: Name, h: nat) {
    && !Lookup(w, ModelKey(h))
    && var f := cfg.fate(name);
    && f.making.Made? && f.stanc.Succeeds? && f.make.Succeeds? && !f.finishing.hashModel
    && (Lookup(w, DriverKey(h)) || f.driver == Ran(Succeeds))
  }

  /** The driver misses and is built, and the model is there or gets there first. */
  predicate CommitsDriver(cfg: Config, w: World, name: Name, h: nat) {
    && !Lookup(w, DriverKey(h))
    && var f := cfg.fate(name);
    && !f.making.NoDirectory? && f.driver == Ran(Succeeds) && !f.finishing.hashDriver
    && (Lookup(w, ModelKey(h)) || CommitsModel(cfg, w, name, h))
  }

  predicate Commits(cfg: Config, w: World, name: Name, key: Key) {
    && cfg.cached && cfg.hash(name) == Some(key.hash)
    && if key.ModelKey? then CommitsModel(cfg, w, name, key.hash) else CommitsDriver(cfg, w, name, key.hash)
  }

  lemma CommitsIsExact(cfg: Config, w: World, name: Name, key: Key)
    ensures Commits(cfg, w, name, key) <==> Fills(cfg, name, Final(cfg.fate(name), Initial(cfg, w, name)), key)
  { }

  lemma SameEntriesSameFuture(cfg: Config, w: World, w': World, name: Name)
    requires w.entries == w'.entries
    ensures Initial(cfg, w, name) == Initial(cfg, w', name) && Leaks(cfg, w, name) == Leaks(cfg, w', name)
  { }

  /** Finishing fills the keys the job commits, and no other. */
  lemma FinishFills(cfg: Config, w0: World, w: World, job: Job, key: Key)
    requires JobOk(w0, w, job) && job.hash == (if cfg.cached then cfg.hash(job.name) else None)
    requires cfg.cached ==> job.hash.Some?
    ensures !Free(Finish(cfg, w, job).0.entries, key) <==>
            !Free(w.entries, key) || Fills(cfg, job.name, StatusOf(Some(job)), key)
  {
    if job.hash.Some? && !Failed(job.build) {
      PublishModelFills(cfg, w0, w, job, key);
      var model := PublishModel(cfg, w, job);
      if model.1.Some? {
        PublishDriverFills(cfg, w0, w, job, key);
      }
    }
  }

  lemma PublishModelFills(cfg: Config, w0: World, w: World, job: Job, key: Key)
    requires JobOk(w0, w, job) && job.hash.Some? && cfg.cached && cfg.hash(job.name) == job.hash && !Failed(job.build)
    ensures var r := PublishModel(cfg, w, job);
            && (r.1.Some? <==> job.modelHit || FillsModel(cfg, job.name, StatusOf(Some(job))))
            && (!Free(r.0.entries, key) <==>
                  !Free(w.entries, key) || (key.ModelKey? && Fills(cfg, job.name, StatusOf(Some(job)), key)))
  {
    assert job.scratch.Some? && job.build.executable.Some? ==> Exists(w, InScratch(job.scratch.value, Exe));
  }

  lemma PublishDriverFills(cfg: Config, w0: World, w: World, job: Job, key: Key)
    requires JobOk(w0, w, job) && job.hash.Some? && cfg.cached && cfg.hash(job.name) == job.hash && !Failed(job.build)
    requires PublishModel(cfg, w, job).1.Some? && (job.modelHit || FillsModel(cfg, job.name, StatusOf(Some(job))))
    ensures var model := PublishModel(cfg, w, job);
            var r := PublishDriver(cfg, model.0, model.1.value);
            !Free(r.0.entries, key) <==>
            !Free(model.0.entries, key) || (key.DriverKey? && Fills(cfg, job.name, StatusOf(Some(job)), key))
  {
    assert job.driverScratch.Some? ==>
        (Exists(PublishModel(cfg, w, job).0, InScratch(job.driverScratch.value, GradBench))
         <==> job.build.gradient.Some?);
  }
}
