/** What the record of a model says, as a function of what the cache held and of how the steps turn out. */
module JobRecords {
  import opened Options
  import opened CmdstanJob
  import opened JobInvariants
  import opened JobStatus
  import opened Prebuild

  // ---------------------------------------------------------------- read off the lookups and the outcomes

  /** The header is there for the driver and for make. */
  predicate HasHeader(f: Fate, model: bool) {
    model || f.stanc.Succeeds?
  }

  predicate StepFails(f: Fate, model: bool, driver: bool) {
    || (!model && f.stanc.Fails?)
    || (HasHeader(f, model) && ((!driver && f.driver == Ran(Fails)) || (!model && f.make.Fails?)))
  }

  predicate DriverBuilt(f: Fate, model: bool, driver: bool) {
    HasHeader(f, model) && !driver && f.driver == Ran(Succeeds)
  }

  /** Publishing or keeping what was built raises. */
  predicate FinishingRaises(f: Fate, model: bool, driver: bool) {
    if StepFails(f, model, driver)
    then !model && (f.finishing.moveModel || (DriverBuilt(f, model, driver) && f.finishing.moveDriver))
    else (!model && f.finishing.hashModel) || (!driver && f.finishing.hashDriver)
  }

  /** Some step of the model raises; `model` and `driver` say which lookups hit. */
  predicate Raises(cfg: Config, name: Name, model: bool, driver: bool) {
    var f := cfg.fate(name);
    || f.making.NoDirectory? || (cfg.cached && cfg.hash(name).None?)
    || (!model && (f.making.NoSource? || f.stanc.Raises?))
    || (HasHeader(f, model) && !driver && (!f.driver.Ran? || f.driver.outcome.Raises?))
    || (HasHeader(f, model) && !model && f.make.Raises?)
    || (cfg.cached && FinishingRaises(f, model, driver))
  }

  /** Everything the record says. A step that raises leaves a failure and nothing else. */
  predicate RecordIs(cfg: Config, name: Name, model: bool, driver: bool, b: Build) {
    var f, raised := cfg.fate(name), Raises(cfg, name, model, driver);
    && (b.hit <==> model && driver && !raised)
    && (b.gradientFailed <==>
          raised || (!model && f.stanc.Fails?) || (HasHeader(f, model) && !driver && f.driver == Ran(Fails)))
    && (b.buildFailed <==> !raised && HasHeader(f, model) && !model && f.make.Fails?)
    && (b.executable.Some? <==> !raised && (model || (HasHeader(f, model) && f.make.Succeeds?)))
    && (b.gradient.Some? <==> !raised && (driver || DriverBuilt(f, model, driver)))
    && PathsAre(cfg, name, model, driver, b)
  }

  /** Binaries of a hit or of a model that did not fail are in the cache, others in the run. */
  predicate PathsAre(cfg: Config, name: Name, model: bool, driver: bool, b: Build) {
    && (b.executable.Some? ==>
          b.executable.value ==
          if cfg.cached && cfg.hash(name).Some? && (model || !Failed(b))
          then InEntry(ModelKey(cfg.hash(name).value), Exe)
          else InWork(name, Exe))
    && (b.gradient.Some? ==>
          b.gradient.value ==
          if cfg.cached && cfg.hash(name).Some? && (driver || !Failed(b))
          then InEntry(DriverKey(cfg.hash(name).value), GradBench)
          else InWork(name, GradBench))
  }

  /** The constructor succeeds. */
  predicate Constructs(cfg: Config, name: Name, model: bool) {
    var f := cfg.fate(name);
    && !f.making.NoDirectory? && (cfg.cached ==> cfg.hash(name).Some?) && (!model ==> !f.making.NoSource?)
  }

  /** The commands of a model, in order: stanc and make only on a miss of the model, the driver only on a miss
      of the driver, both only behind a header, and make not behind a driver that raised. */
  function CommandsOf(cfg: Config, name: Name, model: bool, driver: bool): seq<Event> {
    var f := cfg.fate(name);
    if !Constructs(cfg, name, model) then [] else
      (if model then [] else RunOf(Stanc, name)) +
      (if HasHeader(f, model) && !driver && (cfg.cached ==> f.driver.Ran?) then RunOf(Driver, name) else []) +
      (if HasHeader(f, model) && !model && (driver || (f.driver.Ran? && !f.driver.outcome.Raises?))
       then RunOf(Make, name) else [])
  }

  /** The same, stage by stage, from the status after the constructor. */
  function CommandsFrom(cfg: Config, name: Name, s: Status): seq<Event> {
    var f := cfg.fate(name);
    if s.Dead? then [] else
      (if s.modelHit then [] else RunOf(Stanc, name)) +
      (if RunsDriverFrom(cfg, name, s) then RunOf(Driver, name) else []) +
      (if RunsMakeFrom(cfg, name, s) then RunOf(Make, name) else [])
  }

  predicate RunsDriverFrom(cfg: Config, name: Name, s: Status) {
    var first := AfterStanc(cfg.fate(name), s);
    IsReady(first) && !first.driverHit && Starts(cfg, name)
  }

  predicate RunsMakeFrom(cfg: Config, name: Name, s: Status) {
    var first := AfterStanc(cfg.fate(name), s);
    var second := AfterDriver(cfg.fate(name), first);
    IsReady(first) && second.Alive? && !second.modelHit
  }

  lemma CommandsAre(cfg: Config, w: World, name: Name)
    ensures var h := HashOf(cfg, name);
            CommandsFrom(cfg, name, Initial(cfg, w, name)) ==
            CommandsOf(cfg, name, h.Some? && Lookup(w, ModelKey(h.value)), h.Some? && Lookup(w, DriverKey(h.value)))
  { }

  // ---------------------------------------------------------------- from the status at the end

  predicate FinishRaises(cfg: Config, name: Name, s: Status)
    requires s.Alive?
  {
    var f := cfg.fate(name).finishing;
    cfg.cached &&
    if s.gradientFailed || s.buildFailed
    then !s.modelHit && (f.moveModel || (s.gradient && !s.driverHit && f.moveDriver))
    else (!s.modelHit && f.hashModel) || (!s.driverHit && f.hashDriver)
  }

  function ExecutablePath(cfg: Config, name: Name, s: Status): Path
    requires s.Alive?
  {
    if cfg.cached && cfg.hash(name).Some? && (s.modelHit || !(s.gradientFailed || s.buildFailed))
    then InEntry(ModelKey(cfg.hash(name).value), Exe)
    else InWork(name, Exe)
  }

  function GradientPath(cfg: Config, name: Name, s: Status): Path
    requires s.Alive?
  {
    if cfg.cached && cfg.hash(name).Some? && (s.driverHit || !(s.gradientFailed || s.buildFailed))
    then InEntry(DriverKey(cfg.hash(name).value), GradBench)
    else InWork(name, GradBench)
  }

  /** None stands for an exception. */
  function RecordFrom(cfg: Config, name: Name, s: Status): Option<Build> {
    if s.Dead? || FinishRaises(cfg, name, s) then None
    else Some(Build(if s.gradient then Some(GradientPath(cfg, name, s)) else None,
                    if s.executable then Some(ExecutablePath(cfg, name, s)) else None,
                    s.gradientFailed, s.buildFailed, s.modelHit && s.driverHit))
  }

  /** Unless something failed, both binaries are there. */
  predicate GotThrough(s: Status) {
    s.Alive? && !s.gradientFailed && !s.buildFailed ==> s.gradient && s.executable && (s.modelHit || s.stancOk)
  }

  predicate Fresh(s: Status) {
    s.Alive? ==>
      && !s.gradientFailed && !s.buildFailed && !s.stancOk
      && s.gradient == s.driverHit && s.executable == s.modelHit
  }

  lemma InitialIsFresh(cfg: Config, w: World, name: Name)
    ensures Fresh(Initial(cfg, w, name))
  { }

  lemma FinalIsThrough(f: Fate, s: Status)
    requires Fresh(s)
    ensures GotThrough(Final(f, s))
  { }

  /** What finishing a job returns depends on its status alone. */
  lemma FinishRecord(cfg: Config, w0: World, w: World, job: Job)
    requires JobOk(w0, w, job) && job.hash == HashOf(cfg, job.name) && (cfg.cached ==> job.hash.Some?)
    requires GotThrough(StatusOf(Some(job)))
    ensures Finish(cfg, w, job).1 == RecordFrom(cfg, job.name, StatusOf(Some(job)))
  {
    if job.hash.Some? {
      if Failed(job.build) {
        KeepRecord(cfg, w0, w, job);
      } else {
        PublishRecord(cfg, w0, w, job);
      }
    }
  }

  lemma KeepRecord(cfg: Config, w0: World, w: World, job: Job)
    requires JobOk(w0, w, job) && job.hash == HashOf(cfg, job.name) && job.hash.Some? && Failed(job.build)
    ensures Keep(cfg, w, job).1 == RecordFrom(cfg, job.name, StatusOf(Some(job)))
  { }

  lemma PublishRecord(cfg: Config, w0: World, w: World, job: Job)
    requires JobOk(w0, w, job) && job.hash == HashOf(cfg, job.name) && job.hash.Some? && !Failed(job.build)
    requires GotThrough(StatusOf(Some(job)))
    ensures Finish(cfg, w, job).1 == RecordFrom(cfg, job.name, StatusOf(Some(job)))
  { }

  // ---------------------------------------------------------------- the two agree

  /** What is recorded of a model that ends like this. */
  function Noted(cfg: Config, name: Name, s: Status): Build {
    if RecordFrom(cfg, name, s).Some? then RecordFrom(cfg, name, s).value else Broken
  }

  lemma NotedIs(cfg: Config, w: World, name: Name)
    ensures var h := HashOf(cfg, name);
            RecordIs(cfg, name, h.Some? && Lookup(w, ModelKey(h.value)), h.Some? && Lookup(w, DriverKey(h.value)),
                     Noted(cfg, name, Final(cfg.fate(name), Initial(cfg, w, name))))
  { }

  /** A record without a failure has both paths. */
  lemma NoFailureNoGap(cfg: Config, name: Name, model: bool, driver: bool, b: Build)
    requires RecordIs(cfg, name, model, driver, b) && !Failed(b)
    ensures b.executable.Some? && b.gradient.Some?
  { }
}
