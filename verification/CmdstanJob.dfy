/** One model's CmdStan build in stages, over a build cache that holds a model and a driver entry. */
module CmdstanJob {
  import opened Options

  type Name = string
  datatype File = Stan | Hpp | Exe | GradBench

  /** Two keys per source: injective hashes of the source and of a context, so never equal. */
  datatype Key = ModelKey(hash: nat) | DriverKey(hash: nat)

  datatype Folder = Folder(files: set<File>, listed: Option<set<File>>)

  datatype Path = InEntry(key: Key, file: File) | InScratch(id: nat, file: File) | InWork(name: Name, file: File)

  datatype Stage = Stanc | Driver | Make
  datatype Command = Command(stage: Stage, name: Name)
  datatype Event = Begin(cmd: Command) | End(cmd: Command)

  /** The cache directory, the per-model work directories and the commands run so far. */
  datatype World = World(entries: map<Key, Folder>, scratch: map<nat, set<File>>, work: map<Name, set<File>>,
                         next: nat, log: seq<Event>)

  datatype Build = Build(gradient: Option<Path>, executable: Option<Path>, gradientFailed: bool, buildFailed: bool,
                         hit: bool)

  datatype Job = Job(name: Name, hash: Option<nat>, modelHit: bool, driverHit: bool, scratch: Option<nat>,
                     driverScratch: Option<nat>, stancOk: bool, build: Build)

  // ---------------------------------------------------------------- what may go wrong

  datatype Outcome = Succeeds | Fails | Raises
  datatype MakingJob = Made | NoDirectory | NoSource
  datatype MakingDriver = Ran(outcome: Outcome) | NoScratch | NoCopy
  datatype Finishing = Finishing(moveModel: bool, moveDriver: bool, hashModel: bool, hashDriver: bool)

  /** How each step of one job turns out; every pattern of failures is one such value. */
  datatype Fate = Fate(making: MakingJob, stanc: Outcome, driver: MakingDriver, make: Outcome, finishing: Finishing)

  /** `hash` is None when the source cannot be read; `rival` says that another process commits first. */
  datatype Config = Config(cached: bool, hash: Name -> Option<nat>, fate: Name -> Fate, rival: Key -> bool)

  // ---------------------------------------------------------------- paths and the cache

  predicate Exists(w: World, p: Path) {
    match p
    case InEntry(key, file) => key in w.entries && file in w.entries[key].files
    case InScratch(id, file) => id in w.scratch && file in w.scratch[id]
    case InWork(name, file) => name in w.work && file in w.work[name]
  }

  predicate Complete(f: Folder) {
    f.listed.Some? && f.listed.value <= f.files
  }

  predicate IsEmpty(f: Folder) {
    f == Folder({}, None)
  }

  /** Rename replaces nothing but an empty directory. */
  predicate Free(entries: map<Key, Folder>, key: Key) {
    key !in entries || IsEmpty(entries[key])
  }

  predicate Lookup(w: World, key: Key) {
    key in w.entries && Complete(w.entries[key])
  }

  function NewScratch(w: World, files: set<File>): World {
    w.(scratch := w.scratch[w.next := files], next := w.next + 1)
  }

  function Discard(w: World, id: Option<nat>): World {
    if id.Some? then w.(scratch := w.scratch - {id.value}) else w
  }

  /** Rename into place unless a nonempty entry is there already; either way the scratch directory is gone. */
  function Commit(cfg: Config, w: World, id: nat, key: Key, listed: set<File>): World
    requires id in w.scratch
  {
    var mine := Folder(w.scratch[id], Some(listed));
    var entry := if cfg.rival(key) then Folder(listed, Some(listed)) else mine;
    Discard(w, Some(id)).(entries := if Free(w.entries, key) then w.entries[key := entry] else w.entries)
  }

  function AddFile(w: World, job: Job, file: File): World {
    if job.scratch.Some? then
      if job.scratch.value in w.scratch then
        w.(scratch := w.scratch[job.scratch.value := w.scratch[job.scratch.value] + {file}]) else w
    else w.(work := w.work[job.name := (if job.name in w.work then w.work[job.name] else {}) + {file}])
  }

  function Home(job: Job, file: File): Path {
    if job.scratch.Some? then InScratch(job.scratch.value, file) else InWork(job.name, file)
  }

  // ---------------------------------------------------------------- the stages

  const NoBuild := Build(None, None, false, false, false)

  function Construct(cfg: Config, w: World, name: Name): (r: (World, Option<Job>)) {
    var fate := cfg.fate(name).making;
    if fate.NoDirectory? then (w, None)
    else if !cfg.cached then
      var job := Job(name, None, false, false, None, None, false, NoBuild);
      if fate.NoSource? then (w, None) else (AddFile(w, job, Stan), Some(job))
    else if cfg.hash(name).None? then (w, None)
    else
      var h := cfg.hash(name).value;
      var model, driver := Lookup(w, ModelKey(h)), Lookup(w, DriverKey(h));
      var build := Build(if driver then Some(InEntry(DriverKey(h), GradBench)) else None,
                         if model then Some(InEntry(ModelKey(h), Exe)) else None, false, false, model && driver);
      if model then (w, Some(Job(name, Some(h), true, driver, None, None, false, build)))
      else if fate.NoSource? then (NewScratch(w, {}), None)
      else (NewScratch(w, {Stan}), Some(Job(name, Some(h), false, driver, Some(w.next), None, false, build)))
  }

  function Logged(w: World, e: Event): World {
    w.(log := w.log + [e])
  }

  function Alone(w: World, stage: Stage, name: Name): World {
    Logged(Logged(w, Begin(Command(stage, name))), End(Command(stage, name)))
  }

  /** None stands for an exception. */
  function RunStanc(cfg: Config, w: World, job: Job): (World, Option<Job>) {
    if job.modelHit then (w, Some(job))
    else
      var after := Alone(w, Stanc, job.name);
      match cfg.fate(job.name).stanc
      case Raises => (after, None)
      case Fails => (after, Some(job.(build := job.build.(gradientFailed := true))))
      case Succeeds => (AddFile(after, job, Hpp), Some(job.(stancOk := true)))
  }

  predicate HeaderReady(job: Job) {
    job.modelHit || job.stancOk
  }

  /** Up to the start of the driver command. The last component is false when it never starts. */
  function StartDriver(cfg: Config, w: World, job: Job): (r: (World, Job, bool))
  {
    var command := Command(Driver, job.name);
    match cfg.fate(job.name).driver
    case NoScratch => if cfg.cached then (w, job, false) else (Logged(w, Begin(command)), job, true)
    case NoCopy =>
      if cfg.cached then (NewScratch(w, {}), job.(driverScratch := Some(w.next)), false)
      else (Logged(w, Begin(command)), job, true)
    case Ran(_) =>
      if cfg.cached then (Logged(NewScratch(w, {Hpp}), Begin(command)), job.(driverScratch := Some(w.next)), true)
      else (Logged(w, Begin(command)), job, true)
  }

  function DriverOutcome(cfg: Config, job: Job): Outcome {
    match cfg.fate(job.name).driver
    case Ran(outcome) => outcome
    case _ => Raises
  }

  function EndDriver(cfg: Config, w: World, job: Job): (World, Option<Job>) {
    var after := Logged(w, End(Command(Driver, job.name)));
    match DriverOutcome(cfg, job)
    case Raises => (after, None)
    case Fails => (after, Some(job.(build := job.build.(gradientFailed := true))))
    case Succeeds =>
      var at := job.(scratch := if job.driverScratch.Some? then job.driverScratch else job.scratch);
      (AddFile(after, at, GradBench), Some(job.(build := job.build.(gradient := Some(Home(at, GradBench))))))
  }

  function RunMake(cfg: Config, w: World, job: Job): (World, Option<Job>) {
    if job.modelHit then (w, Some(job))
    else
      var after := Alone(w, Make, job.name);
      match cfg.fate(job.name).make
      case Raises => (after, None)
      case Fails => (after, Some(job.(build := job.build.(buildFailed := true))))
      case Succeeds => (AddFile(after, job, Exe), Some(job.(build := job.build.(executable := Some(Home(job, Exe))))))
  }

  function Abort(w: World, job: Job): World {
    Discard(Discard(w, job.scratch), job.driverScratch)
  }

  predicate Failed(b: Build) {
    b.gradientFailed || b.buildFailed
  }

  /** Keep an incomplete build in the run. */
  function Keep(cfg: Config, w: World, job: Job): (World, Option<Build>) {
    var fate := cfg.fate(job.name).finishing;
    if job.scratch.None? then (w, Some(job.build))
    else if fate.moveModel || job.scratch.value !in w.scratch then (w, None)
    else
      var kept := Discard(w, job.scratch).(work := w.work[job.name := w.scratch[job.scratch.value]]);
      var build := if job.build.executable.Some? then
          job.build.(executable := Some(InWork(job.name, job.build.executable.value.file))) else job.build;
      if build.gradient.None? || job.driverScratch.None? then (kept, Some(build))
      else if fate.moveDriver || !Exists(w, InScratch(job.driverScratch.value, GradBench)) then (kept, None)
      else (kept.(work := kept.work[job.name := kept.work[job.name] + {GradBench}]),
            Some(build.(gradient := Some(InWork(job.name, GradBench)))))
  }

  function PublishModel(cfg: Config, w: World, job: Job): (World, Option<Job>)
    requires job.hash.Some?
  {
    if job.scratch.None? then (w, Some(job))
    else if cfg.fate(job.name).finishing.hashModel
         || !Exists(w, InScratch(job.scratch.value, Exe)) || !job.stancOk then (w, None)
    else
      var key := ModelKey(job.hash.value);
      (Commit(cfg, w, job.scratch.value, key, {Stan, Hpp, Exe}),
       Some(job.(scratch := None, build := job.build.(executable := Some(InEntry(key, Exe))))))
  }

  function PublishDriver(cfg: Config, w: World, job: Job): (World, Option<Job>)
    requires job.hash.Some?
  {
    if job.driverScratch.None? then (w, Some(job))
    else if cfg.fate(job.name).finishing.hashDriver
         || !Exists(w, InScratch(job.driverScratch.value, GradBench)) then (w, None)
    else
      var key := DriverKey(job.hash.value);
      var cleaned := w.(scratch := w.scratch[job.driverScratch.value := w.scratch[job.driverScratch.value] - {Hpp}]);
      (Commit(cfg, cleaned, job.driverScratch.value, key, {GradBench}),
       Some(job.(driverScratch := None, build := job.build.(gradient := Some(InEntry(key, GradBench))))))
  }

  /** Publish complete builds, keep incomplete ones; abort in any case. */
  function Finish(cfg: Config, w: World, job: Job): (World, Option<Build>) {
    if job.hash.None? then (w, Some(job.build))
    else if Failed(job.build) then
      var kept := Keep(cfg, w, job);
      (Abort(kept.0, job), kept.1)
    else
      var model := PublishModel(cfg, w, job);
      if model.1.None? then (Abort(model.0, job), None)
      else
        var driver := PublishDriver(cfg, model.0, model.1.value);
        (Abort(driver.0, job), if driver.1.Some? then Some(driver.1.value.build) else None)
  }
}
