/** The team running jobs that accumulate into shared memory.

    A job evaluates its chunk, which stores the chunk's density as the job's result, and then performs a
    list of accumulations `memory[cell] += delta`; each is a load and a later store, so jobs interleave
    between the two. A job may throw at any point. Every run brings its own jobs. A schedule is a
    sequence of actions, so a statement about every schedule is a statement about every interleaving.
*/
module Team {
  import opened Options
  import opened Control = TeamControl
  import opened TeamProgress

  datatype Update<V> = Update(cell: nat, delta: V)

  /** One job of a run: `density` is what evaluating its chunk gives, `held` what its result held before. */
  datatype Job<V> = Job(prog: seq<Update<V>>, density: V, held: V)

  /** How far a job of the current run has come, and which thread runs it. */
  datatype Progress<V> =
    | Idle
    | Running(thread: nat, evaluated: bool, pos: nat, loaded: Option<V>)
    | Finished(done: nat, error: Option<nat>)

  datatype Work<V> = Work(
    progs: seq<seq<Update<V>>>,
    densities: seq<V>,
    progress: seq<Progress<V>>,
    starts: seq<nat>,
    errors: seq<Option<nat>>,
    memory: seq<V>,
    results: seq<V>)

  /** What one completed run left behind; `thrown` is the job index and error that `run` rethrows. */
  datatype Record<V> = Record(work: Work<V>, next: nat, thrown: Option<(nat, nat)>)

  datatype State<V> = State(team: Control.Team, work: Work<V>, history: seq<Record<V>>)

  /** `add` is only a function: nothing here assumes that it is associative or commutative. */
  datatype Config<!V> = Config(threads: int, cells: nat, add: (V, V) -> V, zero: V)

  datatype Action<V> =
    | Plain(event: Event)
    | Begin(jobs: seq<Job<V>>)
    | Ticket(t: nat)
    | Evaluate(t: nat)
    | Advance(t: nat)
    | End(t: nat, outcome: Option<nat>)
    | Finish

  // ---------------------------------------------------------------- transitions

  predicate InBounds<V>(progs: seq<seq<Update<V>>>, cells: nat) {
    forall j, i :: 0 <= j < |progs| && 0 <= i < |progs[j]| ==> progs[j][i].cell < cells
  }

  function Progs<V>(jobs: seq<Job<V>>): (r: seq<seq<Update<V>>>)
    ensures |r| == |jobs| && forall j :: 0 <= j < |jobs| ==> r[j] == jobs[j].prog
  {
    seq(|jobs|, j requires 0 <= j < |jobs| => jobs[j].prog)
  }

  function EventOf<V>(a: Action<V>): Option<Event> {
    match a
    case Plain(e) => Some(e)
    case Begin(jobs) => Some(BeginRun(|jobs|))
    case Ticket(t) => Some(Draw(t))
    case Evaluate(_) => None
    case Advance(_) => None
    case End(t, _) => Some(JobEnd(t))
    case Finish => Some(Scan)
  }

  predicate WorkShape<V>(c: Config<V>, w: Work<V>) {
    && |w.progs| == |w.densities| == |w.progress| == |w.starts| == |w.errors| == |w.results|
    && |w.memory| == c.cells
    && InBounds(w.progs, c.cells)
  }

  predicate Shape<V>(c: Config<V>, s: State<V>) {
    && |s.work.progs| == s.team.jobs
    && WorkShape(c, s.work)
  }

  predicate CanStep<V(==)>(c: Config<V>, s: State<V>, a: Action<V>)
    requires Shape(c, s)
  {
    && (EventOf(a).Some? ==> Enabled(s.team, EventOf(a).value))
    && match a
       case Plain(e) => !e.BeginRun? && !e.Draw? && !e.JobEnd? && !e.Scan?
       case Begin(jobs) => InBounds(Progs(jobs), c.cells)
       case Ticket(_) => true
       case Evaluate(t) =>
         && Busy(s.team, t)
         && var j := JobOf(s.team, t);
         && j < s.team.jobs && s.work.progress[j].Running? && !s.work.progress[j].evaluated
       case Advance(t) =>
         && Busy(s.team, t)
         && var j := JobOf(s.team, t);
         && j < s.team.jobs && s.work.progress[j].Running? && s.work.progress[j].evaluated
         && s.work.progress[j].pos < |s.work.progs[j]|
       case End(t, outcome) =>
         && var j := JobOf(s.team, t);
         && j < s.team.jobs && s.work.progress[j].Running?
         && (outcome.None? ==>
             && s.work.progress[j].evaluated && s.work.progress[j].pos == |s.work.progs[j]|
             && s.work.progress[j].loaded.None?)
       case Finish => true
  }

  /** `run` clears the error slots, and its caller the accumulators, before anything is published. */
  function FreshWork<V>(c: Config<V>, jobs: seq<Job<V>>): Work<V> {
    var n := |jobs|;
    Work(Progs(jobs), seq(n, j requires 0 <= j < n => jobs[j].density),
         seq(n, _ => Idle), seq(n, _ => 0), seq(n, _ => None),
         seq(c.cells, _ => c.zero), seq(n, j requires 0 <= j < n => jobs[j].held))
  }

  function StartJob<V>(w: Work<V>, i: nat, t: nat): Work<V>
    requires i < |w.progress| && i < |w.starts|
  {
    w.(progress := w.progress[i := Running(t, false, 0, None)], starts := w.starts[i := w.starts[i] + 1])
  }

  /** `child->evaluate()` returns and has stored the density. */
  function EvaluateJob<V>(w: Work<V>, j: nat): Work<V>
    requires j < |w.progress| && j < |w.results| && j < |w.densities| && w.progress[j].Running?
  {
    w.(progress := w.progress[j := w.progress[j].(evaluated := true)], results := w.results[j := w.densities[j]])
  }

  /** One load or one store of `memory[cell] += delta`. */
  function AdvanceJob<V>(c: Config<V>, w: Work<V>, j: nat): Work<V>
    requires j < |w.progress| && j < |w.progs| && w.progress[j].Running?
    requires w.progress[j].pos < |w.progs[j]| && w.progs[j][w.progress[j].pos].cell < |w.memory|
  {
    var p := w.progress[j];
    var u := w.progs[j][p.pos];
    match p.loaded
    case None => w.(progress := w.progress[j := p.(loaded := Some(w.memory[u.cell]))])
    case Some(v) => w.(progress := w.progress[j := p.(pos := p.pos + 1, loaded := None)],
                       memory := w.memory[u.cell := c.add(v, u.delta)])
  }

  function EndJob<V>(w: Work<V>, j: nat, outcome: Option<nat>): Work<V>
    requires j < |w.progress| && j < |w.errors| && w.progress[j].Running?
  {
    w.(progress := w.progress[j := Finished(w.progress[j].pos, outcome)],
       errors := if outcome.Some? then w.errors[j := outcome] else w.errors)
  }

  /** The error that the scan of the slots in index order rethrows. */
  function FirstError(errors: seq<Option<nat>>, from: nat): (r: Option<(nat, nat)>)
    requires from <= |errors|
    ensures r.None? ==> forall j :: from <= j < |errors| ==> errors[j].None?
    ensures r.Some? ==> from <= r.value.0 < |errors| && errors[r.value.0] == Some(r.value.1)
                        && forall j :: from <= j < r.value.0 ==> errors[j].None?
    decreases |errors| - from
  {
    if from == |errors| then None
    else if errors[from].Some? then Some((from, errors[from].value))
    else FirstError(errors, from + 1)
  }

  function Step<V>(c: Config<V>, s: State<V>, a: Action<V>): State<V>
    requires Shape(c, s) && CanStep(c, s, a)
  {
    var team := if EventOf(a).Some? then Apply(s.team, EventOf(a).value) else s.team;
    match a
    case Plain(_) => s.(team := team)
    case Begin(jobs) => s.(team := team, work := FreshWork(c, jobs))
    case Ticket(t) =>
      if s.team.next < s.team.jobs then s.(team := team, work := StartJob(s.work, s.team.next, t))
      else s.(team := team)
    case Evaluate(t) => s.(work := EvaluateJob(s.work, JobOf(s.team, t)))
    case Advance(t) => s.(work := AdvanceJob(c, s.work, JobOf(s.team, t)))
    case End(t, outcome) => s.(team := team, work := EndJob(s.work, JobOf(s.team, t), outcome))
    case Finish =>
      s.(team := team, history := s.history + [Record(s.work, s.team.next, FirstError(s.work.errors, 0))])
  }

  function Start<V>(c: Config<V>): State<V> {
    State(Init(c.threads), FreshWork(c, []), [])
  }

  // ---------------------------------------------------------------- what a run leaves in memory

  function DoneOf<V>(p: Progress<V>): nat {
    match p
    case Idle => 0
    case Running(_, _, pos, _) => pos
    case Finished(done, _) => done
  }

  /** `cell` after the first `n` accumulations of one job, starting from `v`. */
  function Accumulate<V>(c: Config<V>, prog: seq<Update<V>>, n: nat, cell: nat, v: V): V
    requires n <= |prog|
  {
    if n == 0 then v else
      var before := Accumulate(c, prog, n - 1, cell, v);
      if prog[n - 1].cell == cell then c.add(before, prog[n - 1].delta) else before
  }

  /** `cell` when jobs 0, 1, .., n - 1 ran one after the other, each as far as `progress` says. */
  function Serial<V>(c: Config<V>, w: Work<V>, n: nat, cell: nat): V
    requires n <= |w.progs| == |w.progress|
    requires forall j :: 0 <= j < |w.progs| ==> DoneOf(w.progress[j]) <= |w.progs[j]|
  {
    if n == 0 then c.zero
    else Accumulate(c, w.progs[n - 1], DoneOf(w.progress[n - 1]), cell, Serial(c, w, n - 1, cell))
  }

  /** No cell is accumulated into by two different jobs. */
  predicate Exclusive<V>(progs: seq<seq<Update<V>>>) {
    forall j, i, j', i' |
      0 <= j < |progs| && 0 <= i < |progs[j]| && 0 <= j' < |progs| && 0 <= i' < |progs[j']| ::
      progs[j][i].cell == progs[j'][i'].cell ==> j == j'
  }

  // ---------------------------------------------------------------- the invariant

  predicate InRun(k: Caller) { Active(k) || k.Scanning? }

  /** A job is running exactly when the one thread recorded for it is executing it. */
  ghost predicate Ownership<V>(c: Config<V>, s: State<V>)
    requires Shape(c, s)
  {
    forall t: nat, j: nat :: Holds(s.team, t, j) <==>
      j < s.team.jobs && Active(s.team.caller) && s.work.progress[j].Running? && s.work.progress[j].thread == t
  }

  /** The job's child holds the density of this run. */
  predicate Stored<V>(p: Progress<V>) {
    (p.Running? && p.evaluated) || (p.Finished? && p.error.None?)
  }

  predicate JobOk<V>(k: Caller, drawn: bool, prog: seq<Update<V>>, p: Progress<V>, starts: nat, error: Option<nat>) {
    && (InRun(k) ==> starts == (if drawn then 1 else 0) && (p.Idle? <==> !drawn))
    && (k.Publishing? ==> starts == 0 && p.Idle?)
    && (k.Scanning? ==> p.Finished?)
    && error == (if p.Finished? then p.error else None)
    && DoneOf(p) <= |prog|
    && (p.Running? && p.loaded.Some? ==> p.pos < |prog|)
    && (p.Finished? && p.error.None? ==> p.done == |prog|)
  }

  /** Tickets below `next` are out exactly once, and a job's error slot holds how it ended. */
  predicate JobsOk<V>(c: Config<V>, s: State<V>)
    requires Shape(c, s)
  {
    forall j :: 0 <= j < s.team.jobs ==>
      JobOk(s.team.caller, j < s.team.next, s.work.progs[j], s.work.progress[j], s.work.starts[j], s.work.errors[j])
  }

  /** A child that was evaluated in this run holds this run's density. */
  ghost predicate ResultsOk<V>(w: Work<V>)
    requires |w.progress| == |w.results| == |w.densities|
  {
    forall j :: 0 <= j < |w.progress| && Stored(w.progress[j]) ==> w.results[j] == w.densities[j]
  }

  /** Between its load and its store nobody else writes the cell a job is updating. */
  ghost predicate LoadedOk<V>(prog: seq<Update<V>>, p: Progress<V>, memory: seq<V>) {
    p.Running? && p.loaded.Some? && p.pos < |prog| && prog[p.pos].cell < |memory| ==>
      p.loaded.value == memory[prog[p.pos].cell]
  }

  ghost predicate MemoryOk<V>(c: Config<V>, w: Work<V>)
    requires |w.progs| == |w.progress| && |w.memory| == c.cells && InBounds(w.progs, c.cells)
    requires forall j :: 0 <= j < |w.progs| ==> DoneOf(w.progress[j]) <= |w.progs[j]|
  {
    && (forall cell :: 0 <= cell < c.cells ==> w.memory[cell] == Serial(c, w, |w.progs|, cell))
    && (forall j :: 0 <= j < |w.progs| ==> LoadedOk(w.progs[j], w.progress[j], w.memory))
  }

  /** Each job ran exactly once and each thread drew one ticket past them, the lowest failing job decides
      what is thrown, without an error every result is this run's density, and exclusive jobs left what
      running them one after the other leaves. */
  ghost predicate GoodRecord<V>(c: Config<V>, r: Record<V>) {
    && WorkShape(c, r.work)
    && var jobs := |r.work.progs|;
    && r.next == jobs + (if c.threads > 1 then c.threads else 1)
    && (forall j :: 0 <= j < jobs ==>
        r.work.starts[j] == 1 && r.work.progress[j].Finished? && r.work.errors[j] == r.work.progress[j].error
        && DoneOf(r.work.progress[j]) <= |r.work.progs[j]|)
    && r.thrown == FirstError(r.work.errors, 0)
    && (r.thrown.None? ==>
        && (forall j :: 0 <= j < jobs ==> r.work.progress[j] == Finished(|r.work.progs[j]|, None))
        && r.work.results == r.work.densities)
    && (Exclusive(r.work.progs) ==>
        forall cell :: 0 <= cell < c.cells ==> r.work.memory[cell] == Serial(c, r.work, jobs, cell))
  }

  ghost predicate WorkInv<V>(c: Config<V>, s: State<V>) {
    && Shape(c, s)
    && Ownership(c, s)
    && JobsOk(c, s)
    && ResultsOk(s.work)
  }

  ghost predicate SafeState<V>(c: Config<V>, s: State<V>) {
    && Inv(s.team) && s.team.threads == c.threads
    && WorkInv(c, s)
    && (Exclusive(s.work.progs) ==> MemoryOk(c, s.work))
    && (forall i :: 0 <= i < |s.history| ==> GoodRecord(c, s.history[i]))
  }

  // ---------------------------------------------------------------- preservation: who runs what

  lemma StartSafe<V>(c: Config<V>)
    ensures SafeState(c, Start(c))
  {
    var s := Start(c);
    forall cell | 0 <= cell < c.cells ensures s.work.memory[cell] == Serial(c, s.work, 0, cell) {
      FreshSerial(c, [], 0, cell);
    }
  }

  lemma {:induction false} FreshSerial<V>(c: Config<V>, jobs: seq<Job<V>>, n: nat, cell: nat)
    requires n <= |jobs|
    ensures Serial(c, FreshWork(c, jobs), n, cell) == c.zero
  {
    if n > 0 {
      FreshSerial(c, jobs, n - 1, cell);
    }
  }

  predicate WorkerEvent(e: Event) {
    e.WorkerReady? || e.WorkerFails? || e.WorkerCheck? || e.WorkerLeave? || e.SpuriousWorker?
  }

  /** What the records of jobs depend on in the control state. */
  predicate SameView(a: Control.Team, b: Control.Team) {
    && a.jobs == b.jobs && a.next == b.next
    && InRun(a.caller) == InRun(b.caller) && Active(a.caller) == Active(b.caller)
    && a.caller.Publishing? == b.caller.Publishing? && a.caller.Scanning? == b.caller.Scanning?
  }

  lemma SameViewKeepsWork<V>(c: Config<V>, s: State<V>, s': State<V>)
    requires WorkInv(c, s) && s'.work == s.work && SameView(s.team, s'.team)
    requires forall t: nat, j: nat :: Holds(s'.team, t, j) <==> Holds(s.team, t, j)
    ensures WorkInv(c, s')
  { }

  lemma WorkerEventKeepsWork<V>(c: Config<V>, s: State<V>, e: Event)
    requires Inv(s.team) && WorkInv(c, s) && CanStep(c, s, Plain(e)) && WorkerEvent(e)
    ensures WorkInv(c, Step(c, s, Plain(e)))
  {
    assert forall t: nat, j: nat :: Holds(Apply(s.team, e), t, j) <==> Holds(s.team, t, j);
    SameViewKeepsWork(c, s, Step(c, s, Plain(e)));
  }

  lemma NotifyKeepsWork<V>(c: Config<V>, s: State<V>, e: Event)
    requires Inv(s.team) && WorkInv(c, s) && CanStep(c, s, Plain(e)) && (e.Wake? || e.WakeAll? || e.Publish?)
    ensures WorkInv(c, Step(c, s, Plain(e)))
  {
    assert forall t: nat, j: nat :: Holds(Apply(s.team, e), t, j) <==> Holds(s.team, t, j);
  }

  lemma CallerEventKeepsWork<V>(c: Config<V>, s: State<V>, e: Event)
    requires Inv(s.team) && WorkInv(c, s) && CanStep(c, s, Plain(e)) && !WorkerEvent(e)
    requires !e.Wake? && !e.WakeAll? && !e.Publish? && !e.CheckDone? && !e.Spawn?
    ensures WorkInv(c, Step(c, s, Plain(e)))
  {
    assert Apply(s.team, e).workers == s.team.workers;
    SameViewKeepsWork(c, s, Step(c, s, Plain(e)));
  }

  lemma PlainKeepsWork<V>(c: Config<V>, s: State<V>, e: Event)
    requires Inv(s.team) && WorkInv(c, s) && CanStep(c, s, Plain(e))
    ensures WorkInv(c, Step(c, s, Plain(e)))
  {
    if e.CheckDone? {
      CheckDoneKeepsWork(c, s);
    } else if e.Spawn? {
      SpawnKeepsWork(c, s, e);
    } else if WorkerEvent(e) {
      WorkerEventKeepsWork(c, s, e);
    } else if e.Wake? || e.WakeAll? || e.Publish? {
      NotifyKeepsWork(c, s, e);
    } else {
      CallerEventKeepsWork(c, s, e);
    }
  }

  lemma SpawnKeepsWork<V>(c: Config<V>, s: State<V>, e: Event)
    requires Inv(s.team) && WorkInv(c, s) && CanStep(c, s, Plain(e)) && e.Spawn?
    ensures WorkInv(c, Step(c, s, Plain(e)))
  {
    assert forall t: nat, j: nat :: Holds(Apply(s.team, e), t, j) ==> Holds(s.team, t, j);
  }

  /** When the countdown is zero nobody holds a job, so every job has finished. */
  lemma CheckDoneKeepsWork<V>(c: Config<V>, s: State<V>)
    requires Inv(s.team) && WorkInv(c, s) && CanStep(c, s, Plain(CheckDone))
    ensures WorkInv(c, Step(c, s, Plain(CheckDone)))
  {
    assert forall t: nat, j: nat :: Holds(Apply(s.team, CheckDone), t, j) <==> Holds(s.team, t, j);
    if s.team.remaining == 0 {
      CountExtremes(Engaged, s.team.workers, s.team.generation);
      assert forall j :: 0 <= j < s.team.jobs && s.work.progress[j].Running? ==>
        Holds(s.team, s.work.progress[j].thread, j);
    }
  }

  lemma BeginKeepsWork<V>(c: Config<V>, s: State<V>, a: Action<V>)
    requires Inv(s.team) && WorkInv(c, s) && CanStep(c, s, a)
    requires a.Begin? || a.Finish?
    ensures WorkInv(c, Step(c, s, a))
  {
    assert forall t: nat, j: nat :: Holds(Step(c, s, a).team, t, j) <==> Holds(s.team, t, j);
  }

  lemma TicketKeepsWork<V>(c: Config<V>, s: State<V>, t: nat)
    requires Inv(s.team) && WorkInv(c, s) && CanStep(c, s, Ticket(t))
    ensures WorkInv(c, Step(c, s, Ticket(t)))
  {
    TicketHolders(s.team, t);
    TicketJobs(c, s, t);
  }

  lemma TicketHolders(s: Control.Team, t: nat)
    requires Drawing(s, t)
    ensures forall u: nat, j: nat ::
      Holds(DrawTicket(s, t), u, j) <==> Holds(s, u, j) || (u == t && j == s.next && j < s.jobs)
  { }

  lemma TicketJobs<V>(c: Config<V>, s: State<V>, t: nat)
    requires Inv(s.team) && WorkInv(c, s) && CanStep(c, s, Ticket(t))
    ensures Shape(c, Step(c, s, Ticket(t))) && JobsOk(c, Step(c, s, Ticket(t)))
    ensures ResultsOk(Step(c, s, Ticket(t)).work)
  { }

  lemma EvaluateKeepsWork<V>(c: Config<V>, s: State<V>, t: nat)
    requires Inv(s.team) && WorkInv(c, s) && CanStep(c, s, Evaluate(t))
    ensures WorkInv(c, Step(c, s, Evaluate(t)))
  {
  }

  lemma AdvanceKeepsWork<V>(c: Config<V>, s: State<V>, t: nat)
    requires Inv(s.team) && WorkInv(c, s) && CanStep(c, s, Advance(t))
    ensures WorkInv(c, Step(c, s, Advance(t)))
  {
  }

  lemma EndKeepsWork<V>(c: Config<V>, s: State<V>, t: nat, outcome: Option<nat>)
    requires Inv(s.team) && WorkInv(c, s) && CanStep(c, s, End(t, outcome))
    ensures WorkInv(c, Step(c, s, End(t, outcome)))
  {
    var s' := Step(c, s, End(t, outcome));
    var job := JobOf(s.team, t);
    assert forall u: nat, j: nat :: Holds(s'.team, u, j) <==> Holds(s.team, u, j) && !(u == t && j == job);
  }

  lemma StepKeepsWork<V>(c: Config<V>, s: State<V>, a: Action<V>)
    requires Inv(s.team) && WorkInv(c, s) && CanStep(c, s, a)
    ensures WorkInv(c, Step(c, s, a))
  {
    match a
    case Plain(e) => PlainKeepsWork(c, s, e);
    case Begin(_) => BeginKeepsWork(c, s, a);
    case Finish => BeginKeepsWork(c, s, a);
    case Ticket(t) => TicketKeepsWork(c, s, t);
    case Evaluate(t) => EvaluateKeepsWork(c, s, t);
    case Advance(t) => AdvanceKeepsWork(c, s, t);
    case End(t, outcome) => EndKeepsWork(c, s, t, outcome);
  }
}
