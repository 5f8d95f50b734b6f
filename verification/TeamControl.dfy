/** The fixed worker team's control protocol: a calling thread and persistent workers that share one
    ticket counter, a generation, a countdown and a shutdown flag.

    Each thread has a program counter. An event is one atomic step of one thread: a critical section
    of the mutex or one ticket draw. Condition variables are explicit: a thread that finds its wait
    predicate false falls asleep, and only a notification or a spurious wake-up makes it look again.
*/
module TeamControl {
  datatype Pc = Starting | Asleep | Checking | Fetching | Working(job: nat) | Leaving | Gone

  /** `seen` is the last generation the worker joined. */
  datatype Worker = Worker(pc: Pc, seen: nat)

  /** The calling thread: the constructor, `run` and `stop`. */
  datatype Caller =
    | Spawning
    | AwaitReady(asleep: bool)
    | Quiet
    | Publishing
    | Waking
    | Draining
    | Executing(task: nat)
    | AwaitDone(asleep: bool)
    | Scanning
    | Stopping
    | WakingAll
    | Joining(joined: nat)
    | Closed

  /** `jobs` is the number of jobs of the current run. */
  datatype Team = Team(
    threads: int,
    jobs: nat,
    workers: seq<Worker>,
    caller: Caller,
    ready: nat,
    remaining: int,
    generation: nat,
    next: nat,
    stopping: bool,
    startupError: bool)

  datatype Event =
    | Spawn
    | SpawnFails
    | AllSpawned
    | CheckReady
    | WorkerReady(t: nat)
    | WorkerFails(t: nat)
    | WorkerCheck(t: nat)
    | Draw(t: nat)
    | JobEnd(t: nat)
    | WorkerLeave(t: nat)
    | BeginRun(jobs: nat)
    | Publish
    | Wake
    | CheckDone
    | Scan
    | BeginStop
    | SetStopping
    | WakeAll
    | Join
    | SpuriousWorker(t: nat)
    | SpuriousCaller

  // ---------------------------------------------------------------- transitions

  function Init(threads: int): Team {
    Team(threads, 0, [], Spawning, 0, 0, 0, 0, false, false)
  }

  /** Thread number `|workers|` is the calling thread. */
  predicate Drawing(s: Team, t: nat) {
    if t < |s.workers| then s.workers[t].pc.Fetching? else t == |s.workers| && s.caller.Draining?
  }

  predicate Holds(s: Team, t: nat, j: nat) {
    if t < |s.workers| then s.workers[t].pc == Working(j) else t == |s.workers| && s.caller == Executing(j)
  }

  predicate Busy(s: Team, t: nat) {
    if t < |s.workers| then s.workers[t].pc.Working? else t == |s.workers| && s.caller.Executing?
  }

  function JobOf(s: Team, t: nat): (j: nat)
    requires Busy(s, t)
    ensures Holds(s, t, j)
  {
    if t < |s.workers| then s.workers[t].pc.job else s.caller.task
  }

  predicate Enabled(s: Team, e: Event) {
    match e
    case Spawn => s.caller.Spawning? && |s.workers| + 1 < s.threads
    case SpawnFails => s.caller.Spawning? && |s.workers| + 1 < s.threads
    case AllSpawned => s.caller.Spawning? && |s.workers| + 1 >= s.threads
    case CheckReady => s.caller == AwaitReady(false)
    case WorkerReady(t) => t < |s.workers| && s.workers[t].pc.Starting?
    case WorkerFails(t) => t < |s.workers| && s.workers[t].pc.Starting?
    case WorkerCheck(t) => t < |s.workers| && s.workers[t].pc.Checking?
    case Draw(t) => Drawing(s, t)
    case JobEnd(t) => Busy(s, t)
    case WorkerLeave(t) => t < |s.workers| && s.workers[t].pc.Leaving?
    case BeginRun(_) => s.caller.Quiet?
    case Publish => s.caller.Publishing?
    case Wake => s.caller.Waking?
    case CheckDone => s.caller == AwaitDone(false)
    case Scan => s.caller.Scanning?
    case BeginStop => s.caller.Quiet?
    case SetStopping => s.caller.Stopping?
    case WakeAll => s.caller.WakingAll?
    case Join => s.caller.Joining? &&
      (s.caller.joined >= |s.workers| || s.workers[s.caller.joined].pc.Gone?)
    case SpuriousWorker(t) => t < |s.workers| && s.workers[t].pc.Asleep?
    case SpuriousCaller => s.caller == AwaitReady(true) || s.caller == AwaitDone(true)
  }

  function SetPc(s: Team, t: nat, pc: Pc): Team
    requires t < |s.workers|
  {
    s.(workers := s.workers[t := s.workers[t].(pc := pc)])
  }

  /** `wake_.notify_all()`. */
  function Awake(ws: seq<Worker>): (r: seq<Worker>)
    ensures |r| == |ws|
    ensures forall t :: 0 <= t < |ws| ==> r[t] == (if ws[t].pc.Asleep? then ws[t].(pc := Checking) else ws[t])
  {
    seq(|ws|, t requires 0 <= t < |ws| => if ws[t].pc.Asleep? then ws[t].(pc := Checking) else ws[t])
  }

  /** `done_.notify_all()`. */
  function Notified(k: Caller): Caller {
    match k
    case AwaitReady(_) => AwaitReady(false)
    case AwaitDone(_) => AwaitDone(false)
    case _ => k
  }

  /** `next_.fetch_add(1)`, and the loop test that follows it. */
  function DrawTicket(s: Team, t: nat): Team
    requires Drawing(s, t)
  {
    var i := s.next;
    var s1 := s.(next := i + 1);
    if t < |s.workers| then SetPc(s1, t, if i < s.jobs then Working(i) else Leaving)
    else s1.(caller := if i < s.jobs then Executing(i) else AwaitDone(false))
  }

  /** The wait predicate of a worker, and what it does when the predicate holds. */
  function CheckWorker(s: Team, t: nat): Team
    requires t < |s.workers|
  {
    if s.stopping then SetPc(s, t, Gone)
    else if s.generation != s.workers[t].seen
    then s.(workers := s.workers[t := Worker(Fetching, s.generation)])
    else SetPc(s, t, Asleep)
  }

  function Apply(s: Team, e: Event): Team
    requires Enabled(s, e)
  {
    match e
    case Spawn => s.(workers := s.workers + [Worker(Starting, 0)])
    case SpawnFails => s.(caller := Stopping)
    case AllSpawned => s.(caller := AwaitReady(false))
    case CheckReady =>
      if s.ready != |s.workers| then s.(caller := AwaitReady(true))
      else s.(caller := if s.startupError then Stopping else Quiet)
    case WorkerReady(t) => SetPc(s, t, Checking).(ready := s.ready + 1, caller := Notified(s.caller))
    case WorkerFails(t) =>
      SetPc(s, t, Gone).(ready := s.ready + 1, startupError := true, caller := Notified(s.caller))
    case WorkerCheck(t) => CheckWorker(s, t)
    case Draw(t) => DrawTicket(s, t)
    case JobEnd(t) => if t < |s.workers| then SetPc(s, t, Fetching) else s.(caller := Draining)
    case WorkerLeave(t) =>
      SetPc(s, t, Checking).(remaining := s.remaining - 1, caller := Notified(s.caller))
    case BeginRun(jobs) => s.(caller := Publishing, jobs := jobs)
    case Publish =>
      s.(caller := Waking, next := 0, remaining := |s.workers|, generation := s.generation + 1)
    case Wake => s.(caller := Draining, workers := Awake(s.workers))
    case CheckDone => s.(caller := if s.remaining == 0 then Scanning else AwaitDone(true))
    case Scan => s.(caller := Quiet)
    case BeginStop => s.(caller := Stopping)
    case SetStopping => s.(caller := WakingAll, stopping := true)
    case WakeAll => s.(caller := Joining(0), workers := Awake(s.workers))
    case Join =>
      s.(caller := if s.caller.joined < |s.workers| then Joining(s.caller.joined + 1) else Closed)
    case SpuriousWorker(t) => SetPc(s, t, Checking)
    case SpuriousCaller => s.(caller := Notified(s.caller))
  }

  // ---------------------------------------------------------------- the invariant

  predicate Active(k: Caller) {
    k.Waking? || k.Draining? || k.Executing? || k.AwaitDone?
  }

  predicate Consuming(w: Worker) {
    w.pc.Fetching? || w.pc.Working? || w.pc.Leaving?
  }

  datatype Kind = Reported | Engaged | Drawn

  predicate Is(kind: Kind, w: Worker, g: nat) {
    match kind
    case Reported => !w.pc.Starting?
    case Engaged => w.seen != g || Consuming(w)
    case Drawn => w.seen == g && !w.pc.Fetching? && !w.pc.Working?
  }

  function Count(kind: Kind, ws: seq<Worker>, g: nat): (n: nat)
    ensures n <= |ws|
  {
    if ws == [] then 0 else (if Is(kind, ws[|ws| - 1], g) then 1 else 0) + Count(kind, ws[..|ws| - 1], g)
  }

  predicate WorkerOk(s: Team, w: Worker) {
    && w.seen <= s.generation
    && (Consuming(w) ==> w.seen == s.generation && Active(s.caller))
    && (w.pc.Gone? ==> s.stopping || s.startupError)
    && (w.pc.Starting? ==> w.seen == 0)
    && (w.pc.Working? ==> w.pc.job < s.jobs)
    && (w.pc.Asleep? ==> (!s.stopping && w.seen == s.generation) || s.caller.Waking? || s.caller.WakingAll?)
  }

  /** The constructor has returned, and `stop` has not been called. */
  predicate InService(k: Caller) {
    k.Quiet? || k.Publishing? || k.Scanning? || Active(k)
  }

  /** The calling thread is one of the threads, so a team needs one worker fewer. */
  function Helpers(threads: int): nat {
    if threads > 1 then threads - 1 else 0
  }

  /** Startup, shutdown and which phase of a call excludes which flags. */
  predicate PhaseOk(s: Team) {
    && (s.stopping <==> s.caller.WakingAll? || s.caller.Joining? || s.caller.Closed?)
    && (s.caller.Joining? ==> s.caller.joined <= |s.workers|
                              && forall t :: 0 <= t < s.caller.joined ==> s.workers[t].pc.Gone?)
    && (s.caller.Closed? ==> forall t :: 0 <= t < |s.workers| ==> s.workers[t].pc.Gone?)
    && (s.caller.Spawning? || s.caller.AwaitReady? ==> s.generation == 0)
    && |s.workers| <= Helpers(s.threads)
    && (s.caller.AwaitReady? || InService(s.caller) ==> |s.workers| == Helpers(s.threads))
    && (InService(s.caller) ==> !s.startupError && s.ready == |s.workers|)
    && (s.startupError ==> s.generation == 0)
    && (s.generation > 0 ==> s.ready == |s.workers|)
    && (!Active(s.caller) ==> s.remaining == 0)
    && (s.caller.Executing? ==> s.caller.task < s.jobs)
    && (s.caller == AwaitReady(true) ==> s.ready < |s.workers|)
    && (s.caller == AwaitDone(true) ==> s.remaining > 0)
  }

  /** Threads that drew a ticket past the jobs in this run. */
  function LeftConsume(s: Team): nat {
    Count(Drawn, s.workers, s.generation) + if s.caller.AwaitDone? then 1 else 0
  }

  predicate CountersOk(s: Team) {
    && s.ready == Count(Reported, s.workers, s.generation)
    && s.remaining == Count(Engaged, s.workers, s.generation)
    && (Active(s.caller) ==> s.next == (if s.next <= s.jobs then s.next else s.jobs) + LeftConsume(s))
    && (s.caller.Scanning? ==> s.next == s.jobs + |s.workers| + 1)
  }

  predicate Inv(s: Team) {
    && PhaseOk(s)
    && CountersOk(s)
    && forall t :: 0 <= t < |s.workers| ==> WorkerOk(s, s.workers[t])
  }

  // ---------------------------------------------------------------- counting

  lemma {:induction false} CountUpdate(kind: Kind, ws: seq<Worker>, g: nat, t: nat, w: Worker)
    requires t < |ws|
    ensures Count(kind, ws[t := w], g) ==
            Count(kind, ws, g) - (if Is(kind, ws[t], g) then 1 else 0) + (if Is(kind, w, g) then 1 else 0)
  {
    var n := |ws| - 1;
    if t == n {
      assert ws[t := w][..n] == ws[..n];
    } else {
      assert ws[t := w][..n] == ws[..n][t := w];
      CountUpdate(kind, ws[..n], g, t, w);
    }
  }

  lemma {:induction false} CountPointwise(kind: Kind, ws: seq<Worker>, g: nat, ws': seq<Worker>, g': nat)
    requires |ws| == |ws'|
    requires forall t :: 0 <= t < |ws| ==> Is(kind, ws[t], g) == Is(kind, ws'[t], g')
    ensures Count(kind, ws, g) == Count(kind, ws', g')
  {
    if ws != [] {
      var n := |ws| - 1;
      CountPointwise(kind, ws[..n], g, ws'[..n], g');
    }
  }

  lemma {:induction false} CountExtremes(kind: Kind, ws: seq<Worker>, g: nat)
    ensures Count(kind, ws, g) == |ws| <==> forall t :: 0 <= t < |ws| ==> Is(kind, ws[t], g)
    ensures Count(kind, ws, g) == 0 <==> forall t :: 0 <= t < |ws| ==> !Is(kind, ws[t], g)
  {
    if ws != [] {
      var n := |ws| - 1;
      CountExtremes(kind, ws[..n], g);
      assert forall t :: 0 <= t < n ==> ws[..n][t] == ws[t];
    }
  }

  lemma CountsUpdate(s: Team, t: nat, w: Worker)
    requires t < |s.workers|
    ensures forall kind ::
      Count(kind, s.workers[t := w], s.generation) ==
      Count(kind, s.workers, s.generation) - (if Is(kind, s.workers[t], s.generation) then 1 else 0)
      + (if Is(kind, w, s.generation) then 1 else 0)
  {
    forall kind ensures Count(kind, s.workers[t := w], s.generation) ==
      Count(kind, s.workers, s.generation) - (if Is(kind, s.workers[t], s.generation) then 1 else 0)
      + (if Is(kind, w, s.generation) then 1 else 0)
    {
      CountUpdate(kind, s.workers, s.generation, t, w);
    }
  }

  // ---------------------------------------------------------------- preservation

  lemma SpawnKeeps(s: Team)
    requires Inv(s) && Enabled(s, Spawn)
    ensures Inv(Apply(s, Spawn))
  {
    assert Apply(s, Spawn).workers[..|s.workers|] == s.workers;
  }

  lemma LeaveKeeps(s: Team, t: nat)
    requires Inv(s) && Enabled(s, WorkerLeave(t))
    ensures Inv(Apply(s, WorkerLeave(t)))
  {
    CountsUpdate(s, t, Apply(s, WorkerLeave(t)).workers[t]);
  }

  lemma SpuriousKeeps(s: Team, t: nat)
    requires Inv(s) && Enabled(s, SpuriousWorker(t))
    ensures Inv(Apply(s, SpuriousWorker(t)))
  {
    CountsUpdate(s, t, Apply(s, SpuriousWorker(t)).workers[t]);
  }

  lemma WorkerStartKeeps(s: Team, e: Event)
    requires Inv(s) && Enabled(s, e)
    requires e.WorkerReady? || e.WorkerFails?
    ensures Inv(Apply(s, e))
  {
    CountsUpdate(s, e.t, Apply(s, e).workers[e.t]);
  }

  lemma CallerEventKeeps(s: Team, e: Event)
    requires Inv(s) && Enabled(s, e)
    requires e.SpawnFails? || e.AllSpawned? || e.CheckReady? || e.BeginRun? || e.Scan? || e.BeginStop?
             || e.SetStopping? || e.SpuriousCaller?
    ensures Inv(Apply(s, e))
  {
    assert Apply(s, e).workers == s.workers;
  }

  lemma JoinKeeps(s: Team)
    requires Inv(s) && Enabled(s, Join)
    ensures Inv(Apply(s, Join))
  {
    assert Apply(s, Join).workers == s.workers;
  }

  lemma CheckKeeps(s: Team, t: nat)
    requires Inv(s) && Enabled(s, WorkerCheck(t))
    ensures Inv(Apply(s, WorkerCheck(t)))
  {
    if s.stopping { ExitKeeps(s, t); } else { JoinOrSleepKeeps(s, t); }
  }

  lemma ExitKeeps(s: Team, t: nat)
    requires Inv(s) && Enabled(s, WorkerCheck(t)) && s.stopping
    ensures Inv(CheckWorker(s, t))
  {
    CountExtremes(Engaged, s.workers, s.generation);
    CountsUpdate(s, t, s.workers[t].(pc := Gone));
  }

  lemma JoinOrSleepKeeps(s: Team, t: nat)
    requires Inv(s) && Enabled(s, WorkerCheck(t)) && !s.stopping
    ensures Inv(CheckWorker(s, t))
  {
    if s.workers[t].seen != s.generation {
      if s.remaining == 0 { CountExtremes(Engaged, s.workers, s.generation); }
      CountsUpdate(s, t, Worker(Fetching, s.generation));
    } else {
      CountsUpdate(s, t, s.workers[t].(pc := Asleep));
    }
  }

  lemma DrawKeeps(s: Team, t: nat)
    requires Inv(s) && Enabled(s, Draw(t))
    ensures Inv(Apply(s, Draw(t)))
  {
    if t < |s.workers| {
      CountsUpdate(s, t, Apply(s, Draw(t)).workers[t]);
    }
  }

  lemma JobEndKeeps(s: Team, t: nat)
    requires Inv(s) && Enabled(s, JobEnd(t))
    ensures Inv(Apply(s, JobEnd(t)))
  {
    if t < |s.workers| {
      CountsUpdate(s, t, Apply(s, JobEnd(t)).workers[t]);
    }
  }

  lemma PublishKeeps(s: Team)
    requires Inv(s) && Enabled(s, Publish)
    ensures Inv(Apply(s, Publish))
  {
    var s' := Apply(s, Publish);
    CountExtremes(Engaged, s.workers, s.generation);
    CountExtremes(Engaged, s'.workers, s'.generation);
    CountExtremes(Drawn, s'.workers, s'.generation);
    CountPointwise(Reported, s.workers, s.generation, s'.workers, s'.generation);
  }

  lemma AwakeKeepsCounts(ws: seq<Worker>, g: nat)
    ensures forall kind :: Count(kind, Awake(ws), g) == Count(kind, ws, g)
  {
    forall kind ensures Count(kind, Awake(ws), g) == Count(kind, ws, g) {
      CountPointwise(kind, ws, g, Awake(ws), g);
    }
  }

  lemma WakeKeeps(s: Team, e: Event)
    requires Inv(s) && Enabled(s, e)
    requires e.Wake? || e.WakeAll?
    ensures Inv(Apply(s, e))
  {
    AwakeKeepsCounts(s.workers, s.generation);
  }

  /** When the countdown is zero every worker has left and drawn its one ticket past the jobs. */
  lemma CheckDoneKeeps(s: Team)
    requires Inv(s) && Enabled(s, CheckDone)
    ensures Inv(Apply(s, CheckDone))
  {
    CountExtremes(Engaged, s.workers, s.generation);
    CountExtremes(Drawn, s.workers, s.generation);
  }

  lemma StepKeepsInv(s: Team, e: Event)
    requires Inv(s) && Enabled(s, e)
    ensures Inv(Apply(s, e))
  {
    match e
    case Spawn => SpawnKeeps(s);
    case WorkerReady(_) => WorkerStartKeeps(s, e);
    case WorkerFails(_) => WorkerStartKeeps(s, e);
    case WorkerLeave(t) => LeaveKeeps(s, t);
    case SpuriousWorker(t) => SpuriousKeeps(s, t);
    case WorkerCheck(t) => CheckKeeps(s, t);
    case Draw(t) => DrawKeeps(s, t);
    case JobEnd(t) => JobEndKeeps(s, t);
    case Publish => PublishKeeps(s);
    case Wake => WakeKeeps(s, e);
    case WakeAll => WakeKeeps(s, e);
    case CheckDone => CheckDoneKeeps(s);
    case Join => JoinKeeps(s);
    case _ => CallerEventKeeps(s, e);
  }
}
