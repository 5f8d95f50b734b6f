/** Safety, schedule independence and progress of the team over every schedule. */
module TeamTheorems {
  import opened Options
  import opened Control = TeamControl
  import opened TeamProgress
  import opened Team

  // ---------------------------------------------------------------- shared memory

  lemma {:induction false} AccumulateUntouched<V>(c: Config<V>, prog: seq<Update<V>>, n: nat, cell: nat, v: V)
    requires n <= |prog|
    requires forall i :: 0 <= i < n ==> prog[i].cell != cell
    ensures Accumulate(c, prog, n, cell, v) == v
  {
    if n > 0 {
      AccumulateUntouched(c, prog, n - 1, cell, v);
    }
  }

  ghost predicate Counted<V>(c: Config<V>, w: Work<V>) {
    && |w.progs| == |w.progress| && |w.memory| == c.cells && InBounds(w.progs, c.cells)
    && forall j :: 0 <= j < |w.progs| ==> DoneOf(w.progress[j]) <= |w.progs[j]|
  }

  lemma {:induction false} SerialFrame<V>(c: Config<V>, w: Work<V>, w': Work<V>, n: nat, cell: nat)
    requires Counted(c, w) && Counted(c, w') && n <= |w.progs|
    requires w'.progs == w.progs
    requires forall j :: 0 <= j < n ==> DoneOf(w'.progress[j]) == DoneOf(w.progress[j])
    ensures Serial(c, w', n, cell) == Serial(c, w, n, cell)
  {
    if n > 0 {
      SerialFrame(c, w, w', n - 1, cell);
    }
  }

  /** One store of job `j` is one accumulation of the serial order, because no later job touches its cell. */
  lemma {:induction false} SerialStore<V>(c: Config<V>, w: Work<V>, w': Work<V>, j: nat, n: nat, cell: nat)
    requires Counted(c, w) && Counted(c, w') && j < n <= |w.progs|
    requires w'.progs == w.progs && Exclusive(w.progs)
    requires w.progress[j].Running? && w.progress[j].pos < |w.progs[j]|
    requires DoneOf(w'.progress[j]) == w.progress[j].pos + 1
    requires forall k :: 0 <= k < |w.progs| && k != j ==> w'.progress[k] == w.progress[k]
    ensures var u := w.progs[j][w.progress[j].pos];
            Serial(c, w', n, cell) ==
            (if cell == u.cell then c.add(Serial(c, w, n, cell), u.delta) else Serial(c, w, n, cell))
  {
    if n == j + 1 {
      SerialFrame(c, w, w', j, cell);
    } else {
      SerialStore(c, w, w', j, n - 1, cell);
      var u := w.progs[j][w.progress[j].pos];
      if cell == u.cell {
        var last := w.progs[n - 1];
        var done := DoneOf(w.progress[n - 1]);
        AccumulateUntouched(c, last, done, cell, Serial(c, w, n - 1, cell));
        AccumulateUntouched(c, last, done, cell, Serial(c, w', n - 1, cell));
      }
    }
  }

  lemma StoreKeepsMemory<V>(c: Config<V>, w: Work<V>, j: nat)
    requires Counted(c, w) && j < |w.progs| && w.progress[j].Running? && w.progress[j].pos < |w.progs[j]|
    requires w.progress[j].loaded.Some?
    requires Exclusive(w.progs) && MemoryOk(c, w)
    ensures Counted(c, AdvanceJob(c, w, j)) && MemoryOk(c, AdvanceJob(c, w, j))
  {
    var w' := AdvanceJob(c, w, j);
    var u := w.progs[j][w.progress[j].pos];
    forall cell | 0 <= cell < c.cells ensures w'.memory[cell] == Serial(c, w', |w.progs|, cell) {
      SerialStore(c, w, w', j, |w.progs|, cell);
    }
    forall k | 0 <= k < |w.progs| ensures LoadedOk(w'.progs[k], w'.progress[k], w'.memory) {
      assert LoadedOk(w.progs[k], w.progress[k], w.memory);
    }
  }

  /** Loads, job starts and job ends do not change what the serial order would hold. */
  lemma FrameKeepsMemory<V>(c: Config<V>, w: Work<V>, w': Work<V>)
    requires Counted(c, w) && Counted(c, w') && MemoryOk(c, w)
    requires w'.progs == w.progs && w'.memory == w.memory
    requires forall j :: 0 <= j < |w.progs| ==> DoneOf(w'.progress[j]) == DoneOf(w.progress[j])
    requires forall j :: 0 <= j < |w.progs| ==> LoadedOk(w'.progs[j], w'.progress[j], w'.memory)
    ensures MemoryOk(c, w')
  {
    forall cell | 0 <= cell < c.cells ensures w'.memory[cell] == Serial(c, w', |w.progs|, cell) {
      SerialFrame(c, w, w', |w.progs|, cell);
    }
  }

  lemma BeginKeepsMemory<V>(c: Config<V>, jobs: seq<Job<V>>)
    requires InBounds(Progs(jobs), c.cells)
    ensures MemoryOk(c, FreshWork(c, jobs))
  {
    var w := FreshWork(c, jobs);
    forall cell | 0 <= cell < c.cells ensures w.memory[cell] == Serial(c, w, |jobs|, cell) {
      FreshSerial(c, jobs, |jobs|, cell);
    }
  }

  lemma AdvanceKeepsMemory<V>(c: Config<V>, s: State<V>, t: nat)
    requires WorkInv(c, s) && CanStep(c, s, Advance(t)) && WorkInv(c, Step(c, s, Advance(t)))
    requires Exclusive(s.work.progs) && MemoryOk(c, s.work)
    ensures MemoryOk(c, Step(c, s, Advance(t)).work)
  {
    var j := JobOf(s.team, t);
    if s.work.progress[j].loaded.Some? {
      StoreKeepsMemory(c, s.work, j);
    } else {
      FrameKeepsMemory(c, s.work, AdvanceJob(c, s.work, j));
    }
  }

  /** Evaluations, job starts and job ends leave memory and loaded values alone. */
  lemma OtherKeepsMemory<V>(c: Config<V>, w: Work<V>, w': Work<V>, j: nat)
    requires Counted(c, w) && Counted(c, w') && MemoryOk(c, w) && j < |w.progs|
    requires w'.progs == w.progs && w'.memory == w.memory && w'.progress == w.progress[j := w'.progress[j]]
    requires DoneOf(w'.progress[j]) == DoneOf(w.progress[j])
    requires w'.progress[j].Running? && w'.progress[j].loaded.Some? ==>
      w.progress[j].Running? && w'.progress[j].loaded == w.progress[j].loaded
    ensures MemoryOk(c, w')
  {
    forall k | 0 <= k < |w.progs| ensures LoadedOk(w'.progs[k], w'.progress[k], w'.memory) {
      assert LoadedOk(w.progs[k], w.progress[k], w.memory);
    }
    FrameKeepsMemory(c, w, w');
  }

  lemma StepKeepsMemory<V>(c: Config<V>, s: State<V>, a: Action<V>)
    requires Inv(s.team) && WorkInv(c, s) && CanStep(c, s, a) && WorkInv(c, Step(c, s, a))
    requires Exclusive(s.work.progs) ==> MemoryOk(c, s.work)
    ensures Exclusive(Step(c, s, a).work.progs) ==> MemoryOk(c, Step(c, s, a).work)
  {
    if Exclusive(Step(c, s, a).work.progs) {
      match a
      case Begin(jobs) => BeginKeepsMemory(c, jobs);
      case Advance(t) => AdvanceKeepsMemory(c, s, t);
      case Plain(_) =>
      case Finish =>
      case Evaluate(t) => OtherKeepsMemory(c, s.work, Step(c, s, a).work, JobOf(s.team, t));
      case End(t, _) => OtherKeepsMemory(c, s.work, Step(c, s, a).work, JobOf(s.team, t));
      case Ticket(_) =>
        if s.team.next < s.team.jobs { OtherKeepsMemory(c, s.work, Step(c, s, a).work, s.team.next); }
    }
  }

  // ---------------------------------------------------------------- every schedule

  lemma StepKeepsTeam<V>(c: Config<V>, s: State<V>, a: Action<V>)
    requires SafeState(c, s) && CanStep(c, s, a)
    ensures Inv(Step(c, s, a).team)
  {
    if EventOf(a).Some? {
      StepKeepsInv(s.team, EventOf(a).value);
    }
  }

  /** What `run` hands back when it returns or throws. */
  lemma FinishRecordsGood<V>(c: Config<V>, s: State<V>)
    requires SafeState(c, s) && CanStep(c, s, Finish)
    ensures GoodRecord(c, Record(s.work, s.team.next, FirstError(s.work.errors, 0)))
  { }

  lemma ThreadsAreFixed(s: Control.Team, e: Event)
    requires Enabled(s, e)
    ensures Apply(s, e).threads == s.threads
  { }

  /** Records are only added, and a new one is good. */
  lemma StepKeepsHistory<V>(c: Config<V>, s: State<V>, a: Action<V>)
    requires SafeState(c, s) && CanStep(c, s, a)
    ensures var s' := Step(c, s, a);
            s'.team.threads == c.threads && forall i :: 0 <= i < |s'.history| ==> GoodRecord(c, s'.history[i])
  {
    if EventOf(a).Some? {
      ThreadsAreFixed(s.team, EventOf(a).value);
    }
    if a.Finish? {
      FinishRecordsGood(c, s);
    } else {
      assert Step(c, s, a).history == s.history;
    }
  }

  lemma StepKeepsSafe<V>(c: Config<V>, s: State<V>, a: Action<V>)
    requires SafeState(c, s) && CanStep(c, s, a)
    ensures SafeState(c, Step(c, s, a))
  {
    StepKeepsTeam(c, s, a);
    StepKeepsWork(c, s, a);
    StepKeepsMemory(c, s, a);
    StepKeepsHistory(c, s, a);
  }

  ghost predicate Legal<V>(c: Config<V>, s: State<V>, schedule: seq<Action<V>>)
    decreases |schedule|
  {
    Shape(c, s) &&
    (schedule != [] ==> CanStep(c, s, schedule[0]) && Legal(c, Step(c, s, schedule[0]), schedule[1..]))
  }

  ghost function Execute<V>(c: Config<V>, s: State<V>, schedule: seq<Action<V>>): State<V>
    requires Legal(c, s, schedule)
    decreases |schedule|
  {
    if schedule == [] then s else Execute(c, Step(c, s, schedule[0]), schedule[1..])
  }

  lemma {:induction false} ScheduleKeepsSafe<V>(c: Config<V>, s: State<V>, schedule: seq<Action<V>>)
    requires SafeState(c, s) && Legal(c, s, schedule)
    ensures SafeState(c, Execute(c, s, schedule))
    decreases |schedule|
  {
    if schedule != [] {
      StepKeepsSafe(c, s, schedule[0]);
      ScheduleKeepsSafe(c, Step(c, s, schedule[0]), schedule[1..]);
    }
  }

  /** Safety of every interleaving of any sequence of `run` calls. */
  lemma EveryScheduleIsSafe<V>(c: Config<V>, schedule: seq<Action<V>>)
    requires Legal(c, Start(c), schedule)
    ensures var s := Execute(c, Start(c), schedule);
      // each completed run: every job exactly once, the lowest error, the serial memory
      && (forall i :: 0 <= i < |s.history| ==> GoodRecord(c, s.history[i]))
      // from the end of the constructor to `stop` the calling thread has all other threads as its workers
      && (InService(s.team.caller) ==> |s.team.workers| == if c.threads > 1 then c.threads - 1 else 0)
      // a thread that draws or works belongs to the current generation of a run that is still open
      && (forall t :: 0 <= t < |s.team.workers| && Consuming(s.team.workers[t]) ==>
            s.team.workers[t].seen == s.team.generation && Active(s.team.caller))
      // no job has two threads
      && (forall t: nat, u: nat, j: nat :: Holds(s.team, t, j) && Holds(s.team, u, j) ==> t == u)
      // the countdown never underflows and the ticket counter is bounded
      && s.team.remaining >= 0
      && (forall t :: 0 <= t < |s.team.workers| && s.team.workers[t].pc.Leaving? ==> s.team.remaining > 0)
      && (InRun(s.team.caller) ==> s.team.next <= s.team.jobs + |s.team.workers| + 1)
  {
    StartSafe(c);
    ScheduleKeepsSafe(c, Start(c), schedule);
    var s := Execute(c, Start(c), schedule);
    CountExtremes(Engaged, s.team.workers, s.team.generation);
  }

  // ---------------------------------------------------------------- which run a record belongs to

  /** The jobs that the calls of `run` in a schedule bring, in order. */
  function Begun<V>(schedule: seq<Action<V>>): seq<seq<Job<V>>> {
    if schedule == [] then [] else
      (if schedule[0].Begin? then [schedule[0].jobs] else []) + Begun(schedule[1..])
  }

  predicate Brought<V(==)>(jobs: seq<Job<V>>, w: Work<V>) {
    && w.progs == Progs(jobs) && |w.densities| == |jobs|
    && forall j :: 0 <= j < |jobs| ==> w.densities[j] == jobs[j].density
  }

  predicate InCall(k: Caller) { k.Publishing? || InRun(k) }

  ghost predicate Recorded<V>(s: State<V>, begun: seq<seq<Job<V>>>) {
    && |begun| == |s.history| + (if InCall(s.team.caller) then 1 else 0)
    && (InCall(s.team.caller) ==> Brought(begun[|s.history|], s.work))
    && forall i :: 0 <= i < |s.history| ==> Brought(begun[i], s.history[i].work)
  }

  lemma PlainKeepsCall(s: Control.Team, e: Event)
    requires Enabled(s, e) && !e.BeginRun? && !e.Scan?
    ensures InCall(Apply(s, e).caller) == InCall(s.caller)
  { }

  lemma StepRecorded<V>(c: Config<V>, s: State<V>, a: Action<V>, begun: seq<seq<Job<V>>>)
    requires Shape(c, s) && CanStep(c, s, a) && Recorded(s, begun)
    ensures Recorded(Step(c, s, a), begun + (if a.Begin? then [a.jobs] else []))
  {
    if EventOf(a).Some? && !a.Begin? && !a.Finish? {
      PlainKeepsCall(s.team, EventOf(a).value);
    }
  }

  lemma {:induction false} ScheduleRecorded<V>(c: Config<V>, s: State<V>, schedule: seq<Action<V>>,
                                               begun: seq<seq<Job<V>>>)
    requires Legal(c, s, schedule) && Recorded(s, begun)
    ensures Recorded(Execute(c, s, schedule), begun + Begun(schedule))
    decreases |schedule|
  {
    if schedule == [] {
      assert begun + Begun(schedule) == begun;
    } else {
      var a := schedule[0];
      var more := if a.Begin? then [a.jobs] else [];
      StepRecorded(c, s, a, begun);
      ScheduleRecorded(c, Step(c, s, a), schedule[1..], begun + more);
      assert begun + Begun(schedule) == begun + more + Begun(schedule[1..]);
    }
  }

  /** Between two calls every call that began has left its record. */
  lemma CallsAreRecorded<V>(c: Config<V>, schedule: seq<Action<V>>)
    requires Legal(c, Start(c), schedule) && Execute(c, Start(c), schedule).team.caller.Quiet?
    ensures |Execute(c, Start(c), schedule).history| == |Begun(schedule)|
  {
    ScheduleRecorded(c, Start(c), schedule, []);
    assert [] + Begun(schedule) == Begun(schedule);
  }

  /** The i-th record is of the i-th call of `run`, and holds the jobs that call brought. */
  lemma RecordsInOrder<V>(c: Config<V>, schedule: seq<Action<V>>, i: nat)
    requires Legal(c, Start(c), schedule) && i < |Execute(c, Start(c), schedule).history|
    ensures i < |Begun(schedule)| && Brought(Begun(schedule)[i], Execute(c, Start(c), schedule).history[i].work)
  {
    ScheduleRecorded(c, Start(c), schedule, []);
    assert [] + Begun(schedule) == Begun(schedule);
  }

  // ---------------------------------------------------------------- progress

  /** The evaluation, loads and stores a job still has to do. */
  function JobWeight<V>(prog: seq<Update<V>>, p: Progress<V>): nat {
    match p
    case Idle => 2 * |prog| + 1
    case Running(_, evaluated, pos, loaded) =>
      (if evaluated then 0 else 1) +
      (if pos < |prog| then 2 * (|prog| - pos) - (if loaded.Some? then 1 else 0) else 0)
    case Finished(_, _) => 0
  }

  function JobsWeight<V>(w: Work<V>, n: nat): nat
    requires n <= |w.progs| == |w.progress|
  {
    if n == 0 then 0 else JobWeight(w.progs[n - 1], w.progress[n - 1]) + JobsWeight(w, n - 1)
  }

  function Measure<V>(c: Config<V>, s: State<V>): nat
    requires Shape(c, s)
  {
    Potential(s.team) + JobsWeight(s.work, s.team.jobs)
  }

  /** Everything but the start of a call and a spurious wake-up. */
  predicate Useful<V>(a: Action<V>) {
    !a.Begin? && (a.Plain? ==> TeamProgress.Progress(a.event))
  }

  lemma {:induction false} JobsWeightUpdate<V>(w: Work<V>, w': Work<V>, j: nat, n: nat)
    requires n <= |w.progs| == |w.progress| == |w'.progress| && w'.progs == w.progs && j < |w.progs|
    requires forall k :: 0 <= k < |w.progs| && k != j ==> w'.progress[k] == w.progress[k]
    ensures JobsWeight(w', n) == JobsWeight(w, n) +
            (if j < n then JobWeight(w.progs[j], w'.progress[j]) - JobWeight(w.progs[j], w.progress[j]) else 0)
  {
    if n > 0 {
      JobsWeightUpdate(w, w', j, n - 1);
    }
  }

  lemma AdvanceDescends<V>(c: Config<V>, s: State<V>, t: nat)
    requires SafeState(c, s) && CanStep(c, s, Advance(t))
    ensures JobsWeight(Step(c, s, Advance(t)).work, s.team.jobs) < JobsWeight(s.work, s.team.jobs)
  {
    var j := JobOf(s.team, t);
    JobsWeightUpdate(s.work, AdvanceJob(c, s.work, j), j, s.team.jobs);
  }

  lemma EvaluateDescends<V>(c: Config<V>, s: State<V>, t: nat)
    requires SafeState(c, s) && CanStep(c, s, Evaluate(t))
    ensures JobsWeight(Step(c, s, Evaluate(t)).work, s.team.jobs) < JobsWeight(s.work, s.team.jobs)
  {
    var j := JobOf(s.team, t);
    JobsWeightUpdate(s.work, EvaluateJob(s.work, j), j, s.team.jobs);
  }

  lemma StartsAndEndsDescend<V>(c: Config<V>, s: State<V>, a: Action<V>)
    requires SafeState(c, s) && CanStep(c, s, a) && (a.Ticket? || a.End?)
    ensures JobsWeight(Step(c, s, a).work, s.team.jobs) <= JobsWeight(s.work, s.team.jobs)
  {
    if a.End? {
      var j := JobOf(s.team, a.t);
      JobsWeightUpdate(s.work, EndJob(s.work, j, a.outcome), j, s.team.jobs);
    } else if s.team.next < s.team.jobs {
      JobsWeightUpdate(s.work, StartJob(s.work, s.team.next, a.t), s.team.next, s.team.jobs);
    }
  }

  /** Every useful action, of any thread, brings the current call closer to its end. */
  lemma ActionDescends<V>(c: Config<V>, s: State<V>, a: Action<V>)
    requires SafeState(c, s) && CanStep(c, s, a) && Useful(a)
    ensures Shape(c, Step(c, s, a)) && Measure(c, Step(c, s, a)) < Measure(c, s)
  {
    StepKeepsWork(c, s, a);
    match a
    case Evaluate(t) => EvaluateDescends(c, s, t);
    case Advance(t) => AdvanceDescends(c, s, t);
    case Ticket(t) => StepDescends(s.team, Draw(t)); StartsAndEndsDescend(c, s, a);
    case End(t, _) => StepDescends(s.team, JobEnd(t)); StartsAndEndsDescend(c, s, a);
    case Plain(e) => StepDescends(s.team, e);
    case Finish => StepDescends(s.team, Scan);
  }

  /** Until the call is over some thread can do a useful action, whoever is asleep. */
  lemma SomeThreadCanAct<V>(c: Config<V>, s: State<V>) returns (a: Action<V>)
    requires SafeState(c, s) && !AtRest(s.team)
    ensures CanStep(c, s, a) && Useful(a)
  {
    var e := NotStuck(s.team);
    match e {
      case Draw(t) => a := Ticket(t);
      case Scan => a := Finish;
      case JobEnd(t) =>
        var j := JobOf(s.team, t);
        if !s.work.progress[j].evaluated { a := Evaluate(t); }
        else if s.work.progress[j].pos < |s.work.progs[j]| { a := Advance(t); } else { a := End(t, None); }
      case _ => a := Plain(e);
    }
  }

  ghost predicate AllUseful<V>(schedule: seq<Action<V>>) {
    forall i :: 0 <= i < |schedule| ==> Useful(schedule[i])
  }

  /** No schedule keeps a call open for more than `Measure` useful actions. */
  lemma {:induction false} CallsAreBounded<V>(c: Config<V>, s: State<V>, schedule: seq<Action<V>>)
    requires SafeState(c, s) && Legal(c, s, schedule) && AllUseful(schedule)
    ensures |schedule| <= Measure(c, s)
    decreases |schedule|
  {
    if schedule != [] {
      ActionDescends(c, s, schedule[0]);
      StepKeepsSafe(c, s, schedule[0]);
      CallsAreBounded(c, Step(c, s, schedule[0]), schedule[1..]);
    }
  }

  /** A schedule of useful actions that cannot be extended has ended the call: the constructor is
      done, `run` has returned or thrown, or after `stop` every started worker has exited. */
  lemma MaximalSchedulesEndTheCall<V>(c: Config<V>, s: State<V>, schedule: seq<Action<V>>)
    requires SafeState(c, s) && Legal(c, s, schedule)
    requires var last := Execute(c, s, schedule);
             forall a :: Shape(c, last) && CanStep(c, last, a) ==> !Useful(a)
    ensures var last := Execute(c, s, schedule);
            AtRest(last.team) &&
            (last.team.caller.Closed? ==> forall t :: 0 <= t < |last.team.workers| ==> last.team.workers[t].pc.Gone?)
  {
    ScheduleKeepsSafe(c, s, schedule);
    var last := Execute(c, s, schedule);
    if !AtRest(last.team) {
      var a := SomeThreadCanAct(c, last);
      assert false;
    }
  }

  /** When `run` looks for errors, every worker has joined this generation. */
  lemma EveryWorkerJoins<V>(c: Config<V>, s: State<V>, t: nat)
    requires SafeState(c, s) && InRun(s.team.caller) && t < |s.team.workers|
    ensures s.team.caller.Scanning? ==> s.team.workers[t].seen == s.team.generation
    ensures CanStep(c, s, Plain(WorkerCheck(t))) && Step(c, s, Plain(WorkerCheck(t))).team.workers[t].pc.Fetching? ==>
            s.team.workers[t].seen < s.team.generation
            && Step(c, s, Plain(WorkerCheck(t))).team.workers[t].seen == s.team.generation
  {
    CountExtremes(Engaged, s.team.workers, s.team.generation);
  }

  // ---------------------------------------------------------------- what makes a team end

  /** A thread cannot be started, a worker cannot set itself up, or the team is destroyed. */
  predicate Fatal<V>(a: Action<V>) {
    a.Plain? && (a.event.SpawnFails? || a.event.WorkerFails? || a.event.BeginStop?)
  }

  predicate Ending(k: Control.Caller) {
    k.Stopping? || k.WakingAll? || k.Joining? || k.Closed?
  }

  lemma EventServes(s: Control.Team, e: Event)
    requires Enabled(s, e) && !e.SpawnFails? && !e.WorkerFails? && !e.BeginStop?
    requires !Ending(s.caller) && !s.startupError
    ensures !Ending(Apply(s, e).caller) && !Apply(s, e).startupError
  { }

  lemma {:induction false} ScheduleServes<V>(c: Config<V>, s: State<V>, schedule: seq<Action<V>>)
    requires Legal(c, s, schedule) && !Ending(s.team.caller) && !s.team.startupError
    requires forall i :: 0 <= i < |schedule| ==> !Fatal(schedule[i])
    ensures !Ending(Execute(c, s, schedule).team.caller)
    decreases |schedule|
  {
    if schedule != [] {
      var a := schedule[0];
      if EventOf(a).Some? {
        EventServes(s.team, EventOf(a).value);
      }
      ScheduleServes(c, Step(c, s, a), schedule[1..]);
    }
  }

  /** Unless something is fatal, a schedule that cannot be usefully extended leaves a team of all its
      threads, ready for the next call, with a record of every call so far. */
  lemma WithoutFailureTheTeamServes<V>(c: Config<V>, schedule: seq<Action<V>>)
    requires Legal(c, Start(c), schedule) && forall i :: 0 <= i < |schedule| ==> !Fatal(schedule[i])
    requires var last := Execute(c, Start(c), schedule);
             forall a :: Shape(c, last) && CanStep(c, last, a) ==> !Useful(a)
    ensures var last := Execute(c, Start(c), schedule);
            && last.team.caller.Quiet? && |last.history| == |Begun(schedule)|
            && |last.team.workers| == if c.threads > 1 then c.threads - 1 else 0
  {
    StartSafe(c);
    ScheduleServes(c, Start(c), schedule);
    MaximalSchedulesEndTheCall(c, Start(c), schedule);
    CallsAreRecorded(c, schedule);
    EveryScheduleIsSafe(c, schedule);
  }

  /** What the model leaves open: calls with any jobs, jobs and threads that fail, spurious wake-ups. */
  lemma NothingIsRuledOut<V>(c: Config<V>, s: State<V>)
    requires SafeState(c, s)
    ensures s.team.caller.Quiet? ==> CanStep(c, s, Plain(BeginStop))
    ensures s.team.caller.Quiet? ==> forall jobs :: InBounds(Progs(jobs), c.cells) ==> CanStep(c, s, Begin(jobs))
    ensures s.team.caller.Spawning? && |s.team.workers| + 1 < c.threads ==> CanStep(c, s, Plain(SpawnFails))
    ensures forall t: nat | t < |s.team.workers| ::
      && (s.team.workers[t].pc.Starting? ==> CanStep(c, s, Plain(WorkerFails(t))))
      && (s.team.workers[t].pc.Asleep? ==> CanStep(c, s, Plain(SpuriousWorker(t))))
    ensures forall t: nat, error: nat :: Busy(s.team, t) ==> CanStep(c, s, End(t, Some(error)))
  {
    forall t: nat, error: nat | Busy(s.team, t) ensures CanStep(c, s, End(t, Some(error))) {
      assert Holds(s.team, t, JobOf(s.team, t));
    }
  }
}
