/** The team never gets stuck: a potential bounds the steps of every call, and until the call is over
    some thread can step. Spurious wake-ups are allowed everywhere but are not counted as progress. */
module TeamProgress {
  import opened TeamControl

  /** Everything but the start of a call and a spurious wake-up. */
  predicate Progress(e: Event) {
    !e.BeginRun? && !e.BeginStop? && !e.SpuriousWorker? && !e.SpuriousCaller?
  }

  /** No call is in progress. */
  predicate AtRest(s: Team) { s.caller.Quiet? || s.caller.Closed? }

  function Weight(w: Worker, stopping: bool, g: nat): nat {
    match w.pc
    case Gone => 0
    case Starting => 3
    case Leaving => 3
    case Fetching => 4
    case Working(_) => 5
    case Checking => if stopping || w.seen == g then 1 else 5
    case Asleep => if stopping then 1 else if w.seen == g then 0 else 5
  }

  function Weights(ws: seq<Worker>, stopping: bool, g: nat): nat {
    if ws == [] then 0 else Weight(ws[|ws| - 1], stopping, g) + Weights(ws[..|ws| - 1], stopping, g)
  }

  function CallerWeight(s: Team): nat {
    var n := |s.workers|;
    match s.caller
    case Quiet => 0
    case Closed => 0
    case Scanning => 1
    case AwaitDone(asleep) => if asleep then 2 else 3
    case Draining => 4
    case Executing(_) => 5
    case Waking => n + 5
    case Publishing => 6 * n + 2 * s.jobs + 6
    case Joining(k) => if k <= n then n - k + 1 else 0
    case WakingAll => n + 2
    case Stopping => 2 * n + 3
    case AwaitReady(asleep) => if asleep then 2 * n + 4 else 2 * n + 5
    case Spawning => 2 * n + 6 + 6 * (if n + 1 < s.threads then s.threads - 1 - n else 0)
  }

  function TicketWeight(s: Team): nat {
    if Active(s.caller) && s.next < s.jobs then 2 * (s.jobs - s.next) else 0
  }

  function Potential(s: Team): nat {
    Weights(s.workers, s.stopping, s.generation) + CallerWeight(s) + TicketWeight(s)
  }

  lemma {:induction false} WeightsUpdate(ws: seq<Worker>, stopping: bool, g: nat, t: nat, w: Worker)
    requires t < |ws|
    ensures Weights(ws[t := w], stopping, g) ==
      Weights(ws, stopping, g) - Weight(ws[t], stopping, g) + Weight(w, stopping, g)
  {
    var n := |ws| - 1;
    if t == n {
      assert ws[t := w][..n] == ws[..n];
    } else {
      assert ws[t := w][..n] == ws[..n][t := w];
      WeightsUpdate(ws[..n], stopping, g, t, w);
    }
  }

  lemma {:induction false} WeightsBound(ws: seq<Worker>, stopping: bool, g: nat,
                                        ws': seq<Worker>, stopping': bool, g': nat, extra: nat)
    requires |ws| == |ws'|
    requires forall t :: 0 <= t < |ws| ==> Weight(ws'[t], stopping', g') <= Weight(ws[t], stopping, g) + extra
    ensures Weights(ws', stopping', g') <= Weights(ws, stopping, g) + extra * |ws|
  {
    if ws != [] {
      var n := |ws| - 1;
      assert Weight(ws'[n], stopping', g') <= Weight(ws[n], stopping, g) + extra;
      WeightsBound(ws[..n], stopping, g, ws'[..n], stopping', g', extra);
      assert extra * |ws| == extra * n + extra;
    }
  }

  lemma CheckDescends(s: Team, t: nat)
    requires Inv(s) && Enabled(s, WorkerCheck(t))
    ensures Potential(CheckWorker(s, t)) < Potential(s)
  {
    WeightsUpdate(s.workers, s.stopping, s.generation, t, CheckWorker(s, t).workers[t]);
  }

  lemma LeaveDescends(s: Team, t: nat)
    requires Inv(s) && Enabled(s, WorkerLeave(t))
    ensures Potential(Apply(s, WorkerLeave(t))) < Potential(s)
  {
    WeightsUpdate(s.workers, s.stopping, s.generation, t, s.workers[t].(pc := Checking));
  }

  lemma WorkerStartDescends(s: Team, e: Event)
    requires Inv(s) && Enabled(s, e)
    requires e.WorkerReady? || e.WorkerFails?
    ensures Potential(Apply(s, e)) < Potential(s)
  {
    CountExtremes(Reported, s.workers, s.generation);
    WeightsUpdate(s.workers, s.stopping, s.generation, e.t, Apply(s, e).workers[e.t]);
  }

  lemma DrawDescends(s: Team, t: nat)
    requires Inv(s) && Enabled(s, Draw(t))
    ensures Potential(DrawTicket(s, t)) < Potential(s)
  {
    if t < |s.workers| {
      WeightsUpdate(s.workers, s.stopping, s.generation, t, DrawTicket(s, t).workers[t]);
    } else {
      assert DrawTicket(s, t).workers == s.workers;
    }
  }

  lemma JobEndDescends(s: Team, t: nat)
    requires Inv(s) && Enabled(s, JobEnd(t))
    ensures Potential(Apply(s, JobEnd(t))) < Potential(s)
  {
    if t < |s.workers| {
      WeightsUpdate(s.workers, s.stopping, s.generation, t, s.workers[t].(pc := Fetching));
    }
  }

  lemma WakeDescends(s: Team)
    requires Inv(s) && Enabled(s, Wake)
    ensures Potential(Apply(s, Wake)) < Potential(s)
  {
    WeightsBound(s.workers, s.stopping, s.generation, Awake(s.workers), s.stopping, s.generation, 1);
  }

  lemma WakeAllDescends(s: Team)
    requires Inv(s) && Enabled(s, WakeAll)
    ensures Potential(Apply(s, WakeAll)) < Potential(s)
  {
    WeightsBound(s.workers, s.stopping, s.generation, Awake(s.workers), s.stopping, s.generation, 0);
  }

  lemma SetStoppingDescends(s: Team)
    requires Inv(s) && Enabled(s, SetStopping)
    ensures Potential(Apply(s, SetStopping)) < Potential(s)
  {
    WeightsBound(s.workers, s.stopping, s.generation, s.workers, true, s.generation, 1);
  }

  lemma PublishDescends(s: Team)
    requires Inv(s) && Enabled(s, Publish)
    ensures Potential(Apply(s, Publish)) < Potential(s)
  {
    WeightsBound(s.workers, s.stopping, s.generation, s.workers, s.stopping, s.generation + 1, 5);
  }

  lemma SpawnDescends(s: Team)
    requires Inv(s) && Enabled(s, Spawn)
    ensures Potential(Apply(s, Spawn)) < Potential(s)
  {
    assert Apply(s, Spawn).workers[..|s.workers|] == s.workers;
  }

  lemma CallerStepDescends(s: Team, e: Event)
    requires Inv(s) && Enabled(s, e)
    requires e.SpawnFails? || e.AllSpawned? || e.CheckReady? || e.CheckDone? || e.Scan? || e.Join?
    ensures Potential(Apply(s, e)) < Potential(s)
  {
    assert Apply(s, e).workers == s.workers;
  }

  lemma StepDescends(s: Team, e: Event)
    requires Inv(s) && Enabled(s, e) && Progress(e)
    ensures Potential(Apply(s, e)) < Potential(s)
  {
    match e
    case Spawn => SpawnDescends(s);
    case WorkerReady(_) => WorkerStartDescends(s, e);
    case WorkerFails(_) => WorkerStartDescends(s, e);
    case WorkerCheck(t) => CheckDescends(s, t);
    case WorkerLeave(t) => LeaveDescends(s, t);
    case Draw(t) => DrawDescends(s, t);
    case JobEnd(t) => JobEndDescends(s, t);
    case Publish => PublishDescends(s);
    case Wake => WakeDescends(s);
    case WakeAll => WakeAllDescends(s);
    case SetStopping => SetStoppingDescends(s);
    case _ => CallerStepDescends(s, e);
  }

  lemma WorkerCanStep(s: Team, t: nat) returns (e: Event)
    requires Inv(s) && t < |s.workers|
    requires !s.workers[t].pc.Gone? && !s.workers[t].pc.Asleep?
    ensures Enabled(s, e) && Progress(e)
  {
    match s.workers[t].pc {
      case Starting => e := WorkerReady(t);
      case Checking => e := WorkerCheck(t);
      case Fetching => e := Draw(t);
      case Working(_) => e := JobEnd(t);
      case Leaving => e := WorkerLeave(t);
    }
  }

  /** The calling thread sleeps only while some worker that is not asleep will notify it. */
  lemma SleeperIsAwaited(s: Team) returns (t: nat)
    requires Inv(s)
    requires s.caller == AwaitReady(true) || s.caller == AwaitDone(true)
    ensures t < |s.workers| && !s.workers[t].pc.Gone? && !s.workers[t].pc.Asleep?
  {
    if s.caller.AwaitReady? {
      CountExtremes(Reported, s.workers, s.generation);
      t :| t < |s.workers| && !Is(Reported, s.workers[t], s.generation);
    } else {
      CountExtremes(Engaged, s.workers, s.generation);
      t :| t < |s.workers| && Is(Engaged, s.workers[t], s.generation);
    }
  }

  lemma NotStuck(s: Team) returns (e: Event)
    requires Inv(s) && !AtRest(s)
    ensures Enabled(s, e) && Progress(e)
  {
    match s.caller {
      case Spawning => e := if |s.workers| + 1 < s.threads then Spawn else AllSpawned;
      case AwaitReady(asleep) =>
        if asleep { var t := SleeperIsAwaited(s); e := WorkerCanStep(s, t); } else { e := CheckReady; }
      case Publishing => e := Publish;
      case Waking => e := Wake;
      case Draining => e := Draw(|s.workers|);
      case Executing(_) => e := JobEnd(|s.workers|);
      case AwaitDone(asleep) =>
        if asleep { var t := SleeperIsAwaited(s); e := WorkerCanStep(s, t); } else { e := CheckDone; }
      case Scanning => e := Scan;
      case Stopping => e := SetStopping;
      case WakingAll => e := WakeAll;
      case Joining(k) =>
        if k == |s.workers| || s.workers[k].pc.Gone? { e := Join; } else { e := WorkerCanStep(s, k); }
    }
  }
}
