/** Building every binary before any timing: a wave of leaders, then a wave of their twins. */
module PrebuildRun {
  import opened Options
  import opened CmdstanJob
  import opened JobInvariants
  import opened JobStatus
  import opened JobRecords
  import opened Prebuild
  import opened PrebuildStages
  import opened PrebuildWaves

  // ---------------------------------------------------------------- leaders and twins

  datatype Group = ByHash(hash: nat) | ByName(name: Name)

  /** Models with equal sources share a group; an unreadable source, or no cache, is a group of its own. */
  function GroupOf(cfg: Config, name: Name): Group {
    if HashOf(cfg, name).Some? then ByHash(HashOf(cfg, name).value) else ByName(name)
  }

  /** The first of its group. */
  ghost predicate LeadsAt(cfg: Config, inputs: seq<Name>, i: nat)
    requires i < |inputs|
  {
    forall j :: 0 <= j < i ==> GroupOf(cfg, inputs[j]) != GroupOf(cfg, inputs[i])
  }

  ghost predicate Leads(cfg: Config, inputs: seq<Name>, name: Name) {
    exists i :: 0 <= i < |inputs| && inputs[i] == name && LeadsAt(cfg, inputs, i)
  }

  /** The leaders, or the others, among the first n inputs. */
  ghost function Wave(cfg: Config, inputs: seq<Name>, n: nat, leading: bool): seq<Name>
    requires n <= |inputs|
  {
    if n == 0 then [] else
      Wave(cfg, inputs, n - 1, leading) + if LeadsAt(cfg, inputs, n - 1) == leading then [inputs[n - 1]] else []
  }

  ghost predicate InWave(cfg: Config, inputs: seq<Name>, n: nat, leading: bool, x: Name)
    requires n <= |inputs|
  {
    exists i :: 0 <= i < n && inputs[i] == x && LeadsAt(cfg, inputs, i) == leading
  }

  lemma {:induction false} WaveIs(cfg: Config, inputs: seq<Name>, n: nat, leading: bool)
    requires n <= |inputs| && NoDup(inputs)
    ensures NoDup(Wave(cfg, inputs, n, leading))
    ensures forall x :: x in Wave(cfg, inputs, n, leading) <==> InWave(cfg, inputs, n, leading, x)
  {
    if n > 0 {
      WaveIs(cfg, inputs, n - 1, leading);
      var before := Wave(cfg, inputs, n - 1, leading);
      assert !InWave(cfg, inputs, n - 1, leading, inputs[n - 1]);
      assert forall i :: 0 <= i < |before| ==> before[i] in before;
      forall x ensures InWave(cfg, inputs, n, leading, x) <==>
                       InWave(cfg, inputs, n - 1, leading, x) ||
                       (x == inputs[n - 1] && LeadsAt(cfg, inputs, n - 1) == leading) { }
    }
  }

  method SplitInputs(cfg: Config, inputs: seq<Name>) returns (leaders: seq<Name>, twins: seq<Name>)
    requires NoDup(inputs)
    ensures NoDup(leaders) && NoDup(twins)
    ensures forall n :: n in leaders <==> Leads(cfg, inputs, n)
    ensures forall n :: n in twins <==> n in inputs && n !in leaders
  {
    leaders, twins := [], [];
    var seen := {};
    for i := 0 to |inputs|
      invariant leaders == Wave(cfg, inputs, i, true) && twins == Wave(cfg, inputs, i, false)
      invariant forall j :: 0 <= j < i ==> GroupOf(cfg, inputs[j]) in seen
      invariant forall g :: g in seen ==> exists j :: 0 <= j < i && GroupOf(cfg, inputs[j]) == g
    {
      var group := GroupOf(cfg, inputs[i]);
      assert group in seen <==> !LeadsAt(cfg, inputs, i);
      if group in seen {
        twins := twins + [inputs[i]];
      } else {
        leaders := leaders + [inputs[i]];
      }
      seen := seen + {group};
    }
    WaveIs(cfg, inputs, |inputs|, true);
    WaveIs(cfg, inputs, |inputs|, false);
    EitherWave(cfg, inputs, leaders, twins);
  }

  lemma EitherWave(cfg: Config, inputs: seq<Name>, leaders: seq<Name>, twins: seq<Name>)
    requires NoDup(inputs)
    requires forall x :: x in leaders <==> InWave(cfg, inputs, |inputs|, true, x)
    requires forall x :: x in twins <==> InWave(cfg, inputs, |inputs|, false, x)
    ensures forall n :: n in leaders <==> Leads(cfg, inputs, n)
    ensures forall n :: n in twins <==> n in inputs && n !in leaders
  { }

  // ---------------------------------------------------------------- what the twins find

  ghost predicate TwinOf(cfg: Config, inputs: seq<Name>, t: Name, l: Name) {
    t in inputs && t != l && Leads(cfg, inputs, l) && GroupOf(cfg, t) == GroupOf(cfg, l)
  }

  /** The model ran no command. */
  ghost predicate Idle(log: seq<Event>, name: Name) {
    forall i :: 0 <= i < |log| ==> log[i].cmd.name != name
  }

  predicate Successful(b: Build) {
    !Failed(b) && b.executable.Some? && b.gradient.Some?
  }

  /** A complete entry, or room for one. */
  predicate Usable(w: World, key: Key) {
    Free(w.entries, key) || Complete(w.entries[key])
  }

  /** The twins of this leader find the entry complete: it was so before, or the leader commits it. */
  predicate Follows(cfg: Config, w0: World, leader: Name, key: Key) {
    if Free(w0.entries, key) then Commits(cfg, w0, leader, key) else Complete(w0.entries[key])
  }

  /** A twin whose source gets lost leaks unless it finds the model. */
  predicate TwinLeaks(cfg: Config, w0: World, t: Name, l: Name) {
    && cfg.fate(t).making.NoSource?
    && HashOf(cfg, t).Some? && !Follows(cfg, w0, l, ModelKey(HashOf(cfg, t).value))
  }

  /** A twin runs a command when an entry does not follow from its leader and its own steps get as far. */
  predicate TwinRuns(cfg: Config, w0: World, t: Name, l: Name) {
    && HashOf(cfg, t).Some?
    && var h := HashOf(cfg, t).value;
       RunsCached(cfg.fate(t), Follows(cfg, w0, l, ModelKey(h)), Follows(cfg, w0, l, DriverKey(h)))
  }

  /** The same when the leader succeeded: only a nonempty entry that was broken before makes a twin run. */
  predicate TwinRebuilds(cfg: Config, w0: World, t: Name) {
    && HashOf(cfg, t).Some?
    && var h := HashOf(cfg, t).value;
       RunsCached(cfg.fate(t), Usable(w0, ModelKey(h)), Usable(w0, DriverKey(h)))
  }

  lemma TwinsShareHash(cfg: Config, inputs: seq<Name>, t: Name, l: Name)
    requires TwinOf(cfg, inputs, t, l)
    ensures cfg.cached && HashOf(cfg, t).Some? && HashOf(cfg, t) == HashOf(cfg, l) == cfg.hash(t)
  { }

  lemma OneLeader(cfg: Config, inputs: seq<Name>, l: Name, m: Name)
    requires Leads(cfg, inputs, l) && Leads(cfg, inputs, m) && GroupOf(cfg, l) == GroupOf(cfg, m)
    ensures l == m
  { }

  lemma LeaderOf(cfg: Config, inputs: seq<Name>, i: nat) returns (l: Name)
    requires NoDup(inputs) && i < |inputs| && !Leads(cfg, inputs, inputs[i])
    ensures TwinOf(cfg, inputs, inputs[i], l)
  {
    var j := FirstOfGroup(cfg, inputs, i);
    l := inputs[j];
    assert Leads(cfg, inputs, l);
  }

  lemma {:induction false} FirstOfGroup(cfg: Config, inputs: seq<Name>, i: nat) returns (j: nat)
    requires i < |inputs|
    ensures j <= i && LeadsAt(cfg, inputs, j) && GroupOf(cfg, inputs[j]) == GroupOf(cfg, inputs[i])
    decreases i
  {
    if LeadsAt(cfg, inputs, i) {
      j := i;
    } else {
      var k :| 0 <= k < i && GroupOf(cfg, inputs[k]) == GroupOf(cfg, inputs[i]);
      j := FirstOfGroup(cfg, inputs, k);
    }
  }

  lemma TwinsAreNotLeaders(cfg: Config, inputs: seq<Name>, t: Name, l: Name)
    requires NoDup(inputs) && TwinOf(cfg, inputs, t, l)
    ensures !Leads(cfg, inputs, t)
  { }

  lemma PathsExist(cfg: Config, w0: World, s: Shop)
    requires EntriesOk(w0, s.w) && BuildsOk(cfg, w0, s.w, s.builds)
    ensures forall n, p :: n in s.builds && (s.builds[n].executable == Some(p) || s.builds[n].gradient == Some(p)) ==>
      !p.InScratch? && (Exists(s.w, p) <==> !MissingBefore(w0, p))
  { }

  /** What a lookup finds later on: an old nonempty entry as it was, or whatever filled the room. */
  lemma LaterLookup(w0: World, w: World, key: Key)
    requires EntriesOk(w0, w)
    ensures Lookup(w, key) <==> if Free(w0.entries, key) then !Free(w.entries, key) else Complete(w0.entries[key])
  { }

  ghost predicate AfterLeaders(cfg: Config, inputs: seq<Name>, w0: World, w: World) {
    && EntriesOk(w0, w)
    && forall key :: !Free(w.entries, key) <==> !Free(w0.entries, key) || SomeLeaderCommits(cfg, inputs, w0, key)
  }

  ghost predicate SomeLeaderCommits(cfg: Config, inputs: seq<Name>, w0: World, key: Key) {
    exists n :: Leads(cfg, inputs, n) && Commits(cfg, w0, n, key)
  }

  lemma TwinFinds(cfg: Config, inputs: seq<Name>, w0: World, w: World, t: Name, l: Name, key: Key)
    requires AfterLeaders(cfg, inputs, w0, w) && TwinOf(cfg, inputs, t, l) && HashOf(cfg, t) == Some(key.hash)
    ensures Lookup(w, key) <==> Follows(cfg, w0, l, key)
  {
    LaterLookup(w0, w, key);
    assert !Free(w.entries, key) <==> !Free(w0.entries, key) || SomeLeaderCommits(cfg, inputs, w0, key);
    if n :| Leads(cfg, inputs, n) && Commits(cfg, w0, n, key) {
      OneLeader(cfg, inputs, l, n);
    }
  }

  lemma TwinIs(cfg: Config, inputs: seq<Name>, w0: World, w: World, t: Name, l: Name)
    requires AfterLeaders(cfg, inputs, w0, w) && TwinOf(cfg, inputs, t, l)
    ensures Leaks(cfg, w, t) <==> TwinLeaks(cfg, w0, t, l)
    ensures Runs(cfg, w, t) <==> TwinRuns(cfg, w0, t, l)
  {
    TwinsShareHash(cfg, inputs, t, l);
    TwinFinds(cfg, inputs, w0, w, t, l, ModelKey(HashOf(cfg, t).value));
    TwinFinds(cfg, inputs, w0, w, t, l, DriverKey(HashOf(cfg, t).value));
  }

  /** No constructor leaves a directory behind. */
  ghost predicate Tidy(cfg: Config, inputs: seq<Name>, w0: World) {
    && (forall l :: Leads(cfg, inputs, l) ==> !Leaks(cfg, w0, l))
    && (forall t, l :: TwinOf(cfg, inputs, t, l) ==> !TwinLeaks(cfg, w0, t, l))
  }

  lemma TidyWaves(cfg: Config, inputs: seq<Name>, w0: World, w: World, leaders: seq<Name>, twins: seq<Name>)
    requires NoDup(inputs) && AfterLeaders(cfg, inputs, w0, w)
    requires forall n :: n in leaders <==> Leads(cfg, inputs, n)
    requires forall n :: n in twins <==> n in inputs && n !in leaders
    ensures NoneLeaks(cfg, w0, leaders, |leaders|) && NoneLeaks(cfg, w, twins, |twins|) <==> Tidy(cfg, inputs, w0)
  {
    if Tidy(cfg, inputs, w0) {
      forall j | 0 <= j < |leaders| ensures !Leaks(cfg, w0, leaders[j]) {
        assert leaders[j] in leaders;
      }
      forall j | 0 <= j < |twins| ensures !Leaks(cfg, w, twins[j]) {
        assert twins[j] in twins;
        var i :| 0 <= i < |inputs| && inputs[i] == twins[j];
        var l := LeaderOf(cfg, inputs, i);
        TwinIs(cfg, inputs, w0, w, twins[j], l);
      }
    }
    if NoneLeaks(cfg, w0, leaders, |leaders|) && NoneLeaks(cfg, w, twins, |twins|) {
      forall l | Leads(cfg, inputs, l) ensures !Leaks(cfg, w0, l) {
        assert l in leaders;
      }
      forall t, l | TwinOf(cfg, inputs, t, l) ensures !TwinLeaks(cfg, w0, t, l) {
        TwinsAreNotLeaders(cfg, inputs, t, l);
        TwinIs(cfg, inputs, w0, w, t, l);
        assert t in twins;
      }
    }
  }

  lemma TwinRebuildsIff(cfg: Config, w0: World, s: Shop, inputs: seq<Name>, t: Name, l: Name)
    requires AfterLeaders(cfg, inputs, w0, s.w) && BuildsOk(cfg, w0, s.w, s.builds)
    requires TwinOf(cfg, inputs, t, l) && l in s.builds && Successful(s.builds[l])
    ensures Runs(cfg, s.w, t) <==> TwinRebuilds(cfg, w0, t)
  {
    TwinsShareHash(cfg, inputs, t, l);
    var h := HashOf(cfg, t).value;
    assert Published(s.w, s.builds[l], cfg.hash(l));
    LaterLookup(w0, s.w, ModelKey(h));
    LaterLookup(w0, s.w, DriverKey(h));
  }

  lemma IdleIffNotBusy(log: seq<Event>, busy: set<Name>)
    requires Traced([], log, busy)
    ensures forall n :: Idle(log, n) <==> n !in busy
  {
    forall n ensures Idle(log, n) <==> !Mentions(log, 0, n) { }
  }

  /** `cmdstan_build`: all stages of a single model; an exception aborts the job and passes on as None. */
  function BuildAlone(cfg: Config, w: World, name: Name): (World, Option<Build>) {
    var made := Construct(cfg, w, name);
    if made.1.None? then (made.0, None)
    else if made.1.value.build.hit then Finish(cfg, made.0, made.1.value)
    else
      var header := RunStanc(cfg, made.0, made.1.value);
      if header.1.None? then (Abort(header.0, made.1.value), None)
      else if !HeaderReady(header.1.value) then Finish(cfg, header.0, header.1.value)
      else
        var begun := StartDriver(cfg, header.0, header.1.value);
        var driver := if header.1.value.driverHit then header
                      else if begun.2 then EndDriver(cfg, begun.0, begun.1) else (begun.0, None);
        if driver.1.None? then (Abort(driver.0, if header.1.value.driverHit then header.1.value else begun.1), None)
        else
          var exe := RunMake(cfg, driver.0, driver.1.value);
          if exe.1.None? then (Abort(exe.0, driver.1.value), None) else Finish(cfg, exe.0, exe.1.value)
  }

  /** Every step of every model goes well, all sources are equal. */
  const AllFine := Config(true, _ => Some(0), _ => Fine, _ => false)

  function AllThree(name: Name): seq<Event> {
    var stanc, driver, make := Command(Stanc, name), Command(Driver, name), Command(Make, name);
    [Begin(stanc), End(stanc), Begin(driver), End(driver), Begin(make), End(make)]
  }

  lemma FinishFine(w: World, job: Job)
    requires job.hash == Some(0) && !Failed(job.build) && job.stancOk
    requires job.scratch.Some? && Exists(w, InScratch(job.scratch.value, Exe))
    requires job.driverScratch.Some? && Exists(w, InScratch(job.driverScratch.value, GradBench))
    requires job.scratch != job.driverScratch
    ensures var r := Finish(AllFine, w, job);
            && r.1.Some? && Successful(r.1.value) && r.0.log == w.log
            && (!Free(w.entries, ModelKey(0)) ==> r.0.entries[ModelKey(0)] == w.entries[ModelKey(0)])
  {
    FinishRunsNothing(AllFine, w, job);
  }

  /** A model that misses both entries, while nothing goes wrong. */
  lemma AloneFromScratch(w: World, name: Name)
    requires !Lookup(w, ModelKey(0)) && !Lookup(w, DriverKey(0)) && !Free(w.entries, ModelKey(0))
    ensures var r := BuildAlone(AllFine, w, name);
            && r.1.Some? && Successful(r.1.value) && r.0.log == w.log + AllThree(name) && !Lookup(r.0, ModelKey(0))
  {
    var made := Construct(AllFine, w, name);
    var header := RunStanc(AllFine, made.0, made.1.value);
    var begun := StartDriver(AllFine, header.0, header.1.value);
    var driver := EndDriver(AllFine, begun.0, begun.1);
    var exe := RunMake(AllFine, driver.0, driver.1.value);
    assert exe.0.log == w.log + AllThree(name);
    FinishFine(exe.0, exe.1.value);
  }

  lemma StancOnMiss(w: World, name: Name)
    requires !Lookup(w, ModelKey(0))
    ensures var made := Construct(AllFine, w, name);
            made.1.Some? && !Idle(RunStanc(AllFine, made.0, made.1.value).0.log, name)
  {
    var made := Construct(AllFine, w, name);
    assert RunStanc(AllFine, made.0, made.1.value).0.log[|w.log|].cmd.name == name;
  }

  /** The leader succeeds, and still its twin misses the model and runs a command of its own. */
  ghost predicate RebuiltByTwin(w0: World, l: Name, t: Name) {
    var (w, build) := BuildAlone(AllFine, w0, l);
    && build.Some? && Successful(build.value) && Idle(w.log, t)
    && var made := Construct(AllFine, w, t);
    && made.1.Some? && !Idle(RunStanc(AllFine, made.0, made.1.value).0.log, t)
  }

  lemma BrokenModelIsRebuilt(w0: World, l: Name, t: Name)
    requires l != t && Idle(w0.log, t)
    requires !Free(w0.entries, ModelKey(0)) && !Lookup(w0, ModelKey(0)) && !Lookup(w0, DriverKey(0))
    ensures RebuiltByTwin(w0, l, t)
  {
    AloneFromScratch(w0, l);
    StancOnMiss(BuildAlone(AllFine, w0, l).0, t);
  }

  /** A half-deleted model entry is all it takes. */
  lemma TwinCanRebuild(l: Name, t: Name)
    requires l != t
    ensures var w0 := World(map[ModelKey(0) := Folder({Stan}, None)], map[], map[], 0, []);
            RebuiltByTwin(w0, l, t) && TwinRebuilds(AllFine, w0, t)
  {
    BrokenModelIsRebuilt(World(map[ModelKey(0) := Folder({Stan}, None)], map[], map[], 0, []), l, t);
  }

  // ---------------------------------------------------------------- the whole prebuild

  /** For every pattern of failures: one record per input; a recorded path exists unless it leads into a
      nonempty entry that lacked the file before; stanc and make never ran beside another command. Which
      models ran a command, and whether scratch directories are left, is told exactly by the cache at
      the start and by the steps of the models; a twin of a leader that succeeded runs one only because
      of a nonempty entry that was broken before. */
  method PrebuildAll(cfg: Config, inputs: seq<Name>, workers: nat, w0: World)
    returns (builds: map<Name, Build>, w: World)
    requires NoDup(inputs) && workers >= 1 && w0.log == [] && forall id :: id in w0.scratch ==> id < w0.next
    ensures forall n :: n in builds <==> n in inputs
    ensures forall n, p :: n in builds && (builds[n].executable == Some(p) || builds[n].gradient == Some(p)) ==>
      !p.InScratch? && (Exists(w, p) <==> !MissingBefore(w0, p))
    ensures w0.scratch.Keys <= w.scratch.Keys && (w.scratch.Keys == w0.scratch.Keys <==> Tidy(cfg, inputs, w0))
    ensures Running(w.log) == Some({}) && Peak(w.log) <= workers
    ensures forall l :: Leads(cfg, inputs, l) ==> (Idle(w.log, l) <==> !Runs(cfg, w0, l))
    ensures forall t, l :: TwinOf(cfg, inputs, t, l) ==> (Idle(w.log, t) <==> !TwinRuns(cfg, w0, t, l))
    ensures forall t, l :: TwinOf(cfg, inputs, t, l) && l in builds && Successful(builds[l]) ==>
      (Idle(w.log, t) <==> !TwinRebuilds(cfg, w0, t))
    ensures forall n :: n in builds && !Failed(builds[n]) ==> builds[n].executable.Some? && builds[n].gradient.Some?
    ensures forall l :: Leads(cfg, inputs, l) ==> l in builds && RecordFits(cfg, w0, l, builds[l])
    ensures forall t, l :: TwinOf(cfg, inputs, t, l) ==> t in builds && TwinRecord(cfg, w0, t, l, builds[t])
    ensures forall l :: Leads(cfg, inputs, l) ==> Of(w.log, l) == CommandsFor(cfg, w0, l)
    ensures forall t, l :: TwinOf(cfg, inputs, t, l) ==> Of(w.log, t) == TwinCommands(cfg, w0, t, l)
    ensures exists cut :: LeadersFirst(cfg, inputs, w.log, cut)
  {
    var leaders, twins := SplitInputs(cfg, inputs);
    var s1, loose1, busy1 := RunWave(cfg, Shop(w0, map[], map[]), leaders, workers, w0, w0.scratch.Keys);
    var s2, loose2, busy2 := RunWave(cfg, s1, twins, workers, w0, loose1);
    builds, w := s2.builds, s2.w;
    assert w.scratch.Keys == loose2;
    assert AfterLeaders(cfg, inputs, w0, s1.w);
    TidyWaves(cfg, inputs, w0, s1.w, leaders, twins);
    PathsExist(cfg, w0, s2);
    TracedThen(w0.log, s1.w.log, w.log, busy1, busy2);
    IdleIffNotBusy(w.log, busy1 + busy2);
    forall t, l | TwinOf(cfg, inputs, t, l)
      ensures Idle(w.log, t) <==> !TwinRuns(cfg, w0, t, l)
      ensures l in builds && Successful(builds[l]) ==> (Idle(w.log, t) <==> !TwinRebuilds(cfg, w0, t))
    {
      TwinsAreNotLeaders(cfg, inputs, t, l);
      TwinIs(cfg, inputs, w0, s1.w, t, l);
      if l in builds && Successful(builds[l]) {
        TwinRebuildsIff(cfg, w0, s1, inputs, t, l);
      }
    }
    RecordsAre(cfg, inputs, w0, s1.w, leaders, twins, builds);
    CommandsAreIn(cfg, inputs, w0, s1.w, w.log, leaders, twins);
    assert LeadersFirst(cfg, inputs, w.log, |s1.w.log|) by {
      WavesInOrder(cfg, inputs, s1.w.log, w.log, busy1, busy2);
    }
  }

  /** All commands of leaders end before the first one of a twin begins. */
  ghost predicate LeadersFirst(cfg: Config, inputs: seq<Name>, log: seq<Event>, cut: nat) {
    && cut <= |log|
    && (forall i :: 0 <= i < cut ==> Leads(cfg, inputs, log[i].cmd.name))
    && (forall i :: cut <= i < |log| ==> !Leads(cfg, inputs, log[i].cmd.name))
  }

  lemma WavesInOrder(cfg: Config, inputs: seq<Name>, first: seq<Event>, log: seq<Event>, busy1: set<Name>,
                     busy2: set<Name>)
    requires Traced([], first, busy1) && Traced(first, log, busy2)
    requires (forall n :: n in busy1 ==> Leads(cfg, inputs, n)) && (forall n :: n in busy2 ==> !Leads(cfg, inputs, n))
    ensures LeadersFirst(cfg, inputs, log, |first|)
  {
    forall i | 0 <= i < |first| ensures Leads(cfg, inputs, log[i].cmd.name) {
      assert Mentions(first, 0, first[i].cmd.name);
    }
    forall i | |first| <= i < |log| ensures !Leads(cfg, inputs, log[i].cmd.name) {
      assert Mentions(log, |first|, log[i].cmd.name);
    }
  }

  /** The commands of a twin follow from what its leader leaves in the cache. */
  function TwinCommands(cfg: Config, w0: World, t: Name, l: Name): seq<Event> {
    var h := HashOf(cfg, t);
    CommandsOf(cfg, t, h.Some? && Follows(cfg, w0, l, ModelKey(h.value)),
               h.Some? && Follows(cfg, w0, l, DriverKey(h.value)))
  }

  lemma CommandsAreIn(cfg: Config, inputs: seq<Name>, w0: World, w: World, log: seq<Event>, leaders: seq<Name>,
                      twins: seq<Name>)
    requires NoDup(inputs) && AfterLeaders(cfg, inputs, w0, w) && w0.log == []
    requires forall n :: n in leaders <==> Leads(cfg, inputs, n)
    requires forall n :: n in twins <==> n in inputs && n !in leaders
    requires forall n {:trigger Of(w.log, n)} ::
      Of(w.log, n) == Of(w0.log, n) + if n in leaders then CommandsFor(cfg, w0, n) else []
    requires forall n {:trigger Of(log, n)} ::
      Of(log, n) == Of(w.log, n) + if n in twins then CommandsFor(cfg, w, n) else []
    ensures forall l :: Leads(cfg, inputs, l) ==> Of(log, l) == CommandsFor(cfg, w0, l)
    ensures forall t, l :: TwinOf(cfg, inputs, t, l) ==> Of(log, t) == TwinCommands(cfg, w0, t, l)
  {
    forall l | Leads(cfg, inputs, l) ensures Of(log, l) == CommandsFor(cfg, w0, l) {
      assert Of(w.log, l) == Of(w0.log, l) + CommandsFor(cfg, w0, l);
    }
    forall t, l | TwinOf(cfg, inputs, t, l) ensures Of(log, t) == TwinCommands(cfg, w0, t, l) {
      TwinsAreNotLeaders(cfg, inputs, t, l);
      TwinsShareHash(cfg, inputs, t, l);
      TwinFinds(cfg, inputs, w0, w, t, l, ModelKey(HashOf(cfg, t).value));
      TwinFinds(cfg, inputs, w0, w, t, l, DriverKey(HashOf(cfg, t).value));
      assert Of(w.log, t) == Of(w0.log, t) + [];
    }
  }

  /** What the record of a twin says follows from what its leader leaves in the cache. */
  ghost predicate TwinRecord(cfg: Config, w0: World, t: Name, l: Name, b: Build) {
    && HashOf(cfg, t).Some?
    && var h := HashOf(cfg, t).value;
       RecordIs(cfg, t, Follows(cfg, w0, l, ModelKey(h)), Follows(cfg, w0, l, DriverKey(h)), b)
  }

  lemma RecordsAre(cfg: Config, inputs: seq<Name>, w0: World, w: World, leaders: seq<Name>, twins: seq<Name>,
                   builds: map<Name, Build>)
    requires NoDup(inputs) && AfterLeaders(cfg, inputs, w0, w)
    requires forall n :: n in leaders <==> Leads(cfg, inputs, n)
    requires forall n :: n in twins <==> n in inputs && n !in leaders
    requires forall n :: n in builds <==> n in inputs
    requires forall n :: n in leaders ==> n in builds && RecordFits(cfg, w0, n, builds[n])
    requires forall n :: n in twins ==> n in builds && RecordFits(cfg, w, n, builds[n])
    ensures forall n :: n in builds && !Failed(builds[n]) ==> builds[n].executable.Some? && builds[n].gradient.Some?
    ensures forall l :: Leads(cfg, inputs, l) ==> l in builds && RecordFits(cfg, w0, l, builds[l])
    ensures forall t, l :: TwinOf(cfg, inputs, t, l) ==> t in builds && TwinRecord(cfg, w0, t, l, builds[t])
  {
    forall n | n in builds && !Failed(builds[n]) ensures builds[n].executable.Some? && builds[n].gradient.Some? {
      NoGap(cfg, if n in leaders then w0 else w, n, builds[n]);
    }
    forall t, l | TwinOf(cfg, inputs, t, l) ensures t in builds && TwinRecord(cfg, w0, t, l, builds[t]) {
      TwinsAreNotLeaders(cfg, inputs, t, l);
      TwinsShareHash(cfg, inputs, t, l);
      TwinFinds(cfg, inputs, w0, w, t, l, ModelKey(HashOf(cfg, t).value));
      TwinFinds(cfg, inputs, w0, w, t, l, DriverKey(HashOf(cfg, t).value));
    }
  }

  lemma NoGap(cfg: Config, w: World, name: Name, b: Build)
    requires RecordFits(cfg, w, name, b) && !Failed(b)
    ensures b.executable.Some? && b.gradient.Some?
  {
    var h := HashOf(cfg, name);
    NoFailureNoGap(cfg, name, h.Some? && Lookup(w, ModelKey(h.value)), h.Some? && Lookup(w, DriverKey(h.value)), b);
  }
}
