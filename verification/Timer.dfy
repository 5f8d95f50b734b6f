/** The benchmark driver's timing windows and the record it prints. */
module Timer {
  datatype Result<T> = Ok(value: T) | Err(message: string)

  datatype Window = Window(iterations: nat, elapsed: nat, batch: nat)

  /** Successive clock readings never decrease and pass every bound. */
  ghost predicate ClockOk(clock: nat -> nat) {
    (forall i: nat, j: nat :: i <= j ==> InOrder(clock, i, j)) && (forall bound: nat :: Passes(clock, bound))
  }

  ghost predicate InOrder(clock: nat -> nat, i: nat, j: nat) {
    clock(i) <= clock(j)
  }

  ghost predicate Passes(clock: nat -> nat, bound: nat) {
    exists j: nat :: clock(j) >= bound
  }

  const MILLISECOND := 1_000_000
  const MAX_BATCH := 0x10_0000

  /** The batch size after n further readings: doubled while a batch takes less than a millisecond. */
  function Batches(clock: nat -> nat, at: nat, start: nat, calibrate: bool, n: nat): nat {
    if n == 0 then start else
      var batch := Batches(clock, at, start, calibrate, n - 1);
      if calibrate && clock(at + n) - clock(at + n - 1) < MILLISECOND && batch < MAX_BATCH then batch * 2 else batch
  }

  function Iterations(clock: nat -> nat, at: nat, start: nat, calibrate: bool, n: nat): nat {
    if n == 0 then 0
    else Iterations(clock, at, start, calibrate, n - 1) + Batches(clock, at, start, calibrate, n - 1)
  }

  /** The window that starts at reading `at`: it ends with the first reading past the duration. */
  ghost predicate IsWindow(clock: nat -> nat, at: nat, duration: int, start: nat, calibrate: bool,
                           w: Window, next: nat) {
    && next >= at + 2
    && var n := next - at - 1;
    && (forall i: nat :: at < i < next - 1 ==> clock(i) - clock(at) < duration)
    && clock(at + n) - clock(at) >= duration && clock(at + n) >= clock(at)
    && w == Window(Iterations(clock, at, start, calibrate, n), clock(at + n) - clock(at),
                   Batches(clock, at, start, calibrate, n))
  }

  /** Whole batches until the window has passed; the overshoot stays in the result. `at` counts readings. */
  method RunWindow(clock: nat -> nat, at: nat, duration: int, start: nat, calibrate: bool)
    returns (r: Result<Window>, next: nat)
    requires ClockOk(clock)
    ensures r.Err? <==> duration <= 0 || start == 0
    ensures r.Ok? ==> IsWindow(clock, at, duration, start, calibrate, r.value, next)
  {
    next := at;
    if duration <= 0 || start == 0 {
      return Err("benchmark duration and batch must be positive"), next;
    }
    assert Passes(clock, clock(at) + duration);
    ghost var enough: nat :| clock(enough) >= clock(at) + duration;
    var iterations: nat, elapsed, batch: nat, n: nat := 0, 0, start, 0;
    while elapsed < duration
      invariant batch == Batches(clock, at, start, calibrate, n)
      invariant iterations == Iterations(clock, at, start, calibrate, n)
      invariant elapsed == clock(at + n) - clock(at)
      invariant forall i: nat :: at < i < at + n ==> clock(i) - clock(at) < duration
      decreases enough - (at + n)
    {
      assert enough <= at + n ==> InOrder(clock, enough, at + n);
      iterations := iterations + batch;
      n := n + 1;
      var batchNs := clock(at + n) - clock(at + n - 1);
      elapsed := clock(at + n) - clock(at);
      if calibrate && batchNs < MILLISECOND && batch < MAX_BATCH {
        batch := batch * 2;
      }
    }
    return Ok(Window(iterations, elapsed, batch)), at + n + 1;
  }

  /** Windows count something, in batches that calibration keeps bounded. */
  lemma {:induction false} BatchesBounded(clock: nat -> nat, at: nat, start: nat, calibrate: bool, n: nat)
    requires start > 0
    ensures var batch := Batches(clock, at, start, calibrate, n);
            start <= batch && (batch == start || batch < 2 * MAX_BATCH) && (!calibrate ==> batch == start)
    ensures n > 0 ==> Iterations(clock, at, start, calibrate, n) > 0
    ensures !calibrate ==> Iterations(clock, at, start, calibrate, n) == start * n
  {
    if n > 0 {
      BatchesBounded(clock, at, start, calibrate, n - 1);
    }
  }

  /** start * 2^n. */
  function Doubled(start: nat, n: nat): (r: nat)
    ensures r >= start
  {
    if n == 0 then start else 2 * Doubled(start, n - 1)
  }

  /** How many of the n readings after `at` come less than a millisecond after the one before. */
  function Quick(clock: nat -> nat, at: nat, n: nat): (r: nat)
    ensures r <= n
  {
    if n == 0 then 0
    else Quick(clock, at, n - 1) + if clock(at + n) - clock(at + n - 1) < 1_000_000 then 1 else 0
  }

  /** How often a batch can double before it reaches the cap. */
  function Doublings(start: nat): nat
    requires start > 0
    decreases 1_048_576 - start
  {
    if start >= 1_048_576 then 0 else 1 + Doublings(2 * start)
  }

  lemma {:induction false} DoubledFirst(start: nat, n: nat)
    ensures Doubled(2 * start, n) == Doubled(start, n + 1)
  {
    if n > 0 {
      DoubledFirst(start, n - 1);
    }
  }

  lemma {:induction false} DoublingsAre(start: nat, m: nat)
    requires start > 0
    ensures Doubled(start, m) < 1_048_576 <==> m < Doublings(start)
    decreases m
  {
    if m > 0 && start < 1_048_576 {
      DoubledFirst(start, m - 1);
      DoublingsAre(2 * start, m - 1);
    }
  }

  /** A calibrated batch has doubled once for every quick reading, until it reached the cap. */
  lemma {:induction false} BatchesDouble(clock: nat -> nat, at: nat, start: nat, n: nat)
    requires start > 0
    ensures var quick := Quick(clock, at, n);
            Batches(clock, at, start, true, n) ==
            Doubled(start, if quick < Doublings(start) then quick else Doublings(start))
  {
    if n > 0 {
      BatchesDouble(clock, at, start, n - 1);
      var before := Quick(clock, at, n - 1);
      DoublingsAre(start, if before < Doublings(start) then before else Doublings(start));
    }
  }

  /** While readings are quick and batches below the cap, n readings count start * (2^n - 1) evaluations. */
  lemma {:induction false} IterationsDouble(clock: nat -> nat, at: nat, start: nat, n: nat)
    requires start > 0 && Quick(clock, at, n) == n <= Doublings(start)
    ensures Batches(clock, at, start, true, n) == Doubled(start, n)
    ensures Iterations(clock, at, start, true, n) + start == Doubled(start, n)
  {
    BatchesDouble(clock, at, start, n);
    if n > 0 {
      IterationsDouble(clock, at, start, n - 1);
    }
  }

  lemma WindowIsUnique(clock: nat -> nat, at: nat, duration: int, start: nat, calibrate: bool, w: Window, w': Window,
                       next: nat, next': nat)
    requires IsWindow(clock, at, duration, start, calibrate, w, next)
    requires IsWindow(clock, at, duration, start, calibrate, w', next')
    ensures w == w' && next == next'
  { }

  // ---------------------------------------------------------------- one driver run

  datatype Num = Fin(value: real) | NonFinite

  /** What the model did at a point: an exception, or its density and gradient. */
  datatype Evaluation = Raised | Values(values: seq<Num>)

  datatype Entry = Dropped(point: nat) | Timed(point: nat, values: seq<Num>, window: Window)

  datatype Trial = Trial(warmIterations: nat, warmElapsed: nat, entries: seq<Entry>)

  predicate AllFinite(values: seq<Num>) {
    forall i :: 0 <= i < |values| ==> values[i].Fin?
  }

  predicate FiniteAt(e: Evaluation) {
    e.Values? && AllFinite(e.values)
  }

  predicate WindowOk(w: Window, duration: nat) {
    w.iterations > 0 && w.batch > 0 && w.elapsed >= duration && w.elapsed > 0
  }

  predicate EntryFor(e: Entry, k: nat, evaluation: Evaluation, measureNs: nat) {
    && e.point == k && (e.Timed? <==> FiniteAt(evaluation))
    && (e.Timed? ==> e.values == evaluation.values && WindowOk(e.window, measureNs))
  }

  /** What a driver can print for these evaluations. */
  ghost predicate Emitted(t: Trial, evals: seq<Evaluation>, warmupNs: nat, measureNs: nat) {
    && t.warmIterations > 0 && t.warmElapsed >= warmupNs && t.warmElapsed > 0 && |t.entries| == |evals|
    && (forall k :: 0 <= k < |evals| ==> EntryFor(t.entries[k], k, evals[k], measureNs))
    && exists k :: 0 <= k < |evals| && FiniteAt(evals[k])
  }

  const CALIBRATION := 2_000_000

  /** A finite point gets a calibration window and then its measurement, a batch of one at first. */
  ghost predicate EntryPrinted(clock: nat -> nat, evaluation: Evaluation, k: nat, at: nat, next: nat,
                               e: Entry, measureNs: nat) {
    if FiniteAt(evaluation) then
      && e.Timed? && e.point == k && e.values == evaluation.values
      && exists fit, mid: nat :: Measured(clock, at, fit, mid, e.window, next, measureNs)
    else e == Dropped(k) && next == at
  }

  ghost predicate Measured(clock: nat -> nat, at: nat, fit: Window, mid: nat, w: Window, next: nat, measureNs: nat) {
    IsWindow(clock, at, CALIBRATION, 1, true, fit, mid) && IsWindow(clock, mid, measureNs, fit.batch, false, w, next)
  }

  /** The readings at which the points' windows start. */
  ghost predicate PrintedAt(clock: nat -> nat, evals: seq<Evaluation>, warmupNs: nat, measureNs: nat, t: Trial,
                            warm: Window, ats: seq<nat>) {
    && |ats| == |evals| + 1 && |t.entries| == |evals|
    && IsWindow(clock, 0, warmupNs, 1, true, warm, ats[0])
    && t.warmIterations == warm.iterations && t.warmElapsed == warm.elapsed
    && (forall k :: 0 <= k < |evals| ==> PointPrinted(clock, evals, ats, t.entries, k, measureNs))
  }

  ghost predicate PointPrinted(clock: nat -> nat, evals: seq<Evaluation>, ats: seq<nat>, entries: seq<Entry>, k: nat,
                               measureNs: nat)
    requires k < |evals| && k < |entries| && k + 1 < |ats|
  {
    EntryPrinted(clock, evals[k], k, ats[k], ats[k + 1], entries[k], measureNs)
  }

  /** What the driver prints when the clock gives these readings. */
  ghost predicate Printed(clock: nat -> nat, evals: seq<Evaluation>, warmupNs: nat, measureNs: nat, t: Trial) {
    && (exists k :: 0 <= k < |evals| && FiniteAt(evals[k]))
    && exists warm, ats :: PrintedAt(clock, evals, warmupNs, measureNs, t, warm, ats)
  }

  method TimePoint(clock: nat -> nat, evaluation: Evaluation, k: nat, at: nat, measureNs: nat)
    returns (e: Entry, next: nat)
    requires ClockOk(clock) && measureNs > 0
    ensures EntryPrinted(clock, evaluation, k, at, next, e, measureNs)
  {
    if !FiniteAt(evaluation) {
      return Dropped(k), at;
    }
    var fit, mid := RunWindow(clock, at, CALIBRATION, 1, true);
    BatchesBounded(clock, at, 1, true, mid - at - 1);
    var measured;
    measured, next := RunWindow(clock, mid, measureNs, fit.value.batch, false);
    e := Timed(k, evaluation.values, measured.value);
    assert Measured(clock, at, fit.value, mid, measured.value, next, measureNs);
  }

  lemma OneMorePrinted(clock: nat -> nat, evals: seq<Evaluation>, ats: seq<nat>, entries: seq<Entry>, k: nat, next: nat,
                       e: Entry, measureNs: nat)
    requires k < |evals| && |entries| == k && |ats| == k + 1
    requires EntryPrinted(clock, evals[k], k, ats[k], next, e, measureNs)
    requires forall j :: 0 <= j < k ==> PointPrinted(clock, evals, ats, entries, j, measureNs)
    ensures forall j :: 0 <= j <= k ==> PointPrinted(clock, evals, ats + [next], entries + [e], j, measureNs)
  {
    forall j | 0 <= j <= k ensures PointPrinted(clock, evals, ats + [next], entries + [e], j, measureNs) {
      assert j < k ==> PointPrinted(clock, evals, ats, entries, j, measureNs);
    }
  }

  method TimedRun(evals: seq<Evaluation>, warmupNs: nat, measureNs: nat, clock: nat -> nat) returns (r: Result<Trial>)
    requires ClockOk(clock) && warmupNs > 0 && measureNs > 0
    ensures r.Err? <==> forall k :: 0 <= k < |evals| ==> !FiniteAt(evals[k])
    ensures r.Ok? ==> Printed(clock, evals, warmupNs, measureNs, r.value)
  {
    var first := -1;
    for k := 0 to |evals|
      invariant first < 0 ==> forall j :: 0 <= j < k ==> !FiniteAt(evals[j])
      invariant first >= 0 ==> first < k && FiniteAt(evals[first])
    {
      if FiniteAt(evals[k]) && first < 0 {
        first := k;
      }
    }
    if first < 0 {
      return Err("benchmark has no point with a finite density and gradient");
    }
    var warm, at := RunWindow(clock, 0, warmupNs, 1, true);
    var entries := [];
    ghost var ats: seq<nat> := [at];
    for k := 0 to |evals|
      invariant |entries| == k && |ats| == k + 1 && ats[k] == at
      invariant IsWindow(clock, 0, warmupNs, 1, true, warm.value, ats[0])
      invariant forall j :: 0 <= j < k ==> PointPrinted(clock, evals, ats, entries, j, measureNs)
    {
      var e, next := TimePoint(clock, evals[k], k, at, measureNs);
      OneMorePrinted(clock, evals, ats, entries, k, next, e, measureNs);
      entries, at := entries + [e], next;
      ats := ats + [next];
    }
    var t := Trial(warm.value.iterations, warm.value.elapsed, entries);
    assert PrintedAt(clock, evals, warmupNs, measureNs, t, warm.value, ats);
    return Ok(t);
  }

  lemma PrintedIsEmitted(clock: nat -> nat, evals: seq<Evaluation>, warmupNs: nat, measureNs: nat, t: Trial)
    requires ClockOk(clock) && warmupNs > 0 && measureNs > 0 && Printed(clock, evals, warmupNs, measureNs, t)
    ensures Emitted(t, evals, warmupNs, measureNs)
  {
    var warm, ats :| PrintedAt(clock, evals, warmupNs, measureNs, t, warm, ats);
    BatchesBounded(clock, 0, 1, true, ats[0] - 1);
    forall k | 0 <= k < |evals| ensures EntryFor(t.entries[k], k, evals[k], measureNs) {
      assert PointPrinted(clock, evals, ats, t.entries, k, measureNs);
      EntryIsEmitted(clock, evals[k], k, ats[k], ats[k + 1], t.entries[k], measureNs);
    }
  }

  lemma EntryIsEmitted(clock: nat -> nat, evaluation: Evaluation, k: nat, at: nat, next: nat, e: Entry, measureNs: nat)
    requires EntryPrinted(clock, evaluation, k, at, next, e, measureNs) && measureNs > 0
    ensures EntryFor(e, k, evaluation, measureNs)
  {
    if FiniteAt(evaluation) {
      var fit, mid: nat :| Measured(clock, at, fit, mid, e.window, next, measureNs);
      BatchesBounded(clock, at, 1, true, mid - at - 1);
      BatchesBounded(clock, mid, fit.batch, false, next - mid - 1);
    }
  }

  lemma {:induction false} SameReadings(clock: nat -> nat, evals: seq<Evaluation>, warmupNs: nat, measureNs: nat,
                                        t: Trial, t': Trial, warm: Window, warm': Window,
                                        ats: seq<nat>, ats': seq<nat>, k: nat)
    requires PrintedAt(clock, evals, warmupNs, measureNs, t, warm, ats)
    requires PrintedAt(clock, evals, warmupNs, measureNs, t', warm', ats') && k <= |evals|
    ensures ats[k] == ats'[k] && forall j :: 0 <= j < k ==> t.entries[j] == t'.entries[j]
  {
    if k == 0 {
      WindowIsUnique(clock, 0, warmupNs, 1, true, warm, warm', ats[0], ats'[0]);
    } else {
      SameReadings(clock, evals, warmupNs, measureNs, t, t', warm, warm', ats, ats', k - 1);
      assert PointPrinted(clock, evals, ats, t.entries, k - 1, measureNs);
      assert PointPrinted(clock, evals, ats', t'.entries, k - 1, measureNs);
      EntryIsUnique(clock, evals[k - 1], k - 1, ats[k - 1], ats[k], ats'[k],
                    t.entries[k - 1], t'.entries[k - 1], measureNs);
    }
  }

  lemma EntryIsUnique(clock: nat -> nat, evaluation: Evaluation, k: nat, at: nat, next: nat, next': nat,
                      e: Entry, e': Entry, measureNs: nat)
    requires EntryPrinted(clock, evaluation, k, at, next, e, measureNs)
    requires EntryPrinted(clock, evaluation, k, at, next', e', measureNs)
    ensures e == e' && next == next'
  {
    if FiniteAt(evaluation) {
      var fit, mid: nat :| Measured(clock, at, fit, mid, e.window, next, measureNs);
      var fit', mid': nat :| Measured(clock, at, fit', mid', e'.window, next', measureNs);
      WindowIsUnique(clock, at, CALIBRATION, 1, true, fit, fit', mid, mid');
      WindowIsUnique(clock, mid, measureNs, fit.batch, false, e.window, e'.window, next, next');
    }
  }

  /** The readings determine what is printed. */
  lemma PrintedIsUnique(clock: nat -> nat, evals: seq<Evaluation>, warmupNs: nat, measureNs: nat, t: Trial, t': Trial)
    requires Printed(clock, evals, warmupNs, measureNs, t) && Printed(clock, evals, warmupNs, measureNs, t')
    ensures t == t'
  {
    var warm, ats :| PrintedAt(clock, evals, warmupNs, measureNs, t, warm, ats);
    var warm', ats' :| PrintedAt(clock, evals, warmupNs, measureNs, t', warm', ats');
    SameReadings(clock, evals, warmupNs, measureNs, t, t', warm, warm', ats, ats', |evals|);
    WindowIsUnique(clock, 0, warmupNs, 1, true, warm, warm', ats[0], ats'[0]);
    assert t.entries == t'.entries;
  }

  // ---------------------------------------------------------------- the parser

  /** The parser compares with the unrounded windows: milliseconds times a million. */
  ghost predicate Parses(t: Trial, warmup: real, measure: real, points: nat) {
    && t.warmIterations > 0 && t.warmElapsed > 0 && t.warmElapsed as real >= warmup
    && |t.entries| == points
    && (forall k :: 0 <= k < points ==> EntryParses(t.entries[k], k, measure))
    && exists k :: 0 <= k < points && t.entries[k].Timed?
  }

  ghost predicate EntryParses(e: Entry, k: nat, measure: real) {
    && e.point == k
    && (e.Timed? ==> e.window.iterations > 0 && e.window.elapsed > 0 && e.window.batch > 0
                     && e.window.elapsed as real >= measure && e.values != [] && AllFinite(e.values))
  }

  /** Every finite point returned at least the density. */
  ghost predicate HasDensity(evals: seq<Evaluation>) {
    forall k :: 0 <= k < |evals| && FiniteAt(evals[k]) ==> evals[k].values != []
  }

  lemma EmittedParses(t: Trial, evals: seq<Evaluation>, warmup: real, measure: real)
    requires 1.0 <= warmup && 1.0 <= measure && warmup.Floor as real == warmup && measure.Floor as real == measure
    requires HasDensity(evals)
    requires Emitted(t, evals, warmup.Floor, measure.Floor)
    ensures Parses(t, warmup, measure, |evals|)
  { }

  function EarliestEntry(k: nat, e: Evaluation, measureNs: nat): Entry {
    if FiniteAt(e) then Timed(k, e.values, Window(1, measureNs, 1)) else Dropped(k)
  }

  /** A run whose windows end at the very nanosecond the driver waits for. */
  function Earliest(evals: seq<Evaluation>, warmupNs: nat, measureNs: nat): Trial {
    Trial(1, warmupNs, seq(|evals|, k requires 0 <= k < |evals| => EarliestEntry(k, evals[k], measureNs)))
  }

  // ---------------------------------------------------------------- a clock that just reaches every window

  /** Lap j of the run: the warm-up, then calibration and measurement in turn. */
  function Lap(warmupNs: nat, measureNs: nat, j: nat): nat {
    if j == 0 then warmupNs else if j % 2 == 1 then CALIBRATION else measureNs
  }

  function LapStart(warmupNs: nat, measureNs: nat, j: nat): nat {
    if j == 0 then 0 else LapStart(warmupNs, measureNs, j - 1) + Lap(warmupNs, measureNs, j - 1)
  }

  /** Readings 2j and 2j + 1 are the start and the end of lap j. */
  function Tick(warmupNs: nat, measureNs: nat, i: nat): nat {
    LapStart(warmupNs, measureNs, i / 2) + if i % 2 == 1 then Lap(warmupNs, measureNs, i / 2) else 0
  }

  function Exact(warmupNs: nat, measureNs: nat): nat -> nat {
    (i: nat) => Tick(warmupNs, measureNs, i)
  }

  lemma {:induction false} LapsGrow(warmupNs: nat, measureNs: nat, j: nat)
    requires warmupNs > 0 && measureNs > 0
    ensures LapStart(warmupNs, measureNs, j) >= j
  {
    if j > 0 {
      LapsGrow(warmupNs, measureNs, j - 1);
    }
  }

  lemma {:induction false} TicksGrow(warmupNs: nat, measureNs: nat, i: nat, j: nat)
    requires i <= j
    ensures Tick(warmupNs, measureNs, i) <= Tick(warmupNs, measureNs, j)
    decreases j - i
  {
    if i < j {
      TicksGrow(warmupNs, measureNs, i, j - 1);
      assert (j - 1) / 2 == j / 2 || ((j - 1) / 2 == j / 2 - 1 && (j - 1) % 2 == 1);
    }
  }

  lemma ExactIsAClock(warmupNs: nat, measureNs: nat)
    requires warmupNs > 0 && measureNs > 0
    ensures ClockOk(Exact(warmupNs, measureNs))
  {
    var clock := Exact(warmupNs, measureNs);
    forall i: nat, j: nat | i <= j ensures InOrder(clock, i, j) {
      TicksGrow(warmupNs, measureNs, i, j);
    }
    forall bound: nat ensures Passes(clock, bound) {
      LapsGrow(warmupNs, measureNs, bound);
      assert clock(2 * bound) >= bound;
    }
  }

  lemma LapIsWindow(warmupNs: nat, measureNs: nat, j: nat, at: nat, lap: nat, start: nat, calibrate: bool)
    requires at == 2 * j && lap == Lap(warmupNs, measureNs, j) && (!calibrate || lap >= MILLISECOND)
    ensures IsWindow(Exact(warmupNs, measureNs), at, lap, start, calibrate, Window(start, lap, start), at + 2)
  {
    var clock := Exact(warmupNs, measureNs);
    assert at / 2 == j && (at + 1) / 2 == j;
    assert clock(at + 1) - clock(at) == lap;
    assert Batches(clock, at, start, calibrate, 0) == start;
    assert Batches(clock, at, start, calibrate, 1) == start;
    assert Iterations(clock, at, start, calibrate, 1) == Iterations(clock, at, start, calibrate, 0) + start;
  }

  lemma WarmupIsWindow(warmupNs: nat, measureNs: nat) returns (warm: Window)
    ensures IsWindow(Exact(warmupNs, measureNs), 0, warmupNs, 1, true, warm, 2) && warm.iterations == 1
    ensures warm.elapsed == warmupNs
  {
    var clock := Exact(warmupNs, measureNs);
    assert clock(1) - clock(0) == warmupNs;
    assert Iterations(clock, 0, 1, true, 1) == Iterations(clock, 0, 1, true, 0) + Batches(clock, 0, 1, true, 0);
    warm := Window(1, warmupNs, Batches(clock, 0, 1, true, 1));
  }

  function FiniteBefore(evals: seq<Evaluation>, k: nat): nat
    requires k <= |evals|
  {
    if k == 0 then 0 else FiniteBefore(evals, k - 1) + if FiniteAt(evals[k - 1]) then 1 else 0
  }

  /** On that clock the driver prints windows of exactly the durations it waits for. */
  lemma ExactPrintsEarliest(evals: seq<Evaluation>, warmupNs: nat, measureNs: nat, k: nat)
    requires warmupNs > 0 && measureNs > 0 && k < |evals| && FiniteAt(evals[k])
    ensures Printed(Exact(warmupNs, measureNs), evals, warmupNs, measureNs, Earliest(evals, warmupNs, measureNs))
  {
    var clock, t := Exact(warmupNs, measureNs), Earliest(evals, warmupNs, measureNs);
    var warm := WarmupIsWindow(warmupNs, measureNs);
    var ats := seq(|evals| + 1, i requires 0 <= i <= |evals| => 2 * (1 + 2 * FiniteBefore(evals, i)));
    forall i | 0 <= i < |evals| ensures PointPrinted(clock, evals, ats, t.entries, i, measureNs) {
      assert t.entries[i] == EarliestEntry(i, evals[i], measureNs);
      var j := 1 + 2 * FiniteBefore(evals, i);
      ExactPrintsEntry(evals[i], i, warmupNs, measureNs, j, 2 * j, if FiniteAt(evals[i]) then 2 * j + 4 else 2 * j);
    }
    assert PrintedAt(clock, evals, warmupNs, measureNs, t, warm, ats);
  }

  lemma ExactPrintsEntry(evaluation: Evaluation, k: nat, warmupNs: nat, measureNs: nat, j: nat, at: nat, next: nat)
    requires j % 2 == 1 && at == 2 * j && next == if FiniteAt(evaluation) then at + 4 else at
    ensures EntryPrinted(Exact(warmupNs, measureNs), evaluation, k, at, next,
                         EarliestEntry(k, evaluation, measureNs), measureNs)
  {
    if FiniteAt(evaluation) {
      PointLaps(warmupNs, measureNs, j, at);
      EarliestIsPrinted(Exact(warmupNs, measureNs), evaluation, k, at, at + 2, next, measureNs);
    }
  }

  /** The laps of a point: its calibration, then its measurement. */
  lemma PointLaps(warmupNs: nat, measureNs: nat, j: nat, at: nat)
    requires j % 2 == 1 && at == 2 * j
    ensures var clock := Exact(warmupNs, measureNs);
            && IsWindow(clock, at, CALIBRATION, 1, true, Window(1, CALIBRATION, 1), at + 2)
            && IsWindow(clock, at + 2, measureNs, 1, false, Window(1, measureNs, 1), at + 4)
  {
    LapIsWindow(warmupNs, measureNs, j, at, CALIBRATION, 1, true);
    LapIsWindow(warmupNs, measureNs, j + 1, at + 2, measureNs, 1, false);
  }

  lemma EarliestIsPrinted(clock: nat -> nat, evaluation: Evaluation, k: nat, at: nat, mid: nat, next: nat,
                          measureNs: nat)
    requires FiniteAt(evaluation)
    requires IsWindow(clock, at, CALIBRATION, 1, true, Window(1, CALIBRATION, 1), mid)
    requires IsWindow(clock, mid, measureNs, 1, false, Window(1, measureNs, 1), next)
    ensures EntryPrinted(clock, evaluation, k, at, next, EarliestEntry(k, evaluation, measureNs), measureNs)
  {
    assert Measured(clock, at, Window(1, CALIBRATION, 1), mid, Window(1, measureNs, 1), next, measureNs);
  }

  /** Whatever the driver prints, on any clock, is accepted exactly when the windows are whole nanoseconds and
      every finite point has a density: the driver rounds its windows down, the parser does not. */
  lemma AcceptedIffWhole(evals: seq<Evaluation>, warmup: real, measure: real, k: nat)
    requires 1.0 <= warmup && 1.0 <= measure && k < |evals| && FiniteAt(evals[k])
    ensures (forall clock, t :: ClockOk(clock) && Printed(clock, evals, warmup.Floor, measure.Floor, t) ==>
               Parses(t, warmup, measure, |evals|)) <==>
            warmup.Floor as real == warmup && measure.Floor as real == measure && HasDensity(evals)
  {
    if warmup.Floor as real == warmup && measure.Floor as real == measure && HasDensity(evals) {
      forall clock, t | ClockOk(clock) && Printed(clock, evals, warmup.Floor, measure.Floor, t)
        ensures Parses(t, warmup, measure, |evals|)
      {
        PrintedIsEmitted(clock, evals, warmup.Floor, measure.Floor, t);
        EmittedParses(t, evals, warmup, measure);
      }
    } else {
      ExactIsAClock(warmup.Floor, measure.Floor);
      ExactPrintsEarliest(evals, warmup.Floor, measure.Floor, k);
      EarliestIsRefused(evals, warmup, measure, k);
    }
  }

  lemma EarliestIsRefused(evals: seq<Evaluation>, warmup: real, measure: real, k: nat)
    requires 1.0 <= warmup && 1.0 <= measure && k < |evals| && FiniteAt(evals[k])
    requires !(warmup.Floor as real == warmup && measure.Floor as real == measure && HasDensity(evals))
    ensures !Parses(Earliest(evals, warmup.Floor, measure.Floor), warmup, measure, |evals|)
  {
    var t := Earliest(evals, warmup.Floor, measure.Floor);
    assert t.entries[k] == EarliestEntry(k, evals[k], measure.Floor);
    if !HasDensity(evals) {
      var j :| 0 <= j < |evals| && FiniteAt(evals[j]) && evals[j].values == [];
      assert t.entries[j] == EarliestEntry(j, evals[j], measure.Floor);
    }
  }
}
