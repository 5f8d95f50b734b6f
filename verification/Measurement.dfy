/** From parsed driver output to a published record, and the independent check of that record. */
module Measurement {
  import opened Options
  import opened Reals
  import opened Timer

  const GATE := 0.000000001

  // ---------------------------------------------------------------- the pairing gate

  function ScaledError(x: Num, y: Num): real
    requires x.Fin? && y.Fin?
  {
    Abs(x.value - y.value) / Max(Max(Abs(x.value), Abs(y.value)), 1.0)
  }

  /** The largest scaled error among the first n values. */
  function WorstError(a: seq<Num>, b: seq<Num>, n: nat): (r: real)
    requires n <= |a| && n <= |b| && AllFinite(a) && AllFinite(b)
    ensures r >= 0.0
  {
    if n == 0 then 0.0 else Max(WorstError(a, b, n - 1), ScaledError(a[n - 1], b[n - 1]))
  }

  /** Only the density is compared for models whose reference gradient is no reference. */
  function Compared(width: nat, lpOnly: bool): nat {
    if lpOnly && width > 1 then 1 else width
  }

  datatype Checked = Checked(kept: seq<nat>, dropped: seq<nat>, errors: seq<real>, worst: real, width: nat)

  /** Both engines ran the point, or neither did. */
  predicate SameFate(a: seq<Entry>, b: seq<Entry>, k: nat)
    requires k < |a| && k < |b|
  {
    a[k].Timed? == b[k].Timed?
  }

  ghost predicate WithinGate(x: Entry, y: Entry, lpOnly: bool) {
    x.Timed? && y.Timed? && AllFinite(x.values) && AllFinite(y.values) && |x.values| == |y.values|
    && WorstError(x.values, y.values, Compared(|x.values|, lpOnly)) <= GATE
  }

  function KeptUpTo(a: seq<Entry>, n: nat): (r: seq<nat>)
    requires n <= |a|
    ensures forall i :: 0 <= i < |r| ==> r[i] < n && a[r[i]].Timed?
  {
    if n == 0 then [] else KeptUpTo(a, n - 1) + if a[n - 1].Timed? then [n - 1] else []
  }

  function DroppedUpTo(a: seq<Entry>, n: nat): seq<nat>
    requires n <= |a|
  {
    if n == 0 then [] else DroppedUpTo(a, n - 1) + if a[n - 1].Timed? then [] else [n - 1]
  }

  function MaxOf(errors: seq<real>): real
    requires errors != []
  {
    if |errors| == 1 then errors[0] else Max(MaxOf(errors[..|errors| - 1]), errors[|errors| - 1])
  }

  predicate ErrorsOk(errors: seq<real>) {
    forall i :: 0 <= i < |errors| ==> 0.0 <= errors[i] <= GATE
  }

  ghost predicate PointOk(a: seq<Entry>, b: seq<Entry>, lpOnly: bool, k: nat)
    requires k < |a| && k < |b|
  {
    SameFate(a, b, k) && (a[k].Timed? ==> WithinGate(a[k], b[k], lpOnly))
  }

  /** What parsing guarantees of an entry. */
  ghost predicate EntryFine(e: Entry) {
    e.Timed? ==> e.values != [] && AllFinite(e.values)
  }

  ghost predicate EntriesFine(a: seq<Entry>) {
    forall k :: 0 <= k < |a| ==> a[k].point == k && EntryFine(a[k])
  }

  function PointError(x: Entry, y: Entry, lpOnly: bool): (r: real)
    ensures r >= 0.0
  {
    if x.Timed? && y.Timed? && AllFinite(x.values) && AllFinite(y.values) && |x.values| == |y.values| then
      WorstError(x.values, y.values, Compared(|x.values|, lpOnly))
    else 0.0
  }

  /** The errors at the kept points among the first n. */
  function ErrorsUpTo(a: seq<Entry>, b: seq<Entry>, lpOnly: bool, n: nat): seq<real>
    requires n <= |a| && n <= |b|
  {
    if n == 0 then [] else
      ErrorsUpTo(a, b, lpOnly, n - 1) + if a[n - 1].Timed? then [PointError(a[n - 1], b[n - 1], lpOnly)] else []
  }

  /** The width of the last kept point among the first n. */
  function WidthUpTo(a: seq<Entry>, n: nat): nat
    requires n <= |a|
  {
    if n == 0 then 0 else if a[n - 1].Timed? then |a[n - 1].values| else WidthUpTo(a, n - 1)
  }

  /** The engines keep the same points, at least one, and agree at each. */
  ghost predicate Accepted(a: seq<Entry>, b: seq<Entry>, lpOnly: bool) {
    |a| == |b| && (forall k :: 0 <= k < |a| ==> PointOk(a, b, lpOnly, k)) && KeptUpTo(a, |a|) != []
  }

  lemma {:induction false} ErrorsMatchKept(a: seq<Entry>, b: seq<Entry>, lpOnly: bool, n: nat)
    requires n <= |a| == |b| && forall k :: 0 <= k < n ==> PointOk(a, b, lpOnly, k)
    ensures |ErrorsUpTo(a, b, lpOnly, n)| == |KeptUpTo(a, n)| && ErrorsOk(ErrorsUpTo(a, b, lpOnly, n))
  {
    if n > 0 {
      ErrorsMatchKept(a, b, lpOnly, n - 1);
      assert PointOk(a, b, lpOnly, n - 1);
    }
  }

  function CheckedOf(a: seq<Entry>, b: seq<Entry>, lpOnly: bool): Checked
    requires |a| == |b|
  {
    var errors := ErrorsUpTo(a, b, lpOnly, |a|);
    Checked(KeptUpTo(a, |a|), DroppedUpTo(a, |a|), errors,
            if errors == [] then 0.0 else MaxOf(errors), WidthUpTo(a, |a|))
  }

  /** The gate at one point: the error, and whether both engines ran it. */
  method CheckPoint(x: Entry, y: Entry, lpOnly: bool) returns (r: Result<real>, both: bool)
    requires EntryFine(x) && EntryFine(y)
    ensures r.Ok? <==> x.Timed? == y.Timed? && (x.Timed? ==> WithinGate(x, y, lpOnly))
    ensures r.Ok? ==> both == x.Timed? && r.value == PointError(x, y, lpOnly)
  {
    both := false;
    if x.Dropped? && y.Dropped? {
      return Ok(0.0), false;
    }
    if x.Timed? != y.Timed? {
      return Err("point is non-finite in one engine"), false;
    }
    if |x.values| != |y.values| {
      return Err("density/gradient widths differ"), false;
    }
    var error := WorstError(x.values, y.values, Compared(|x.values|, lpOnly));
    if error > GATE {
      return Err("density/gradient mismatch"), false;
    }
    return Ok(error), true;
  }

  /** Accepts exactly the pairs within the gate and records points, errors and the last width. */
  method CheckPair(a: seq<Entry>, b: seq<Entry>, lpOnly: bool) returns (r: Result<Checked>)
    requires |a| == |b| && EntriesFine(a) && EntriesFine(b)
    ensures r.Ok? <==> Accepted(a, b, lpOnly)
    ensures r.Ok? ==> r.value == CheckedOf(a, b, lpOnly)
  {
    var kept: seq<nat>, dropped: seq<nat>, errors, width: nat := [], [], [], 0;
    for k := 0 to |a|
      invariant kept == KeptUpTo(a, k) && dropped == DroppedUpTo(a, k)
      invariant errors == ErrorsUpTo(a, b, lpOnly, k) && width == WidthUpTo(a, k)
      invariant forall j :: 0 <= j < k ==> PointOk(a, b, lpOnly, j)
    {
      var error, both := CheckPoint(a[k], b[k], lpOnly);
      if error.Err? {
        assert !PointOk(a, b, lpOnly, k);
        return Err(error.message);
      }
      if both {
        kept := kept + [a[k].point];
        errors := errors + [error.value];
        width := |a[k].values|;
      } else {
        dropped := dropped + [a[k].point];
      }
    }
    ErrorsMatchKept(a, b, lpOnly, |a|);
    if kept == [] {
      return Err("no point is finite in both engines");
    }
    return Ok(Checked(kept, dropped, errors, MaxOf(errors), width));
  }

  // ---------------------------------------------------------------- the record

  datatype Engine = Stanli | Cmdstan

  function PairedOrder(round: nat): seq<Engine> {
    if round % 2 == 0 then [Stanli, Cmdstan] else [Cmdstan, Stanli]
  }

  /** Values are dropped from the record once they are checked. */
  function Stripped(e: Entry): Entry {
    if e.Timed? then e.(values := []) else e
  }

  function StripAll(t: Trial): (r: Trial)
    ensures |r.entries| == |t.entries| && r.warmIterations == t.warmIterations && r.warmElapsed == t.warmElapsed
    ensures forall k :: 0 <= k < |t.entries| ==> r.entries[k] == Stripped(t.entries[k])
  {
    t.(entries := seq(|t.entries|, k requires 0 <= k < |t.entries| => Stripped(t.entries[k])))
  }

  datatype Pair = Pair(stanli: Trial, cmdstan: Trial, order: seq<Engine>, checked: Checked)

  /** Nanoseconds per evaluation at a kept point. */
  function Ns(t: Trial, k: nat): real {
    if k < |t.entries| && t.entries[k].Timed? && t.entries[k].window.iterations > 0 then
      t.entries[k].window.elapsed as real / t.entries[k].window.iterations as real
    else 0.0
  }

  function SumNs(t: Trial, kept: seq<nat>): real {
    if kept == [] then 0.0 else SumNs(t, kept[..|kept| - 1]) + Ns(t, kept[|kept| - 1])
  }

  function MeanNs(t: Trial, kept: seq<nat>): real {
    if kept == [] then 0.0 else SumNs(t, kept) / |kept| as real
  }

  /** The published summary: statistics of three series, and the counts. `stats` gives median and MAD. */
  datatype Row = Row(stanli: (real, real), cmdstan: (real, real), speedup: (real, real),
                     rounds: nat, kept: nat, dropped: nat, params: int)

  /** What is kept of a model: the rounds that passed, the summary once all did, and whether nothing failed. */
  datatype Record = Record(pairs: seq<Pair>, row: Option<Row>, ok: bool)

  datatype Settings = Settings(warmup: real, measure: real, points: nat, rounds: nat, lpOnly: bool)

  // ---------------------------------------------------------------- the independent check

  /** A stripped trial, as the record holds it. */
  predicate TrialOk(t: Trial, c: Settings) {
    && t.warmIterations > 0 && t.warmElapsed > 0 && t.warmElapsed as real >= c.warmup && |t.entries| == c.points
    && (forall k :: 0 <= k < c.points ==> StrippedOk(t.entries[k], k, c.measure))
    && exists k :: 0 <= k < c.points && t.entries[k].Timed?
  }

  predicate StrippedOk(e: Entry, k: nat, measure: real) {
    && e.point == k
    && (e.Timed? ==> e.values == [] && e.window.iterations > 0 && e.window.elapsed > 0 && e.window.batch > 0
                     && e.window.elapsed as real >= measure)
  }

  predicate PairOk(p: Pair, index: nat, c: Settings) {
    && p.order == PairedOrder(index) && TrialOk(p.stanli, c) && TrialOk(p.cmdstan, c)
    && (forall k :: 0 <= k < c.points ==> SameFate(p.stanli.entries, p.cmdstan.entries, k))
    && p.checked.kept == KeptUpTo(p.stanli.entries, c.points)
    && p.checked.dropped == DroppedUpTo(p.stanli.entries, c.points)
    && p.checked.kept != [] && |p.checked.errors| == |p.checked.kept| && ErrorsOk(p.checked.errors)
    && p.checked.worst == MaxOf(p.checked.errors) && p.checked.width > 0
  }

  function TrialOf(p: Pair, engine: Engine): Trial {
    if engine == Stanli then p.stanli else p.cmdstan
  }

  /** The mean times of the first n rounds of one engine. */
  function Series(pairs: seq<Pair>, engine: Engine, n: nat): (r: seq<real>)
    requires n <= |pairs|
    ensures |r| == n
  {
    if n == 0 then [] else
      Series(pairs, engine, n - 1) + [MeanNs(TrialOf(pairs[n - 1], engine), pairs[n - 1].checked.kept)]
  }

  function Ratio(c: real, s: real): real {
    if s == 0.0 then 0.0 else c / s
  }

  function Ratios(s: seq<real>, c: seq<real>): (r: seq<real>)
    requires |s| == |c|
    ensures |r| == |s|
  {
    seq(|s|, i requires 0 <= i < |s| => Ratio(c[i], s[i]))
  }

  type Statistics = seq<real> -> (real, real)

  /** Equal up to 1e-12 relative or 1e-15 absolute. */
  predicate IsClose(x: real, y: real) {
    Abs(x - y) <= Max(0.000000000001 * Max(Abs(x), Abs(y)), 0.000000000000001)
  }

  predicate Close(a: (real, real), b: (real, real)) {
    IsClose(a.0, b.0) && IsClose(a.1, b.1)
  }

  /** A good round that keeps the points and has the width of the first one. */
  predicate RoundFine(first: Pair, p: Pair, i: nat, c: Settings) {
    PairOk(p, i, c) && p.checked.width == first.checked.width && p.checked.kept == first.checked.kept
  }

  predicate PairsOk(pairs: seq<Pair>, c: Settings, n: nat)
    requires n <= |pairs|
  {
    forall i :: 0 <= i < n ==> RoundFine(pairs[0], pairs[i], i, c)
  }

  /** The numbers the raw pairs give; dropped points are counted in the given round. */
  function RowOf(pairs: seq<Pair>, stats: Statistics, at: nat): Row
    requires at < |pairs|
  {
    var s, m := Series(pairs, Stanli, |pairs|), Series(pairs, Cmdstan, |pairs|);
    Row(stats(s), stats(m), stats(Ratios(s, m)), |pairs|, |pairs[0].checked.kept|, |pairs[at].checked.dropped|,
        pairs[0].checked.width - 1)
  }

  predicate RowClose(a: Row, b: Row) {
    && Close(a.stanli, b.stanli) && Close(a.cmdstan, b.cmdstan) && Close(a.speedup, b.speedup)
    && a.rounds == b.rounds && a.kept == b.kept && a.dropped == b.dropped && a.params == b.params
  }

  /** A summary needs all rounds, a record without one must not be ok, and every recorded round is good. */
  ghost predicate CatalogOk(r: Record, c: Settings, stats: Statistics) {
    && |r.pairs| <= c.rounds && PairsOk(r.pairs, c, |r.pairs|)
    && match r.row
       case None => !r.ok
       case Some(row) => |r.pairs| == c.rounds > 0 && RowClose(row, RowOf(r.pairs, stats, |r.pairs| - 1))
  }

  method MeanTimes(pairs: seq<Pair>) returns (s: seq<real>, m: seq<real>)
    ensures s == Series(pairs, Stanli, |pairs|) && m == Series(pairs, Cmdstan, |pairs|)
  {
    s, m := [], [];
    for i := 0 to |pairs|
      invariant s == Series(pairs, Stanli, i) && m == Series(pairs, Cmdstan, i)
    {
      s := s + [MeanNs(pairs[i].stanli, pairs[i].checked.kept)];
      m := m + [MeanNs(pairs[i].cmdstan, pairs[i].checked.kept)];
    }
  }

  method CatalogRounds(pairs: seq<Pair>, c: Settings) returns (ok: bool)
    ensures ok <==> PairsOk(pairs, c, |pairs|)
  {
    for i := 0 to |pairs|
      invariant PairsOk(pairs, c, i)
    {
      if !RoundFine(pairs[0], pairs[i], i, c) {
        return false;
      }
    }
    return true;
  }

  /** The independent check: counts, then round by round, then the published numbers. */
  method CatalogPairs(r: Record, c: Settings, stats: Statistics) returns (ok: bool)
    ensures ok <==> CatalogOk(r, c, stats)
  {
    if |r.pairs| > c.rounds || (r.row.Some? && (|r.pairs| != c.rounds || c.rounds == 0)) || (r.row.None? && r.ok) {
      return false;
    }
    ok := CatalogRounds(r.pairs, c);
    if ok && r.row.Some? {
      var row := Summarize(r.pairs, stats, |r.pairs| - 1);
      ok := RowClose(r.row.value, row);
    }
  }

  method Summarize(pairs: seq<Pair>, stats: Statistics, at: nat) returns (row: Row)
    requires at < |pairs|
    ensures row == RowOf(pairs, stats, at)
  {
    var s, m := MeanTimes(pairs);
    row := Row(stats(s), stats(m), stats(Ratios(s, m)), |pairs|, |pairs[0].checked.kept|, |pairs[at].checked.dropped|,
               pairs[0].checked.width - 1);
  }

  // ---------------------------------------------------------------- measuring a model

  /** The parsed output of both engines in one round, or None when a command or the parser failed. */
  type Round = Option<(Trial, Trial)>

  ghost predicate RoundParses(t: Round, c: Settings) {
    t.Some? ==> Parses(t.value.0, c.warmup, c.measure, c.points) && Parses(t.value.1, c.warmup, c.measure, c.points)
  }

  ghost predicate RoundPasses(t: Round, c: Settings) {
    t.Some? && Accepted(t.value.0.entries, t.value.1.entries, c.lpOnly)
  }

  /** The first round from i on that does not pass. */
  ghost function Leading(rounds: seq<Round>, c: Settings, i: nat): (r: nat)
    requires i <= |rounds|
    ensures i <= r <= |rounds| && (forall j :: i <= j < r ==> RoundPasses(rounds[j], c))
    decreases |rounds| - i
  {
    if i < |rounds| && RoundPasses(rounds[i], c) then Leading(rounds, c, i + 1) else i
  }

  function PairOf(t: (Trial, Trial), round: nat, c: Settings): Pair
    requires |t.0.entries| == |t.1.entries|
  {
    Pair(StripAll(t.0), StripAll(t.1), PairedOrder(round), CheckedOf(t.0.entries, t.1.entries, c.lpOnly))
  }

  ghost function PairsOf(rounds: seq<Round>, c: Settings, n: nat): (r: seq<Pair>)
    requires n <= |rounds| && forall i :: 0 <= i < n ==> RoundPasses(rounds[i], c)
    ensures |r| == n && forall i | 0 <= i < n :: RoundPasses(rounds[i], c) && r[i] == PairOf(rounds[i].value, i, c)
  {
    seq(n, i requires 0 <= i < n => assert RoundPasses(rounds[i], c); PairOf(rounds[i].value, i, c))
  }

  predicate KeptAgree(pairs: seq<Pair>) {
    forall i :: 0 <= i < |pairs| ==> pairs[i].checked.kept == pairs[0].checked.kept
  }

  predicate WidthsAgree(pairs: seq<Pair>) {
    forall i :: 0 <= i < |pairs| ==> pairs[i].checked.width == pairs[0].checked.width
  }

  /** The record of a model: rounds up to the first failure, and a summary if all pass and keep the same
      points. `later` says whether everything after the rounds went well. */
  ghost function RecordOf(rounds: seq<Round>, c: Settings, stats: Statistics, later: bool): Record {
    var n := Leading(rounds, c, 0);
    var pairs := PairsOf(rounds, c, n);
    if n < |rounds| || n == 0 || !KeptAgree(pairs) then Record(pairs, None, false)
    else Record(pairs, Some(RowOf(pairs, stats, 0)), later)
  }

  method SameKept(pairs: seq<Pair>) returns (same: bool)
    ensures same <==> KeptAgree(pairs)
  {
    for i := 0 to |pairs|
      invariant forall j :: 0 <= j < i ==> pairs[j].checked.kept == pairs[0].checked.kept
    {
      if pairs[i].checked.kept != pairs[0].checked.kept {
        return false;
      }
    }
    return true;
  }

  lemma ParsedIsFine(t: Trial, c: Settings)
    requires Parses(t, c.warmup, c.measure, c.points)
    ensures EntriesFine(t.entries) && |t.entries| == c.points
  {
    forall k | 0 <= k < |t.entries| ensures t.entries[k].point == k && EntryFine(t.entries[k]) {
      assert EntryParses(t.entries[k], k, c.measure);
    }
  }

  /** The rounds that pass before the first failure. */
  method MeasureRounds(rounds: seq<Round>, c: Settings) returns (pairs: seq<Pair>)
    requires forall i :: 0 <= i < |rounds| ==> RoundParses(rounds[i], c)
    ensures |pairs| == Leading(rounds, c, 0) && pairs == PairsOf(rounds, c, |pairs|)
  {
    pairs := [];
    for i := 0 to |rounds|
      invariant Leading(rounds, c, 0) == Leading(rounds, c, i) && |pairs| == i
      invariant forall j :: 0 <= j < i ==> RoundPasses(rounds[j], c) && pairs[j] == PairOf(rounds[j].value, j, c)
    {
      var pair := MeasureRound(rounds[i], i, c);
      if pair.None? {
        return;
      }
      pairs := pairs + [pair.value];
    }
  }

  method MeasureRound(t: Round, i: nat, c: Settings) returns (pair: Option<Pair>)
    requires RoundParses(t, c)
    ensures pair.Some? <==> RoundPasses(t, c)
    ensures pair.Some? ==> pair.value == PairOf(t.value, i, c)
  {
    if t.None? {
      return None;
    }
    var a, b := t.value.0, t.value.1;
    ParsedIsFine(a, c);
    ParsedIsFine(b, c);
    var checked := CheckPair(a.entries, b.entries, c.lpOnly);
    if checked.Err? {
      return None;
    }
    return Some(Pair(StripAll(a), StripAll(b), PairedOrder(i), checked.value));
  }

  /** Runs the rounds and builds the record, whatever fails on the way. */
  method MeasureModel(rounds: seq<Round>, c: Settings, stats: Statistics, later: bool) returns (r: Record)
    requires forall i :: 0 <= i < |rounds| ==> RoundParses(rounds[i], c)
    ensures r == RecordOf(rounds, c, stats, later)
  {
    var pairs := MeasureRounds(rounds, c);
    var same := SameKept(pairs);
    if |pairs| < |rounds| || pairs == [] || !same {
      return Record(pairs, None, false);
    }
    var row := Summarize(pairs, stats, 0);
    return Record(pairs, Some(row), later);
  }

  // ---------------------------------------------------------------- recorder and check agree

  lemma {:induction false} StripKeepsPoints(t: Trial, n: nat)
    requires n <= |t.entries|
    ensures KeptUpTo(StripAll(t).entries, n) == KeptUpTo(t.entries, n)
    ensures DroppedUpTo(StripAll(t).entries, n) == DroppedUpTo(t.entries, n)
  {
    if n > 0 {
      StripKeepsPoints(t, n - 1);
    }
  }

  lemma StrippedTrialOk(t: Trial, c: Settings)
    requires Parses(t, c.warmup, c.measure, c.points)
    ensures TrialOk(StripAll(t), c)
  {
    var k :| 0 <= k < c.points && t.entries[k].Timed?;
    assert StripAll(t).entries[k].Timed?;
    forall j | 0 <= j < c.points ensures StrippedOk(StripAll(t).entries[j], j, c.measure) {
      assert EntryParses(t.entries[j], j, c.measure);
    }
  }

  lemma {:induction false} WidthIsPositive(a: seq<Entry>, n: nat)
    requires n <= |a| && EntriesFine(a) && KeptUpTo(a, n) != []
    ensures WidthUpTo(a, n) > 0
  {
    if !a[n - 1].Timed? {
      WidthIsPositive(a, n - 1);
    }
  }

  lemma AcceptedPairIsOk(t: (Trial, Trial), round: nat, c: Settings)
    requires RoundParses(Some(t), c) && RoundPasses(Some(t), c)
    ensures PairOk(PairOf(t, round, c), round, c)
  {
    StripKeepsPoints(t.0, c.points);
    StrippedTrialOk(t.0, c);
    StrippedTrialOk(t.1, c);
    ParsedIsFine(t.0, c);
    WidthIsPositive(t.0.entries, c.points);
    ErrorsMatchKept(t.0.entries, t.1.entries, c.lpOnly, c.points);
    var p := PairOf(t, round, c);
    forall k | 0 <= k < c.points ensures SameFate(p.stanli.entries, p.cmdstan.entries, k) {
      assert PointOk(t.0.entries, t.1.entries, c.lpOnly, k);
    }
  }

  /** Equal kept points leave equally many dropped ones. */
  lemma {:induction false} KeptAndDropped(a: seq<Entry>, n: nat)
    requires n <= |a|
    ensures |KeptUpTo(a, n)| + |DroppedUpTo(a, n)| == n
  {
    if n > 0 {
      KeptAndDropped(a, n - 1);
    }
  }

  /** Dropped points are counted in the first round by the recorder and in the last round by the check. */
  lemma SameDropped(p: Pair, q: Pair, i: nat, j: nat, c: Settings)
    requires PairOk(p, i, c) && PairOk(q, j, c) && p.checked.kept == q.checked.kept
    ensures |p.checked.dropped| == |q.checked.dropped|
  {
    KeptAndDropped(p.stanli.entries, c.points);
    KeptAndDropped(q.stanli.entries, c.points);
  }

  lemma RoundsAreGood(rounds: seq<Round>, c: Settings, n: nat)
    requires n <= |rounds| && forall i :: 0 <= i < |rounds| ==> RoundParses(rounds[i], c)
    requires forall i :: 0 <= i < n ==> RoundPasses(rounds[i], c)
    ensures forall i :: 0 <= i < n ==> PairOk(PairsOf(rounds, c, n)[i], i, c)
  {
    var pairs := PairsOf(rounds, c, n);
    forall i | 0 <= i < n ensures PairOk(pairs[i], i, c) {
      assert RoundParses(rounds[i], c) && RoundPasses(rounds[i], c);
      AcceptedPairIsOk(rounds[i].value, i, c);
    }
  }

  lemma GoodRoundsPass(pairs: seq<Pair>, c: Settings)
    requires forall i :: 0 <= i < |pairs| ==> PairOk(pairs[i], i, c)
    ensures PairsOk(pairs, c, |pairs|) <==> KeptAgree(pairs) && WidthsAgree(pairs)
  {
    if PairsOk(pairs, c, |pairs|) {
      assert forall i :: 0 <= i < |pairs| ==> RoundFine(pairs[0], pairs[i], i, c);
    }
  }

  lemma FailurePasses(pairs: seq<Pair>, c: Settings, stats: Statistics)
    requires |pairs| <= c.rounds && forall i :: 0 <= i < |pairs| ==> PairOk(pairs[i], i, c)
    ensures CatalogOk(Record(pairs, None, false), c, stats) <==> KeptAgree(pairs) && WidthsAgree(pairs)
  {
    GoodRoundsPass(pairs, c);
  }

  lemma SummaryPasses(pairs: seq<Pair>, c: Settings, stats: Statistics, later: bool)
    requires |pairs| == c.rounds > 0 && KeptAgree(pairs) && forall i :: 0 <= i < |pairs| ==> PairOk(pairs[i], i, c)
    ensures CatalogOk(Record(pairs, Some(RowOf(pairs, stats, 0)), later), c, stats) <==> WidthsAgree(pairs)
  {
    var last := |pairs| - 1;
    assert PairOk(pairs[0], 0, c) && PairOk(pairs[last], last, c);
    SameDropped(pairs[0], pairs[last], 0, last, c);
    assert RowOf(pairs, stats, 0) == RowOf(pairs, stats, last);
    GoodRoundsPass(pairs, c);
  }

  /** A record, ok or failed, passes the check exactly when its rounds keep the same points and have the
      same width. */
  lemma RecordPassesIff(rounds: seq<Round>, c: Settings, stats: Statistics, later: bool)
    requires |rounds| == c.rounds > 0 && forall i :: 0 <= i < |rounds| ==> RoundParses(rounds[i], c)
    ensures var r := RecordOf(rounds, c, stats, later);
            CatalogOk(r, c, stats) <==> KeptAgree(r.pairs) && WidthsAgree(r.pairs)
  {
    var n := Leading(rounds, c, 0);
    var pairs := PairsOf(rounds, c, n);
    RoundsAreGood(rounds, c, n);
    if n < |rounds| || !KeptAgree(pairs) {
      FailurePasses(pairs, c, stats);
    } else {
      SummaryPasses(pairs, c, stats, later);
    }
  }

  /** Of the records that end ok, exactly those with one width throughout pass: the recorder compares only
      the kept points between rounds. */
  lemma OkRecordPassesIff(rounds: seq<Round>, c: Settings, stats: Statistics, later: bool)
    requires |rounds| == c.rounds > 0 && forall i :: 0 <= i < |rounds| ==> RoundParses(rounds[i], c)
    requires RecordOf(rounds, c, stats, later).ok
    ensures var r := RecordOf(rounds, c, stats, later);
            |r.pairs| == c.rounds && (CatalogOk(r, c, stats) <==> WidthsAgree(r.pairs))
  {
    RecordPassesIff(rounds, c, stats, later);
  }

  ghost predicate HasWidth(a: seq<Entry>, width: nat) {
    forall k :: 0 <= k < |a| && a[k].Timed? ==> |a[k].values| == width
  }

  lemma {:induction false} OneWidth(a: seq<Entry>, n: nat, width: nat)
    requires n <= |a| && KeptUpTo(a, n) != [] && HasWidth(a, width)
    ensures WidthUpTo(a, n) == width
  {
    if !a[n - 1].Timed? {
      OneWidth(a, n - 1, width);
    }
  }

  /** Drivers that print one width at every point of every round give records that pass. */
  lemma OneWidthPasses(rounds: seq<Round>, c: Settings, stats: Statistics, later: bool, width: nat)
    requires |rounds| == c.rounds > 0 && forall i :: 0 <= i < |rounds| ==> RoundParses(rounds[i], c)
    requires RecordOf(rounds, c, stats, later).ok
    requires forall i | 0 <= i < |rounds| && rounds[i].Some? :: HasWidth(rounds[i].value.0.entries, width)
    ensures CatalogOk(RecordOf(rounds, c, stats, later), c, stats)
  {
    var r := RecordOf(rounds, c, stats, later);
    OkRecordPassesIff(rounds, c, stats, later);
    forall i | 0 <= i < |r.pairs| ensures r.pairs[i].checked.width == width {
      assert RoundPasses(rounds[i], c);
      var a := rounds[i].value.0.entries;
      OneWidth(a, |a|, width);
    }
  }

  // ---------------------------------------------------------------- where they disagree

  function SmallTrial(values: seq<Num>): Trial {
    Trial(1, 1, [Timed(0, values, Window(1, 1, 1)), Dropped(1)])
  }

  /** Two rounds of different width pass every gate of the recorder; the check refuses the ok record. */
  lemma WidthsCanDiffer(stats: Statistics)
    ensures var c := Settings(1.0, 1.0, 2, 2, false);
            var one, two := SmallTrial([Fin(0.0)]), SmallTrial([Fin(0.0), Fin(0.0)]);
            var rounds := [Some((one, one)), Some((two, two))];
            && (forall i :: 0 <= i < 2 ==> RoundParses(rounds[i], c))
            && RecordOf(rounds, c, stats, true).ok && !CatalogOk(RecordOf(rounds, c, stats, true), c, stats)
  {
    var c := Settings(1.0, 1.0, 2, 2, false);
    var one, two := SmallTrial([Fin(0.0)]), SmallTrial([Fin(0.0), Fin(0.0)]);
    SmallTrialPasses([Fin(0.0)], c);
    SmallTrialPasses([Fin(0.0), Fin(0.0)], c);
    TwoRounds((one, one), (two, two), c, stats);
  }

  /** Two passing rounds that keep the same points give an ok record, and it passes iff the widths agree. */
  lemma TwoRounds(x: (Trial, Trial), y: (Trial, Trial), c: Settings, stats: Statistics)
    requires c.rounds == 2 && RoundParses(Some(x), c) && RoundParses(Some(y), c)
    requires RoundPasses(Some(x), c) && RoundPasses(Some(y), c)
    requires KeptUpTo(x.0.entries, |x.0.entries|) == KeptUpTo(y.0.entries, |y.0.entries|)
    ensures var rounds := [Some(x), Some(y)];
            var r := RecordOf(rounds, c, stats, true);
            && (forall i :: 0 <= i < 2 ==> RoundParses(rounds[i], c)) && r.ok
            && (CatalogOk(r, c, stats) <==>
                WidthUpTo(x.0.entries, |x.0.entries|) == WidthUpTo(y.0.entries, |y.0.entries|))
  {
    var rounds: seq<Round> := [Some(x), Some(y)];
    TwoRoundsAreRecorded(x, y, c, stats);
    RecordPassesIff(rounds, c, stats, true);
    TwoWidths(x, y, c);
  }

  lemma TwoWidths(x: (Trial, Trial), y: (Trial, Trial), c: Settings)
    requires |x.0.entries| == |x.1.entries| && |y.0.entries| == |y.1.entries|
    ensures WidthsAgree([PairOf(x, 0, c), PairOf(y, 1, c)]) <==>
            WidthUpTo(x.0.entries, |x.0.entries|) == WidthUpTo(y.0.entries, |y.0.entries|)
  {
    var pairs := [PairOf(x, 0, c), PairOf(y, 1, c)];
    assert WidthsAgree(pairs) <==> pairs[0].checked.width == pairs[1].checked.width;
  }

  lemma TwoRoundsAreRecorded(x: (Trial, Trial), y: (Trial, Trial), c: Settings, stats: Statistics)
    requires RoundPasses(Some(x), c) && RoundPasses(Some(y), c)
    requires KeptUpTo(x.0.entries, |x.0.entries|) == KeptUpTo(y.0.entries, |y.0.entries|)
    ensures var r := RecordOf([Some(x), Some(y)], c, stats, true);
            r.ok && r.pairs == [PairOf(x, 0, c), PairOf(y, 1, c)] && KeptAgree(r.pairs)
  {
    var rounds: seq<Round> := [Some(x), Some(y)];
    assert Leading(rounds, c, 2) == 2 && Leading(rounds, c, 1) == 2 && Leading(rounds, c, 0) == 2;
    assert PairsOf(rounds, c, 2) == [PairOf(x, 0, c), PairOf(y, 1, c)];
  }

  lemma SmallTrialPasses(values: seq<Num>, c: Settings)
    requires c == Settings(1.0, 1.0, 2, 2, false) && values in {[Fin(0.0)], [Fin(0.0), Fin(0.0)]}
    ensures var t := SmallTrial(values);
            && RoundParses(Some((t, t)), c) && RoundPasses(Some((t, t)), c)
            && KeptUpTo(t.entries, 2) == [0] && WidthUpTo(t.entries, 2) == |values|
  {
    var a := SmallTrial(values).entries;
    assert a[0].Timed? && a[1].Dropped?;
    assert KeptUpTo(a, 1) == KeptUpTo(a, 0) + [0] && KeptUpTo(a, 2) == KeptUpTo(a, 1) + [];
    assert WorstError(values, values, 0) == 0.0 && WorstError(values, values, 1) == 0.0;
    assert |values| == 2 ==> WorstError(values, values, 2) == 0.0;
    assert forall k :: 0 <= k < 2 ==> PointOk(a, a, false, k);
  }
}
