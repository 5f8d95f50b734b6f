/** What the gate and the published numbers mean, in terms of the values and windows the drivers printed. */
module MeasurementMeaning {
  import opened Options
  import opened Reals
  import opened Timer
  import opened Measurement

  // ---------------------------------------------------------------- the gate

  ghost predicate AllNear(a: seq<Num>, b: seq<Num>, n: nat, fraction: real)
    requires n <= |a| && n <= |b| && AllFinite(a) && AllFinite(b)
  {
    forall j :: 0 <= j < n ==> Near(a[j].value, b[j].value, fraction)
  }

  lemma ScaledIsNear(x: Num, y: Num, g: real)
    requires x.Fin? && y.Fin? && g >= 0.0
    ensures ScaledError(x, y) <= g <==> Near(x.value, y.value, g)
  {
    var d, m := Abs(x.value - y.value), Max(Max(Abs(x.value), Abs(y.value)), 1.0);
    Products(d, m, g);
    NearIff(x.value, y.value, d, m, g);
  }

  /** The worst error is the least fraction that all values are within. */
  lemma {:induction false} WorstIsLeast(a: seq<Num>, b: seq<Num>, n: nat, g: real)
    requires n <= |a| && n <= |b| && AllFinite(a) && AllFinite(b) && g >= 0.0
    ensures WorstError(a, b, n) <= g <==> AllNear(a, b, n, g)
  {
    if n > 0 {
      WorstIsLeast(a, b, n - 1, g);
      ScaledIsNear(a[n - 1], b[n - 1], g);
    }
  }

  /** One engine's values against the other's at a point that both ran. */
  ghost predicate Agree(x: Entry, y: Entry, lpOnly: bool, g: real) {
    && x.Timed? && y.Timed? && |x.values| == |y.values| && AllFinite(x.values) && AllFinite(y.values)
    && forall j :: 0 <= j < |x.values| && (lpOnly ==> j == 0) ==> Near(x.values[j].value, y.values[j].value, g)
  }

  lemma AgreeIs(x: Entry, y: Entry, lpOnly: bool, g: real)
    requires x.Timed? && y.Timed? && |x.values| == |y.values| && AllFinite(x.values) && AllFinite(y.values) && g >= 0.0
    ensures PointError(x, y, lpOnly) <= g <==> Agree(x, y, lpOnly, g)
  {
    WorstIsLeast(x.values, y.values, Compared(|x.values|, lpOnly), g);
  }

  lemma {:induction false} KeptIs(a: seq<Entry>, n: nat)
    requires n <= |a|
    ensures forall k :: k in KeptUpTo(a, n) <==> 0 <= k < n && a[k].Timed?
    ensures Ascending(KeptUpTo(a, n))
  {
    if n > 0 {
      KeptIs(a, n - 1);
      OneMore(KeptUpTo(a, n - 1), n - 1);
    }
  }

  lemma {:induction false} DroppedIs(a: seq<Entry>, n: nat)
    requires n <= |a|
    ensures forall k :: k in DroppedUpTo(a, n) <==> 0 <= k < n && a[k].Dropped?
    ensures Ascending(DroppedUpTo(a, n))
  {
    if n > 0 {
      DroppedIs(a, n - 1);
      OneMore(DroppedUpTo(a, n - 1), n - 1);
    }
  }

  lemma OneMore(points: seq<nat>, n: nat)
    requires Ascending(points) && forall k :: k in points ==> k < n
    ensures Ascending(points + [n]) && points + [] == points
    ensures forall k :: k in points + [n] <==> k in points || k == n
  {
    forall i, j | 0 <= i < j < |points| + 1 ensures (points + [n])[i] < (points + [n])[j] {
      assert points[i] in points;
    }
  }

  predicate Ascending(points: seq<nat>) {
    forall i, j :: 0 <= i < j < |points| ==> points[i] < points[j]
  }

  lemma PointAgrees(x: Entry, y: Entry, lpOnly: bool)
    ensures WithinGate(x, y, lpOnly) <==> Agree(x, y, lpOnly, 0.000000001)
  {
    if x.Timed? && y.Timed? && |x.values| == |y.values| && AllFinite(x.values) && AllFinite(y.values) {
      AgreeIs(x, y, lpOnly, GATE);
    }
  }

  /** A pair is accepted exactly when each point was run by both engines or by neither, some point was, and
      all values compared are within 1e-9. */
  lemma AcceptedIffNear(a: seq<Entry>, b: seq<Entry>, lpOnly: bool)
    ensures Accepted(a, b, lpOnly) <==>
            && |a| == |b| && (exists k :: 0 <= k < |a| && a[k].Timed?)
            && forall k :: 0 <= k < |a| ==>
                 (a[k].Dropped? && b[k].Dropped?) || Agree(a[k], b[k], lpOnly, 0.000000001)
  {
    if |a| == |b| {
      forall k | 0 <= k < |a|
        ensures PointOk(a, b, lpOnly, k) <==>
                (a[k].Dropped? && b[k].Dropped?) || Agree(a[k], b[k], lpOnly, 0.000000001)
      {
        PointAgrees(a[k], b[k], lpOnly);
      }
      KeptIs(a, |a|);
      assert KeptUpTo(a, |a|) != [] ==> KeptUpTo(a, |a|)[0] in KeptUpTo(a, |a|);
    }
  }

  lemma {:induction false} ErrorAt(a: seq<Entry>, b: seq<Entry>, lpOnly: bool, n: nat, i: nat)
    requires n <= |a| && n <= |b| && i < |KeptUpTo(a, n)| == |ErrorsUpTo(a, b, lpOnly, n)|
    ensures ErrorsUpTo(a, b, lpOnly, n)[i] == PointError(a[KeptUpTo(a, n)[i]], b[KeptUpTo(a, n)[i]], lpOnly)
  {
    SameLength(a, b, lpOnly, n - 1);
    if i < |KeptUpTo(a, n - 1)| {
      ErrorAt(a, b, lpOnly, n - 1, i);
    }
  }

  lemma {:induction false} SameLength(a: seq<Entry>, b: seq<Entry>, lpOnly: bool, n: nat)
    requires n <= |a| && n <= |b|
    ensures |KeptUpTo(a, n)| == |ErrorsUpTo(a, b, lpOnly, n)|
  {
    if n > 0 {
      SameLength(a, b, lpOnly, n - 1);
    }
  }

  lemma {:induction false} MaxIs(errors: seq<real>)
    requires errors != []
    ensures MaxOf(errors) in errors && forall i :: 0 <= i < |errors| ==> errors[i] <= MaxOf(errors)
  {
    if |errors| > 1 {
      MaxIs(errors[..|errors| - 1]);
    }
  }

  /** What the gate records of an accepted pair: the points in order, at each the least fraction that the
      values are within, and the worst of them. */
  lemma RecordedErrors(a: seq<Entry>, b: seq<Entry>, lpOnly: bool, i: nat, g: real)
    requires Accepted(a, b, lpOnly) && i < |CheckedOf(a, b, lpOnly).kept| && g >= 0.0
    ensures var r := CheckedOf(a, b, lpOnly);
            && Ascending(r.kept) && (forall k :: k in r.kept <==> 0 <= k < |a| && a[k].Timed?)
            && Ascending(r.dropped) && (forall k :: k in r.dropped <==> 0 <= k < |a| && a[k].Dropped?)
            && |r.errors| == |r.kept| && r.kept[i] < |a| == |b| && 0.0 <= r.errors[i] <= r.worst && r.worst in r.errors
            && (r.errors[i] <= g <==> Agree(a[r.kept[i]], b[r.kept[i]], lpOnly, g))
  {
    var r := CheckedOf(a, b, lpOnly);
    KeptIs(a, |a|);
    DroppedIs(a, |a|);
    SameLength(a, b, lpOnly, |a|);
    ErrorAt(a, b, lpOnly, |a|, i);
    MaxIs(r.errors);
    assert PointOk(a, b, lpOnly, r.kept[i]);
    AgreeIs(a[r.kept[i]], b[r.kept[i]], lpOnly, g);
  }

  // ---------------------------------------------------------------- times

  /** The point's window took this long per evaluation. */
  predicate Takes(t: Trial, k: nat, ns: real) {
    && k < |t.entries| && t.entries[k].Timed?
    && ns * t.entries[k].window.iterations as real == t.entries[k].window.elapsed as real
  }

  /** Partial sums of the times per evaluation at these points. */
  ghost predicate Adds(t: Trial, points: seq<nat>, sums: seq<real>) {
    && |sums| == |points| + 1 && sums[0] == 0.0
    && forall j :: 0 <= j < |points| ==> Takes(t, points[j], sums[j + 1] - sums[j])
  }

  ghost predicate IsMean(t: Trial, points: seq<nat>, mean: real) {
    exists sums :: Adds(t, points, sums) && mean * |points| as real == sums[|points|]
  }

  predicate Measured(t: Trial, points: seq<nat>) {
    forall j :: 0 <= j < |points| ==>
      points[j] < |t.entries| && t.entries[points[j]].Timed? && t.entries[points[j]].window.iterations > 0
      && t.entries[points[j]].window.elapsed > 0
  }

  lemma TakesNs(t: Trial, k: nat)
    requires Measured(t, [k])
    ensures Takes(t, k, Ns(t, k)) && Ns(t, k) > 0.0
  {
    assert [k][0] == k;
    var w := t.entries[k].window;
    Quotient(w.elapsed as real, w.iterations as real);
  }

  lemma Quotient(x: real, y: real)
    requires x > 0.0 && y > 0.0
    ensures x / y > 0.0 && x / y * y == x
  {
    Signs(x / y, y);
  }

  lemma {:induction false} SumAdds(t: Trial, points: seq<nat>) returns (sums: seq<real>)
    requires Measured(t, points)
    ensures Adds(t, points, sums) && sums[|points|] == SumNs(t, points) >= 0.0
    ensures points != [] ==> SumNs(t, points) > 0.0
  {
    if points == [] {
      sums := [0.0];
    } else {
      var n := |points| - 1;
      var before := SumAdds(t, points[..n]);
      assert [points[n]][0] == points[n];
      TakesNs(t, points[n]);
      sums := before + [SumNs(t, points)];
      forall j | 0 <= j < |points| ensures Takes(t, points[j], sums[j + 1] - sums[j]) {
        if j < n {
          assert Takes(t, points[..n][j], before[j + 1] - before[j]);
        }
      }
    }
  }

  lemma MeanIsMean(t: Trial, points: seq<nat>)
    requires Measured(t, points) && points != []
    ensures IsMean(t, points, MeanNs(t, points)) && MeanNs(t, points) > 0.0
  {
    var sums := SumAdds(t, points);
    Quotient(SumNs(t, points), |points| as real);
  }

  lemma OneTime(t: Trial, k: nat, x: real, y: real)
    requires Measured(t, [k]) && Takes(t, k, x) && Takes(t, k, y)
    ensures x == y
  {
    assert [k][0] == k;
    Cancel(x, y, t.entries[k].window.iterations as real, t.entries[k].window.elapsed as real);
  }

  lemma Cancel(x: real, y: real, n: real, total: real)
    requires n > 0.0 && x * n == total && y * n == total
    ensures x == y
  {
    Signs(x - y, n);
  }

  /** Points that all take x have these partial sums. */
  lemma {:induction false} SteadySums(t: Trial, points: seq<nat>, sums: seq<real>, x: real, n: nat)
    requires Measured(t, points) && Adds(t, points, sums) && n <= |points|
    requires forall j :: 0 <= j < |points| ==> Takes(t, points[j], x)
    ensures sums[n] == x * n as real
  {
    if n > 0 {
      SteadySums(t, points, sums, x, n - 1);
      assert Takes(t, points[n - 1], sums[n - 1 + 1] - sums[n - 1]);
      assert [points[n - 1]][0] == points[n - 1];
      OneTime(t, points[n - 1], x, sums[n] - sums[n - 1]);
    }
  }

  /** Points that all take x ns have mean x. */
  lemma SteadyMean(t: Trial, points: seq<nat>, x: real, mean: real)
    requires Measured(t, points) && points != [] && IsMean(t, points, mean)
    requires forall j :: 0 <= j < |points| ==> Takes(t, points[j], x)
    ensures mean == x
  {
    var sums :| Adds(t, points, sums) && mean * |points| as real == sums[|points|];
    SteadySums(t, points, sums, x, |points|);
    Cancel(mean, x, |points| as real, sums[|points|]);
  }

  lemma {:induction false} SameSums(t: Trial, points: seq<nat>, a: seq<real>, b: seq<real>, n: nat)
    requires Measured(t, points) && Adds(t, points, a) && Adds(t, points, b) && n <= |points|
    ensures a[n] == b[n]
  {
    if n > 0 {
      SameSums(t, points, a, b, n - 1);
      assert Takes(t, points[n - 1], a[n - 1 + 1] - a[n - 1]) && Takes(t, points[n - 1], b[n - 1 + 1] - b[n - 1]);
      assert [points[n - 1]][0] == points[n - 1];
      OneTime(t, points[n - 1], a[n] - a[n - 1], b[n] - b[n - 1]);
    }
  }

  lemma MeanIsUnique(t: Trial, points: seq<nat>, x: real, y: real)
    requires Measured(t, points) && points != [] && IsMean(t, points, x) && IsMean(t, points, y)
    ensures x == y
  {
    var a :| Adds(t, points, a) && x * |points| as real == a[|points|];
    var b :| Adds(t, points, b) && y * |points| as real == b[|points|];
    SameSums(t, points, a, b, |points|);
    Cancel(x, y, |points| as real, a[|points|]);
  }

  // ---------------------------------------------------------------- the published numbers

  /** Round by round: both means over the kept points, and how often stanli's fits into CmdStan's. */
  ghost predicate RoundTimes(p: Pair, s: real, m: real, speedup: real) {
    && IsMean(p.stanli, p.checked.kept, s) && IsMean(p.cmdstan, p.checked.kept, m) && s > 0.0 && IsTimes(m, speedup, s)
  }

  predicate IsTimes(y: real, k: real, x: real) {
    y == k * x
  }

  ghost predicate AllTimes(pairs: seq<Pair>, s: seq<real>, m: seq<real>, speedups: seq<real>) {
    && |s| == |m| == |speedups| == |pairs|
    && forall i :: 0 <= i < |pairs| ==> RoundTimes(pairs[i], s[i], m[i], speedups[i])
  }

  /** The row publishes the statistics of the three series and the counts. */
  ghost predicate Publishes(pairs: seq<Pair>, stats: Statistics, at: nat, row: Row, s: seq<real>, m: seq<real>,
                            speedups: seq<real>)
    requires at < |pairs|
  {
    && AllTimes(pairs, s, m, speedups)
    && row.stanli == stats(s) && row.cmdstan == stats(m) && row.speedup == stats(speedups)
    && row.rounds == |pairs| && row.kept == |pairs[0].checked.kept| && row.dropped == |pairs[at].checked.dropped|
    && row.params + 1 == pairs[0].checked.width
  }

  ghost predicate Published(pairs: seq<Pair>, stats: Statistics, at: nat, row: Row)
    requires at < |pairs|
  {
    exists s, m, speedups :: Publishes(pairs, stats, at, row, s, m, speedups)
  }

  /** Every round has measured kept points in both engines. */
  ghost predicate Sane(p: Pair) {
    p.checked.kept != [] && Measured(p.stanli, p.checked.kept) && Measured(p.cmdstan, p.checked.kept)
  }

  lemma {:induction false} SeriesAt(pairs: seq<Pair>, engine: Engine, n: nat, i: nat)
    requires i < n <= |pairs|
    ensures Series(pairs, engine, n)[i] == MeanNs(TrialOf(pairs[i], engine), pairs[i].checked.kept)
  {
    if i < n - 1 {
      SeriesAt(pairs, engine, n - 1, i);
    }
  }

  lemma RowPublishes(pairs: seq<Pair>, stats: Statistics, at: nat)
    requires at < |pairs| && forall i :: 0 <= i < |pairs| ==> Sane(pairs[i])
    ensures Published(pairs, stats, at, RowOf(pairs, stats, at))
  {
    var s, m := Series(pairs, Stanli, |pairs|), Series(pairs, Cmdstan, |pairs|);
    var speedups := Ratios(s, m);
    forall i | 0 <= i < |pairs| ensures RoundTimes(pairs[i], s[i], m[i], speedups[i]) {
      SeriesAt(pairs, Stanli, |pairs|, i);
      SeriesAt(pairs, Cmdstan, |pairs|, i);
      assert Sane(pairs[i]);
      MeanIsMean(pairs[i].stanli, pairs[i].checked.kept);
      MeanIsMean(pairs[i].cmdstan, pairs[i].checked.kept);
      Quotient(m[i], s[i]);
    }
    assert Publishes(pairs, stats, at, RowOf(pairs, stats, at), s, m, speedups);
  }

  /** The printed windows determine the published numbers. */
  lemma TimesAreUnique(pairs: seq<Pair>, s: seq<real>, m: seq<real>, q: seq<real>, s': seq<real>, m': seq<real>,
                       q': seq<real>)
    requires AllTimes(pairs, s, m, q) && AllTimes(pairs, s', m', q') && forall i :: 0 <= i < |pairs| ==> Sane(pairs[i])
    ensures s == s' && m == m' && q == q'
  {
    forall i | 0 <= i < |pairs| ensures s[i] == s'[i] && m[i] == m'[i] && q[i] == q'[i] {
      assert RoundTimes(pairs[i], s[i], m[i], q[i]) && RoundTimes(pairs[i], s'[i], m'[i], q'[i]) && Sane(pairs[i]);
      MeanIsUnique(pairs[i].stanli, pairs[i].checked.kept, s[i], s'[i]);
      MeanIsUnique(pairs[i].cmdstan, pairs[i].checked.kept, m[i], m'[i]);
      Cancel(q[i], q'[i], s[i], m[i]);
    }
  }

  lemma OkIsSane(p: Pair, i: nat, c: Settings)
    requires PairOk(p, i, c)
    ensures Sane(p)
  {
    forall j | 0 <= j < |p.checked.kept|
      ensures var k := p.checked.kept[j]; k < c.points && p.stanli.entries[k].Timed? && p.cmdstan.entries[k].Timed?
    {
      assert SameFate(p.stanli.entries, p.cmdstan.entries, p.checked.kept[j]);
    }
    assert forall k :: 0 <= k < c.points ==>
      StrippedOk(p.stanli.entries[k], k, c.measure) && StrippedOk(p.cmdstan.entries[k], k, c.measure);
  }

  /** The summary of a record publishes the times of its rounds. */
  lemma RecordPublishes(rounds: seq<Round>, c: Settings, stats: Statistics, later: bool)
    requires |rounds| == c.rounds > 0 && forall i :: 0 <= i < |rounds| ==> RoundParses(rounds[i], c)
    ensures var r := RecordOf(rounds, c, stats, later);
            r.row.Some? ==>
              && |r.pairs| == c.rounds && (forall i :: 0 <= i < |r.pairs| ==> Sane(r.pairs[i]))
              && Published(r.pairs, stats, 0, r.row.value)
  {
    var r := RecordOf(rounds, c, stats, later);
    if r.row.Some? {
      RoundsAreGood(rounds, c, |r.pairs|);
      forall i | 0 <= i < |r.pairs| ensures Sane(r.pairs[i]) {
        OkIsSane(r.pairs[i], i, c);
      }
      RowPublishes(r.pairs, stats, 0);
    }
  }

  /** If CmdStan takes k times as long in every round, the published speedup is the statistics of k, .., k. */
  lemma SteadySpeedup(rounds: seq<Round>, c: Settings, stats: Statistics, later: bool, k: real)
    requires |rounds| == c.rounds > 0 && forall i :: 0 <= i < |rounds| ==> RoundParses(rounds[i], c)
    requires var r := RecordOf(rounds, c, stats, later);
             r.row.Some? && forall i :: 0 <= i < |r.pairs| ==> TimesAsLong(r.pairs[i], k)
    ensures RecordOf(rounds, c, stats, later).row.value.speedup == stats(seq(|rounds|, _ => k))
  {
    var r := RecordOf(rounds, c, stats, later);
    RecordPublishes(rounds, c, stats, later);
    var s, m, speedups :| Publishes(r.pairs, stats, 0, r.row.value, s, m, speedups);
    forall i | 0 <= i < |r.pairs| ensures speedups[i] == k {
      assert RoundTimes(r.pairs[i], s[i], m[i], speedups[i]) && Sane(r.pairs[i]);
      SteadyRound(r.pairs[i], s[i], m[i], speedups[i], k);
    }
    assert speedups == seq(|rounds|, _ => k);
  }

  lemma SteadyRound(p: Pair, s: real, m: real, speedup: real, k: real)
    requires Sane(p) && RoundTimes(p, s, m, speedup) && TimesAsLong(p, k)
    ensures speedup == k
  {
    var x, y :| IsMean(p.stanli, p.checked.kept, x) && IsMean(p.cmdstan, p.checked.kept, y) && IsTimes(y, k, x);
    MeanIsUnique(p.stanli, p.checked.kept, s, x);
    MeanIsUnique(p.cmdstan, p.checked.kept, m, y);
    OneRatio(speedup, k, s, m);
  }

  lemma OneRatio(speedup: real, k: real, s: real, m: real)
    requires s > 0.0 && IsTimes(m, speedup, s) && IsTimes(m, k, s)
    ensures speedup == k
  {
    Cancel(speedup, k, s, m);
  }

  /** In this round CmdStan's mean time is k times stanli's. */
  ghost predicate TimesAsLong(p: Pair, k: real) {
    exists x, y :: IsMean(p.stanli, p.checked.kept, x) && IsMean(p.cmdstan, p.checked.kept, y) && IsTimes(y, k, x)
  }

  /** The independent check accepts a summary exactly when its rounds are good and it is close to one that
      publishes their times. */
  lemma CatalogMeans(r: Record, c: Settings, stats: Statistics)
    requires r.row.Some? && r.pairs != []
    ensures CatalogOk(r, c, stats) <==>
            && |r.pairs| == c.rounds && PairsOk(r.pairs, c, |r.pairs|)
            && exists row :: Published(r.pairs, stats, |r.pairs| - 1, row) && RowClose(r.row.value, row)
  {
    if PairsOk(r.pairs, c, |r.pairs|) {
      GoodPairsPublish(r.pairs, c, stats, |r.pairs| - 1);
    }
  }

  lemma GoodPairsPublish(pairs: seq<Pair>, c: Settings, stats: Statistics, at: nat)
    requires at < |pairs| && PairsOk(pairs, c, |pairs|)
    ensures forall row :: Published(pairs, stats, at, row) <==> row == RowOf(pairs, stats, at)
  {
    forall i | 0 <= i < |pairs| ensures Sane(pairs[i]) {
      assert RoundFine(pairs[0], pairs[i], i, c);
      OkIsSane(pairs[i], i, c);
    }
    RowPublishes(pairs, stats, at);
    forall row | Published(pairs, stats, at, row) ensures row == RowOf(pairs, stats, at) {
      OneRow(pairs, stats, at, row, RowOf(pairs, stats, at));
    }
  }

  lemma OneRow(pairs: seq<Pair>, stats: Statistics, at: nat, a: Row, b: Row)
    requires at < |pairs| && forall i :: 0 <= i < |pairs| ==> Sane(pairs[i])
    requires Published(pairs, stats, at, a) && Published(pairs, stats, at, b)
    ensures a == b
  {
    var s, m, q :| Publishes(pairs, stats, at, a, s, m, q);
    var s', m', q' :| Publishes(pairs, stats, at, b, s', m', q');
    TimesAreUnique(pairs, s, m, q, s', m', q');
  }

  // ---------------------------------------------------------------- what a published record guarantees

  /** One engine's part of a round: warmed up, measured long enough at every finite point. */
  predicate Sound(t: Trial, c: Settings) {
    && t.warmIterations > 0 && t.warmElapsed > 0 && t.warmElapsed as real >= c.warmup && |t.entries| == c.points
    && forall k :: 0 <= k < c.points ==>
         && t.entries[k].point == k
         && (t.entries[k].Timed? ==>
               && t.entries[k].window.iterations > 0 && t.entries[k].window.batch > 0
               && t.entries[k].window.elapsed > 0 && t.entries[k].window.elapsed as real >= c.measure
               && t.entries[k].values == [])
  }

  /** Whoever wrote it: every round of a record that passes the check is sound, engines took turns, both ran
      the same points, all rounds kept them, and the recorded errors are within the gate. */
  lemma PassedRecords(r: Record, c: Settings, stats: Statistics, i: nat)
    requires CatalogOk(r, c, stats) && i < |r.pairs|
    ensures var p := r.pairs[i];
            && |r.pairs| <= c.rounds && (r.ok ==> r.row.Some? && |r.pairs| == c.rounds)
            && p.order == (if i % 2 == 0 then [Stanli, Cmdstan] else [Cmdstan, Stanli])
            && Sound(p.stanli, c) && Sound(p.cmdstan, c)
            && (forall k :: 0 <= k < c.points ==> p.stanli.entries[k].Timed? == p.cmdstan.entries[k].Timed?)
            && Ascending(p.checked.kept) && p.checked.kept != []
            && (forall k :: k in p.checked.kept <==> 0 <= k < c.points && p.stanli.entries[k].Timed?)
            && Ascending(p.checked.dropped)
            && (forall k :: k in p.checked.dropped <==> 0 <= k < c.points && p.stanli.entries[k].Dropped?)
            && |p.checked.errors| == |p.checked.kept| && p.checked.worst in p.checked.errors
            && (forall j :: 0 <= j < |p.checked.errors| ==>
                  0.0 <= p.checked.errors[j] <= p.checked.worst && p.checked.errors[j] <= 0.000000001)
            && p.checked.width == r.pairs[0].checked.width > 0 && p.checked.kept == r.pairs[0].checked.kept
  {
    var p := r.pairs[i];
    assert RoundFine(r.pairs[0], p, i, c);
    TrialIsSound(p.stanli, c);
    TrialIsSound(p.cmdstan, c);
    PointsAre(p, i, c);
    MaxIs(p.checked.errors);
  }

  lemma TrialIsSound(t: Trial, c: Settings)
    requires TrialOk(t, c)
    ensures Sound(t, c)
  {
    assert forall k :: 0 <= k < c.points ==> StrippedOk(t.entries[k], k, c.measure);
  }

  lemma PointsAre(p: Pair, i: nat, c: Settings)
    requires PairOk(p, i, c)
    ensures forall k :: 0 <= k < c.points ==> p.stanli.entries[k].Timed? == p.cmdstan.entries[k].Timed?
    ensures Ascending(p.checked.kept) && Ascending(p.checked.dropped)
    ensures forall k :: k in p.checked.kept <==> 0 <= k < c.points && p.stanli.entries[k].Timed?
    ensures forall k :: k in p.checked.dropped <==> 0 <= k < c.points && p.stanli.entries[k].Dropped?
  {
    KeptIs(p.stanli.entries, c.points);
    DroppedIs(p.stanli.entries, c.points);
    forall k | 0 <= k < c.points ensures p.stanli.entries[k].Timed? == p.cmdstan.entries[k].Timed? {
      assert SameFate(p.stanli.entries, p.cmdstan.entries, k);
    }
  }
}
