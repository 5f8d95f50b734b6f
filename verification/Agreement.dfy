/** Comparing this interpreter with CmdStan point by point, and the ledger of known divergences. */
module Agreement {
  import opened Options
  import opened Reals

  datatype Num = Fin(value: real) | NaN | PosInf | NegInf

  /** What CmdStan recorded at a point. */
  datatype WantArray = NoArray | ArrayThrew(message: string) | Array(names: seq<string>, values: seq<Num>)
  datatype Want = Threw(message: string) | Returned(lpGrad: seq<Num>, wa: WantArray)

  /** What the run printed at a point. */
  datatype Status = Silent | Okay(values: seq<Num>) | EvalFail(message: string) | OtherFail(message: string)
  datatype Got = Got(status: Status, wa: WantArray)

  datatype Verdict = Ok | BothThrew | Mismatch | OneSideThrew | MessageMismatch | ArrayUnsupported

  /** Normalised message agreement and the unsupported-feature pattern. */
  datatype Text = Text(agree: (string, string) -> bool, unsupported: string -> bool)

  const MAX_REL := 0.000000001

  /** The relative deviation is at most the gate; a nonfinite value agrees only with itself. */
  predicate InGate(a: Num, b: Num) {
    if a.Fin? && b.Fin? then Abs(a.value - b.value) <= MAX_REL * Max(Max(Abs(a.value), Abs(b.value)), 1.0) else a == b
  }

  /** Two finite values are in the gate if they differ by at most 1e-9 of the larger magnitude, or of 1. */
  lemma InGateIffNear(a: Num, b: Num)
    ensures InGate(a, b) <==> if a.Fin? && b.Fin? then Near(a.value, b.value, 0.000000001) else a == b
  {
    if a.Fin? && b.Fin? {
      NearIff(a.value, b.value, Abs(a.value - b.value), Max(Max(Abs(a.value), Abs(b.value)), 1.0), MAX_REL);
    }
  }

  // ---------------------------------------------------------------- one point

  /** An all-NaN row counts as a refusal. */
  predicate AllNaN(values: seq<Num>) {
    values != [] && forall i :: 0 <= i < |values| ==> values[i].NaN?
  }

  predicate Accepted(s: Status) {
    s.Okay? && !AllNaN(s.values)
  }

  datatype Diff = Widths(want: nat, got: nat) | At(i: nat) | Names | Messages | Unsupported | Thrown

  predicate SameValues(want: seq<Num>, got: seq<Num>) {
    |want| == |got| && forall i :: 0 <= i < |want| ==> InGate(want[i], got[i])
  }

  /** One description per value out of the gate, in order. */
  function Diffs(want: seq<Num>, got: seq<Num>, n: nat): seq<Diff>
    requires n <= |want| == |got|
  {
    if n == 0 then [] else Diffs(want, got, n - 1) + if InGate(want[n - 1], got[n - 1]) then [] else [At(n - 1)]
  }

  method CompareValues(want: seq<Num>, got: seq<Num>) returns (out: seq<Diff>)
    ensures out == Compared(want, got)
    ensures out == [] <==> SameValues(want, got)
    ensures forall i: nat :: At(i) in out <==> i < |want| == |got| && !InGate(want[i], got[i])
  {
    ComparedIsExact(want, got);
    if |want| == |got| {
      forall i: nat ensures At(i) in Compared(want, got) <==> i < |want| && !InGate(want[i], got[i]) {
        DiffsAreListed(want, got, |want|, i);
      }
    }
    if |want| != |got| {
      return [Widths(|want|, |got|)];
    }
    out := [];
    for i := 0 to |want|
      invariant out == Diffs(want, got, i)
    {
      if !InGate(want[i], got[i]) {
        out := out + [At(i)];
      }
    }
  }

  function Compared(want: seq<Num>, got: seq<Num>): seq<Diff> {
    if |want| != |got| then [Widths(|want|, |got|)] else Diffs(want, got, |want|)
  }

  lemma {:induction false} DiffsAreExact(want: seq<Num>, got: seq<Num>, n: nat)
    requires n <= |want| == |got|
    ensures Diffs(want, got, n) == [] <==> forall i :: 0 <= i < n ==> InGate(want[i], got[i])
  {
    if n > 0 {
      DiffsAreExact(want, got, n - 1);
    }
  }

  lemma {:induction false} DiffsAreListed(want: seq<Num>, got: seq<Num>, n: nat, i: nat)
    requires n <= |want| == |got|
    ensures At(i) in Diffs(want, got, n) <==> i < n && !InGate(want[i], got[i])
  {
    if n > 0 {
      DiffsAreListed(want, got, n - 1, i);
    }
  }

  lemma ComparedIsExact(want: seq<Num>, got: seq<Num>)
    ensures Compared(want, got) == [] <==> SameValues(want, got)
  {
    if |want| == |got| {
      DiffsAreExact(want, got, |want|);
    }
  }

  /** A recorded row of NaNs is a refusal without a message. */
  function Effective(want: Want): Want {
    if want.Returned? && AllNaN(want.lpGrad) then Threw("") else want
  }

  function PointVerdict(text: Text, recorded: Want, got: Option<Got>): (Verdict, seq<Diff>) {
    var want := Effective(recorded);
    var status := if got.Some? then got.value.status else Silent;
    if want.Threw? then
      if !status.Silent? && !Accepted(status) then
        var message := if status.EvalFail? then status.message else "";
        if status.Okay? || text.agree(want.message, message) then (BothThrew, []) else (MessageMismatch, [Messages])
      else (OneSideThrew, [Thrown])
    else if !Accepted(status) then (OneSideThrew, [Thrown])
    else
      var details := Compared(want.lpGrad, status.values);
      var wa := got.value.wa;
      match want.wa
      case NoArray => (if details == [] then Ok else Mismatch, details)
      case ArrayThrew(message) =>
        if !wa.ArrayThrew? then (OneSideThrew, [Thrown] + details)
        else if !text.agree(message, wa.message) then
          (if details == [] then MessageMismatch else Mismatch, details + [Messages])
        else (if details == [] then Ok else Mismatch, details)
      case Array(names, values) =>
        if !wa.Array? then
          var why := if wa.ArrayThrew? then wa.message else "no write_array output";
          if text.unsupported(why) then (if details == [] then ArrayUnsupported else Mismatch, [Unsupported] + details)
          else (OneSideThrew, [Thrown] + details)
        else if names != wa.names then (Mismatch, details + [Names])
        else
          var all := details + Compared(values, wa.values);
          (if all == [] then Ok else Mismatch, all)
  }

  /** A side returns values if it prints any row but one of nothing but NaNs. */
  lemma ReturnsIff(recorded: Want, s: Status)
    ensures Accepted(s) <==> s.Okay? && (s.values == [] || exists i :: 0 <= i < |s.values| && !s.values[i].NaN?)
    ensures Effective(recorded).Returned? <==>
            recorded.Returned? &&
            (recorded.lpGrad == [] || exists i :: 0 <= i < |recorded.lpGrad| && !recorded.lpGrad[i].NaN?)
  { }

  // ---------------------------------------------------------------- what agreement means

  ghost predicate BothRefuse(text: Text, want: Want, got: Option<Got>) {
    && Effective(want).Threw? && got.Some? && !got.value.status.Silent? && !Accepted(got.value.status)
    && (got.value.status.Okay?
        || text.agree(Effective(want).message, if got.value.status.EvalFail? then got.value.status.message else ""))
  }

  ghost predicate ArraysAgree(text: Text, want: WantArray, got: WantArray) {
    match want
    case NoArray => true
    case ArrayThrew(message) => got.ArrayThrew? && text.agree(message, got.message)
    case Array(names, values) => got.Array? && names == got.names && SameValues(values, got.values)
  }

  ghost predicate BothReturn(text: Text, want: Want, got: Option<Got>) {
    && Effective(want).Returned? && got.Some? && Accepted(got.value.status)
    && SameValues(want.lpGrad, got.value.status.values) && ArraysAgree(text, want.wa, got.value.wa)
  }

  /** The verdict is Ok exactly when both sides return the same, and BothThrew exactly when both refuse. */
  lemma VerdictIsExact(text: Text, want: Want, got: Option<Got>)
    ensures PointVerdict(text, want, got).0 == Ok <==> BothReturn(text, want, got)
    ensures PointVerdict(text, want, got).0 == BothThrew <==> BothRefuse(text, want, got)
  {
    if want.Returned? && got.Some? && got.value.status.Okay? {
      ComparedIsExact(want.lpGrad, got.value.status.values);
      if want.wa.Array? && got.value.wa.Array? {
        ComparedIsExact(want.wa.values, got.value.wa.values);
      }
    }
  }

  /** One side refuses where the other returns: the point as a whole, or its array for a reason that is
      not a missing feature. */
  ghost predicate OneSideRefuses(text: Text, recorded: Want, got: Option<Got>) {
    var want := Effective(recorded);
    if want.Threw? then got.None? || got.value.status.Silent? || Accepted(got.value.status)
    else got.None? || !Accepted(got.value.status) || ArrayOneSided(text, want.wa, got.value.wa)
  }

  predicate ArrayOneSided(text: Text, want: WantArray, got: WantArray) {
    || (want.ArrayThrew? && !got.ArrayThrew?)
    || (want.Array? && !got.Array? && !Unsupports(text, got))
  }

  /** There is no array because of a missing feature. */
  predicate Unsupports(text: Text, got: WantArray) {
    text.unsupported(if got.ArrayThrew? then got.message else "no write_array output")
  }

  /** Both sides return values for the point. */
  ghost predicate BothValued(recorded: Want, got: Option<Got>) {
    Effective(recorded).Returned? && got.Some? && Accepted(got.value.status)
  }

  /** The verdict on every other point: who refuses, whose messages differ, what is unsupported; and where
      none of that comes first, values or names differ. */
  lemma OtherVerdicts(text: Text, want: Want, got: Option<Got>)
    ensures var v := PointVerdict(text, want, got).0;
            && (v == OneSideThrew <==> OneSideRefuses(text, want, got))
            && (v == MessageMismatch <==>
                  !OneSideRefuses(text, want, got) &&
                  if Effective(want).Threw? then !BothRefuse(text, want, got)
                  else SameValues(want.lpGrad, got.value.status.values) && want.wa.ArrayThrew?
                       && !text.agree(want.wa.message, got.value.wa.message))
            && (v == ArrayUnsupported <==>
                  && !OneSideRefuses(text, want, got) && BothValued(want, got) && want.wa.Array?
                  && !got.value.wa.Array? && SameValues(want.lpGrad, got.value.status.values))
            && (v == Mismatch <==>
                  && !OneSideRefuses(text, want, got) && BothValued(want, got)
                  && (!SameValues(want.lpGrad, got.value.status.values)
                      || (want.wa.Array? && got.value.wa.Array?
                          && (want.wa.names != got.value.wa.names
                              || !SameValues(want.wa.values, got.value.wa.values)))))
  {
    if want.Returned? && got.Some? && got.value.status.Okay? {
      ComparedIsExact(want.lpGrad, got.value.status.values);
      if want.wa.Array? && got.value.wa.Array? {
        ComparedIsExact(want.wa.values, got.value.wa.values);
      }
    }
  }

  lemma BadVerdictsExplain(text: Text, want: Want, got: Option<Got>)
    ensures PointVerdict(text, want, got).0 in {Ok, BothThrew} <==> PointVerdict(text, want, got).1 == []
  { }

  // ---------------------------------------------------------------- one model

  datatype Outcome = NoData | CmdstanTimeout | CmdstanCrashed
    | StancFails(message: string) | DataFails(message: string) | Ran(points: seq<Want>)

  /** A timeout, a compile failure, a crash (bad exit code or no point), or the printed points. */
  datatype Run = TimedOut | CompileFails(message: string) | Crashes | Printed(points: map<nat, Got>)

  datatype ModelStatus =
    | DataUnavailable | CmdstanTimedOut | CmdstanCrash | StancRejected | DataRejected | RejectedBoth | Verified
    | Points | DataMessageMismatch | UnsupportedModel | OneSided | Timeout | Crashed

  predicate Diverges(s: ModelStatus) {
    s in {Points, DataMessageMismatch, UnsupportedModel, OneSided, Timeout, Crashed}
  }

  datatype Classified = Classified(status: ModelStatus, points: map<nat, Verdict>, details: seq<Diff>)

  function AtPoint(points: map<nat, Got>, k: nat): Option<Got> {
    if k in points then Some(points[k]) else None
  }

  /** The verdict at point k, an unstable mismatch counting as agreement. */
  function VerdictAt(text: Text, want: seq<Want>, got: map<nat, Got>, unstable: set<nat>, k: nat): Verdict
    requires k < |want|
  {
    var v := PointVerdict(text, want[k], AtPoint(got, k)).0;
    if v == Mismatch && k in unstable then Ok else v
  }

  /** When each status results: first what is known of CmdStan, then how the run ended, then the points. */
  predicate StatusIs(text: Text, domainError: string -> bool, outcome: Outcome, run: Run, s: ModelStatus) {
    && (s == DataUnavailable <==> outcome.NoData?)
    && (s == CmdstanTimedOut <==> outcome.CmdstanTimeout?)
    && (s == CmdstanCrash <==> outcome.CmdstanCrashed?)
    && (s == Timeout <==> run.TimedOut? && (outcome.StancFails? || outcome.DataFails? || outcome.Ran?))
    && (s == StancRejected <==> outcome.StancFails? && run.CompileFails?)
    && (s == DataRejected <==> outcome.DataFails? && run.CompileFails? && text.agree(outcome.message, run.message))
    && (s == DataMessageMismatch <==>
          && outcome.DataFails? && run.CompileFails? && !text.agree(outcome.message, run.message)
          && !text.unsupported(run.message))
    && (s == UnsupportedModel <==>
          run.CompileFails? && ((outcome.DataFails? && !text.agree(outcome.message, run.message)
                                 && text.unsupported(run.message))
                                || (outcome.Ran? && !domainError(run.message))))
    && (s == OneSided <==>
          || (outcome.StancFails? && !run.TimedOut? && !run.CompileFails?)
          || (outcome.Ran? && run.CompileFails? && domainError(run.message))
          || (outcome.DataFails? && run.Printed? && run.points != map[]))
    && (s == Crashed <==>
          (outcome.DataFails? || outcome.Ran?) && (run.Crashes? || (run.Printed? && run.points == map[])))
  }

  /** Both sides ran the points; what the points say decides. */
  predicate Compares(outcome: Outcome, run: Run) {
    outcome.Ran? && run.Printed? && run.points != map[]
  }

  ghost predicate PointsDecide(text: Text, want: seq<Want>, got: map<nat, Got>, unstable: set<nat>, r: Classified) {
    && r.status in {Verified, RejectedBoth, Points}
    && (r.status == Verified <==>
          && (forall k :: 0 <= k < |want| ==> VerdictAt(text, want, got, unstable, k) in {Ok, BothThrew})
          && (exists k :: 0 <= k < |want| && VerdictAt(text, want, got, unstable, k) == Ok))
    && (r.status == RejectedBoth <==>
          forall k :: 0 <= k < |want| ==> VerdictAt(text, want, got, unstable, k) == BothThrew)
    && (r.status == Points <==> r.points != map[] && r.details != [])
    && (forall k :: k in r.points <==>
          0 <= k < |want| && VerdictAt(text, want, got, unstable, k) !in {Ok, BothThrew})
    && (forall k :: k in r.points ==> r.points[k] == VerdictAt(text, want, got, unstable, k))
  }

  /** A Stan Math domain error on data that CmdStan accepts is a disagreement, not a missing feature. */
  method Classify(text: Text, domainError: string -> bool, outcome: Outcome, run: Run, unstable: set<nat>)
    returns (r: Classified)
    requires outcome.Ran? ==> |outcome.points| > 0
    ensures StatusIs(text, domainError, outcome, run, r.status)
    ensures if Compares(outcome, run) then PointsDecide(text, outcome.points, run.points, unstable, r)
            else r.points == map[] && r.status !in {Verified, RejectedBoth, Points}
  {
    if outcome.NoData? {
      return Classified(DataUnavailable, map[], []);
    }
    if outcome.CmdstanTimeout? {
      return Classified(CmdstanTimedOut, map[], []);
    }
    if outcome.CmdstanCrashed? {
      return Classified(CmdstanCrash, map[], []);
    }
    if run.TimedOut? {
      return Classified(Timeout, map[], []);
    }
    if outcome.StancFails? {
      return Classified(if run.CompileFails? then StancRejected else OneSided, map[], []);
    }
    if run.CompileFails? {
      if outcome.DataFails? {
        return Classified(if text.agree(outcome.message, run.message) then DataRejected
                          else if text.unsupported(run.message) then UnsupportedModel else DataMessageMismatch,
                          map[], [Messages]);
      }
      return Classified(if domainError(run.message) then OneSided else UnsupportedModel, map[], [Unsupported]);
    }
    if run.Crashes? || run.points == map[] {
      return Classified(Crashed, map[], []);
    }
    if outcome.DataFails? {
      return Classified(OneSided, map[], [Thrown]);
    }
    r := ClassifyPoints(text, outcome.points, run.points, unstable);
  }

  method ClassifyPoints(text: Text, want: seq<Want>, got: map<nat, Got>, unstable: set<nat>) returns (r: Classified)
    requires |want| > 0
    ensures PointsDecide(text, want, got, unstable, r)
  {
    var bad: map<nat, Verdict>, details, allThrew := map[], [], true;
    for k := 0 to |want|
      invariant JudgedUpTo(text, want, got, unstable, k, bad, allThrew) && (bad != map[] ==> details != [])
    {
      var verdict, why := PointVerdict(text, want[k], AtPoint(got, k)).0,
                          PointVerdict(text, want[k], AtPoint(got, k)).1;
      BadVerdictsExplain(text, want[k], AtPoint(got, k));
      if verdict == Mismatch && k in unstable {
        verdict, why := Ok, [];
      }
      assert verdict == VerdictAt(text, want, got, unstable, k);
      JudgedNext(text, want, got, unstable, k, bad, allThrew);
      if verdict !in {Ok, BothThrew} {
        bad := bad[k := verdict];
      }
      details := details + why;
      allThrew := allThrew && verdict == BothThrew;
    }
    r := if bad != map[] then Classified(Points, bad, details)
         else Classified(if allThrew then RejectedBoth else Verified, map[], []);
    AllJudged(text, want, got, unstable, bad, allThrew, r);
  }

  ghost predicate JudgedUpTo(text: Text, want: seq<Want>, got: map<nat, Got>, unstable: set<nat>, n: nat,
                             bad: map<nat, Verdict>, allThrew: bool)
    requires n <= |want|
  {
    && (forall k :: k in bad <==> 0 <= k < n && VerdictAt(text, want, got, unstable, k) !in {Ok, BothThrew})
    && (forall k :: k in bad ==> bad[k] == VerdictAt(text, want, got, unstable, k))
    && (allThrew <==> forall k :: 0 <= k < n ==> VerdictAt(text, want, got, unstable, k) == BothThrew)
  }

  lemma JudgedNext(text: Text, want: seq<Want>, got: map<nat, Got>, unstable: set<nat>, n: nat,
                   bad: map<nat, Verdict>, allThrew: bool)
    requires n < |want| && JudgedUpTo(text, want, got, unstable, n, bad, allThrew)
    ensures var v := VerdictAt(text, want, got, unstable, n);
            JudgedUpTo(text, want, got, unstable, n + 1, if v in {Ok, BothThrew} then bad else bad[n := v],
                       allThrew && v == BothThrew)
  { }

  lemma AllJudged(text: Text, want: seq<Want>, got: map<nat, Got>, unstable: set<nat>, bad: map<nat, Verdict>,
                  allThrew: bool, r: Classified)
    requires |want| > 0 && JudgedUpTo(text, want, got, unstable, |want|, bad, allThrew)
    requires if bad != map[] then r.status == Points && r.points == bad && r.details != []
             else r == Classified(if allThrew then RejectedBoth else Verified, map[], [])
    ensures PointsDecide(text, want, got, unstable, r)
  {
    if bad != map[] {
      var k :| k in bad;
    } else {
      assert forall k :: 0 <= k < |want| ==> VerdictAt(text, want, got, unstable, k) in {Ok, BothThrew};
      assert VerdictAt(text, want, got, unstable, 0) in {Ok, BothThrew};
    }
  }

  /** Verified means: at every point both return the same values and names, or both refuse, or the point
      is listed as platform dependent and the values differ there. */
  lemma VerifiedMeansAgreement(text: Text, want: seq<Want>, got: map<nat, Got>, unstable: set<nat>, k: nat)
    requires k < |want|
    ensures VerdictAt(text, want, got, unstable, k) in {Ok, BothThrew} <==>
      || BothReturn(text, want[k], AtPoint(got, k)) || BothRefuse(text, want[k], AtPoint(got, k))
      || (k in unstable && PointVerdict(text, want[k], AtPoint(got, k)).0 == Mismatch)
  {
    VerdictIsExact(text, want[k], AtPoint(got, k));
  }

  // ---------------------------------------------------------------- the ledger

  datatype Cause = Named(text: seq<Diff>) | Untriaged(text: seq<Diff>)

  datatype Entry = Entry(status: Option<ModelStatus>, points: Option<map<nat, Verdict>>, cause: Option<Cause>)

  type Ledger = map<string, Entry>

  predicate WellFormed(e: Entry) {
    && e.cause.Some? && (e.status.Some? != e.points.Some?)
    && (e.status.Some? ==> Diverges(e.status.value) && e.status.value != Points)
    && (e.points.Some? ==> forall k :: k in e.points.value ==> e.points.value[k] !in {Ok, BothThrew})
  }

  datatype Complaint = NoCause | Differs

  function Recorded(entry: Option<Entry>): Option<(ModelStatus, map<nat, Verdict>)> {
    if entry.None? then None
    else if entry.value.points.Some? then Some((Points, entry.value.points.value))
    else if entry.value.status.Some? then Some((entry.value.status.value, map[]))
    else None
  }

  /** None when the computed result is the recorded one and its cause is named. */
  function LedgerVerdict(c: Classified, entry: Option<Entry>): Option<Complaint> {
    var got := if Diverges(c.status) then Some((c.status, c.points)) else None;
    if Recorded(entry) == got then
      if entry.Some? && entry.value.cause.Some? && entry.value.cause.value.Untriaged? then Some(NoCause) else None
    else Some(Differs)
  }

  function FreshCause(c: Classified): Cause {
    if c.status == DataMessageMismatch then Untriaged(c.details)
    else if c.status == Points && (forall k :: k in c.points ==> c.points[k] == ArrayUnsupported) && c.points != map[]
        then Named(c.details)
    else if c.status != UnsupportedModel then Untriaged(c.details)
    else Named(c.details)
  }

  function NewEntry(prior: Option<Entry>, c: Classified): Entry {
    var status := if c.status == Points then None else Some(c.status);
    var points := if c.status == Points then Some(c.points) else None;
    var same := prior.Some? &&
        (if c.status == Points then prior.value.points == points else prior.value.status == status);
    Entry(status, points, if same && prior.value.cause.Some? then prior.value.cause else Some(FreshCause(c)))
  }

  function OldEntry(ledger: Ledger, path: string): Option<Entry> {
    if path in ledger then Some(ledger[path]) else None
  }

  function Updated(ledger: Ledger, results: map<string, Classified>): Ledger {
    map path | path in results && Diverges(results[path].status) :: NewEntry(OldEntry(ledger, path), results[path])
  }

  /** The rewriting loop, over the results in path order. */
  method UpdateLedger(ledger: Ledger, results: map<string, Classified>, paths: seq<string>) returns (out: Ledger)
    requires forall p :: p in paths <==> p in results
    ensures out == Updated(ledger, results)
  {
    out := map[];
    for i := 0 to |paths|
      invariant forall p :: p in out <==> p in paths[..i] && Diverges(results[p].status)
      invariant forall p :: p in out ==> p in results && out[p] == NewEntry(OldEntry(ledger, p), results[p])
    {
      var path := paths[i];
      if Diverges(results[path].status) {
        out := out[path := NewEntry(OldEntry(ledger, path), results[path])];
      }
    }
  }

  ghost predicate IsResult(c: Classified) {
    (c.status == Points <==> c.points != map[]) && forall k :: k in c.points ==> c.points[k] !in {Ok, BothThrew}
  }

  /** A rewritten ledger passes the format checks and its only complaint can be an unnamed cause. */
  lemma UpdatedLedgerIsQuiet(ledger: Ledger, results: map<string, Classified>, path: string)
    requires path in results && IsResult(results[path])
    ensures path in Updated(ledger, results) <==> Diverges(results[path].status)
    ensures path in Updated(ledger, results) ==> WellFormed(Updated(ledger, results)[path])
    ensures LedgerVerdict(results[path], OldEntry(Updated(ledger, results), path)) != Some(Differs)
  { }

  /** A new entry is complained about until someone names its cause, unless a missing feature explains it. */
  lemma NewEntriesNeedACause(ledger: Ledger, results: map<string, Classified>, path: string)
    requires path in results && IsResult(results[path]) && path !in ledger
    ensures var c := results[path];
            LedgerVerdict(c, OldEntry(Updated(ledger, results), path)) == None <==>
            || !Diverges(c.status) || c.status == UnsupportedModel
            || (c.status == Points && forall k :: k in c.points ==> c.points[k] == ArrayUnsupported)
  { }

  /** Rewriting again with the same results changes nothing: causes that still apply are kept. */
  lemma UpdateIsIdempotent(ledger: Ledger, results: map<string, Classified>)
    ensures Updated(Updated(ledger, results), results) == Updated(ledger, results)
  { }

  /** A cause survives exactly as long as the recorded divergence does. */
  lemma CausesSurvive(ledger: Ledger, results: map<string, Classified>, path: string)
    requires path in results && IsResult(results[path]) && path in ledger && WellFormed(ledger[path])
    requires Diverges(results[path].status)
    ensures Recorded(Some(ledger[path])) == Some((results[path].status, results[path].points)) ==>
      Updated(ledger, results)[path].cause == ledger[path].cause
    ensures Recorded(Some(ledger[path])) != Some((results[path].status, results[path].points)) ==>
      Updated(ledger, results)[path].cause == Some(FreshCause(results[path]))
  { }
}
