/** Publishing chunk gradients: spans that one child alone imports are added by whichever worker runs
    the child, all others after the join in chunk order.

    The merged gradient is compared with the canonical one, in which every child adds a full-width
    gradient, zero where it imports nothing. Floating-point addition is not associative, so the proof
    may use only that adding zero to an accumulator changes nothing.
*/
module Publication {
  import opened Options
  import opened Team
  import TeamTheorems

  /** A span of a child's gradient and where it lands in the parent. */
  datatype Import = Import(parent: nat, local: nat, len: nat, exclusive: bool)

  /** One gradient cell of a child. */
  datatype Cell = Cell(parent: nat, local: nat, exclusive: bool)

  function CellsOf(span: Import): (r: seq<Cell>)
    ensures |r| == span.len
  {
    seq(span.len, (j: nat) => Cell(span.parent + j, span.local + j, span.exclusive))
  }

  function Spread(spans: seq<Import>): seq<Cell> {
    if spans == [] then [] else Spread(spans[..|spans| - 1]) + CellsOf(spans[|spans| - 1])
  }

  /** A cell belongs to spans exactly when one of them covers it in the parent, as far into its local part
      as into its parent part. */
  lemma {:induction false} CellIff(spans: seq<Import>, x: Cell)
    ensures x in Spread(spans) <==> exists i :: 0 <= i < |spans| && Covers(spans[i], x)
  {
    if spans != [] {
      var n := |spans| - 1;
      CellIff(spans[..n], x);
      if Covers(spans[n], x) {
        assert CellsOf(spans[n])[x.parent - spans[n].parent] == x;
      }
      assert forall i :: 0 <= i < n ==> spans[..n][i] == spans[i];
    }
  }

  predicate Covers(span: Import, x: Cell) {
    && span.parent <= x.parent < span.parent + span.len
    && x.parent - x.local == span.parent - span.local && x.exclusive == span.exclusive
  }

  // ---------------------------------------------------------------- publishing

  /** `publish(merged, exclusive)`: the accumulations a child performs for one kind of span. */
  function Updates<V>(cells: seq<Cell>, grad: seq<V>, exclusive: bool): (r: seq<Update<V>>)
    requires forall i :: 0 <= i < |cells| ==> cells[i].local < |grad|
  {
    if cells == [] then [] else
      var n := |cells| - 1;
      var before := Updates(cells[..n], grad, exclusive);
      if cells[n].exclusive == exclusive then before + [Update(cells[n].parent, grad[cells[n].local])] else before
  }

  lemma {:induction false} UpdateIsCell<V>(cells: seq<Cell>, grad: seq<V>, exclusive: bool, i: nat) returns (x: Cell)
    requires forall i :: 0 <= i < |cells| ==> cells[i].local < |grad|
    requires i < |Updates(cells, grad, exclusive)|
    ensures x in cells && x.exclusive == exclusive && Updates(cells, grad, exclusive)[i].cell == x.parent
  {
    var n := |cells| - 1;
    if i < |Updates(cells[..n], grad, exclusive)| {
      x := UpdateIsCell(cells[..n], grad, exclusive, i);
    } else {
      x := cells[n];
    }
  }

  function Lookup(cells: seq<Cell>, cell: nat): (r: Option<Cell>)
    ensures r.Some? ==> r.value in cells && r.value.parent == cell
    ensures r.None? ==> forall x :: x in cells ==> x.parent != cell
  {
    if cells == [] then None
    else if cells[|cells| - 1].parent == cell then Some(cells[|cells| - 1])
    else Lookup(cells[..|cells| - 1], cell)
  }

  /** A child imports each parent cell at most once. */
  predicate Distinct(cells: seq<Cell>) {
    forall i, j :: 0 <= i < j < |cells| ==> cells[i].parent != cells[j].parent
  }

  lemma {:induction false} AccumulateAppend<V>(c: Config<V>, prog: seq<Update<V>>, u: Update<V>, cell: nat, v: V)
    ensures Accumulate(c, prog + [u], |prog| + 1, cell, v) ==
            (var before := Accumulate(c, prog, |prog|, cell, v);
             if u.cell == cell then c.add(before, u.delta) else before)
  {
    AccumulatePrefix(c, prog, [u], |prog|, cell, v);
  }

  lemma {:induction false} AccumulatePrefix<V>(c: Config<V>, prog: seq<Update<V>>, more: seq<Update<V>>, n: nat,
                                               cell: nat, v: V)
    requires n <= |prog|
    ensures Accumulate(c, prog + more, n, cell, v) == Accumulate(c, prog, n, cell, v)
  {
    if n > 0 {
      AccumulatePrefix(c, prog, more, n - 1, cell, v);
    }
  }

  /** Publishing one kind of span adds a child's cell once if the cell is of that kind, else not at all. */
  lemma {:induction false} PublishOnce<V>(c: Config<V>, cells: seq<Cell>, grad: seq<V>, exclusive: bool, cell: nat,
                                          v: V)
    requires forall i :: 0 <= i < |cells| ==> cells[i].local < |grad|
    requires Distinct(cells)
    ensures var prog := Updates(cells, grad, exclusive);
            var x := Lookup(cells, cell);
            Accumulate(c, prog, |prog|, cell, v) ==
            (if x.Some? && x.value.exclusive == exclusive then c.add(v, grad[x.value.local]) else v)
  {
    if cells != [] {
      var n := |cells| - 1;
      var front := cells[..n];
      PublishOnce(c, front, grad, exclusive, cell, v);
      AccumulateAppend(c, Updates(front, grad, exclusive), Update(cells[n].parent, grad[cells[n].local]), cell, v);
      assert cells[n].parent == cell ==> Lookup(front, cell).None?;
    }
  }

  // ---------------------------------------------------------------- the two reductions

  datatype Child<V> = Child(cells: seq<Cell>, grad: seq<V>)

  predicate ChildOk<V>(child: Child<V>) {
    Distinct(child.cells) && forall i :: 0 <= i < |child.cells| ==> child.cells[i].local < |child.grad|
  }

  /** A span is exclusive only if no other child imports any of its cells. */
  ghost predicate SoundPlan<V>(children: seq<Child<V>>) {
    && (forall k :: 0 <= k < |children| ==> ChildOk(children[k]))
    && (forall k, k', cell | 0 <= k < |children| && 0 <= k' < |children| && k != k' ::
          var x := Lookup(children[k].cells, cell);
          x.Some? && x.value.exclusive ==> Lookup(children[k'].cells, cell).None?)
  }

  function FullGradient<V>(c: Config<V>, child: Child<V>, cell: nat): V
    requires ChildOk(child)
  {
    var x := Lookup(child.cells, cell);
    if x.Some? then child.grad[x.value.local] else c.zero
  }

  /** The serial reduction over full-width children, in chunk order. */
  ghost function Canonical<V>(c: Config<V>, children: seq<Child<V>>, n: nat, cell: nat): V
    requires n <= |children| && SoundPlan(children)
  {
    if n == 0 then c.zero
    else c.add(Canonical(c, children, n - 1, cell), FullGradient(c, children[n - 1], cell))
  }

  /** The exclusive publications as jobs of the team. */
  ghost function ExclusiveJobs<V>(children: seq<Child<V>>): (r: seq<seq<Update<V>>>)
    requires SoundPlan(children)
    ensures |r| == |children|
  {
    seq(|children|, k requires 0 <= k < |children| => Updates(children[k].cells, children[k].grad, true))
  }

  /** The shared publications after the join, in chunk order, on top of what the workers left. */
  ghost function SharedAfter<V>(c: Config<V>, children: seq<Child<V>>, n: nat, cell: nat, start: V): V
    requires n <= |children| && SoundPlan(children)
  {
    if n == 0 then start else
      var prog := Updates(children[n - 1].cells, children[n - 1].grad, false);
      Accumulate(c, prog, |prog|, cell, SharedAfter(c, children, n - 1, cell, start))
  }

  /** Zero is neutral on the right for every value an accumulator that starts at zero can hold. IEEE
      addition satisfies this although `-0.0 + 0.0` is not `-0.0`: such a sum is never `-0.0`. */
  ghost predicate ZeroIsNeutral<V(!new)>(c: Config<V>, accumulator: V -> bool) {
    && accumulator(c.zero)
    && forall x, y :: accumulator(x) ==> accumulator(c.add(x, y)) && c.add(x, c.zero) == x
  }

  lemma {:induction false} CanonicalAccumulates<V(!new)>(c: Config<V>, acc: V -> bool, children: seq<Child<V>>,
                                                         n: nat, cell: nat)
    requires n <= |children| && SoundPlan(children) && ZeroIsNeutral(c, acc)
    ensures acc(Canonical(c, children, n, cell))
  {
    if n > 0 {
      CanonicalAccumulates(c, acc, children, n - 1, cell);
    }
  }

  /** The cell is read by this child alone, according to the plan. */
  predicate OwnsCell<V>(child: Child<V>, cell: nat) {
    Lookup(child.cells, cell).Some? && Lookup(child.cells, cell).value.exclusive
  }

  /** A cell that child `k` alone imports: the worker's one addition is the whole canonical sum. */
  lemma {:induction false} ExclusiveCell<V(!new)>(c: Config<V>, acc: V -> bool, children: seq<Child<V>>,
                                                  k: nat, n: nat, cell: nat)
    requires k < |children| && n <= |children| && SoundPlan(children) && ZeroIsNeutral(c, acc)
    requires Lookup(children[k].cells, cell).Some? && Lookup(children[k].cells, cell).value.exclusive
    ensures var v := c.add(c.zero, FullGradient(c, children[k], cell));
            && Canonical(c, children, n, cell) == (if n <= k then c.zero else v)
            && SharedAfter(c, children, n, cell, v) == v
  {
    if n > 0 {
      ExclusiveCell(c, acc, children, k, n - 1, cell);
      CanonicalAccumulates(c, acc, children, n - 1, cell);
      var v := c.add(c.zero, FullGradient(c, children[k], cell));
      PublishOnce(c, children[n - 1].cells, children[n - 1].grad, false, cell, v);
      assert n - 1 != k ==> Lookup(children[n - 1].cells, cell).None?;
    }
  }

  /** A cell no child owns: the additions after the join are the canonical ones without the zeros. */
  lemma {:induction false} SharedCell<V(!new)>(c: Config<V>, acc: V -> bool, children: seq<Child<V>>, n: nat, cell: nat)
    requires n <= |children| && SoundPlan(children) && ZeroIsNeutral(c, acc)
    requires forall k :: 0 <= k < |children| ==>
      var x := Lookup(children[k].cells, cell); x.Some? ==> !x.value.exclusive
    ensures SharedAfter(c, children, n, cell, c.zero) == Canonical(c, children, n, cell)
  {
    if n > 0 {
      SharedCell(c, acc, children, n - 1, cell);
      CanonicalAccumulates(c, acc, children, n - 1, cell);
      PublishOnce(c, children[n - 1].cells, children[n - 1].grad, false, cell, Canonical(c, children, n - 1, cell));
    }
  }

  /** What the workers leave in one cell, whatever the schedule. */
  lemma {:induction false} WorkersLeave<V>(c: Config<V>, children: seq<Child<V>>, w: Work<V>, n: nat, cell: nat)
    requires SoundPlan(children) && w.progs == ExclusiveJobs(children)
    requires |w.progress| == |children| && n <= |children|
    requires forall j :: 0 <= j < |children| ==> w.progress[j] == Finished(|w.progs[j]|, None)
    ensures (forall k :: 0 <= k < n ==>
               var x := Lookup(children[k].cells, cell); !(x.Some? && x.value.exclusive))
            ==> Serial(c, w, n, cell) == c.zero
    ensures forall k :: 0 <= k < n ==>
               var x := Lookup(children[k].cells, cell);
               x.Some? && x.value.exclusive ==>
                 Serial(c, w, n, cell) == c.add(c.zero, FullGradient(c, children[k], cell))
  {
    if n > 0 {
      WorkersLeave(c, children, w, n - 1, cell);
      PublishOnce(c, children[n - 1].cells, children[n - 1].grad, true, cell, Serial(c, w, n - 1, cell));
      assert w.progs[n - 1] == Updates(children[n - 1].cells, children[n - 1].grad, true);
    }
  }

  /** Sound plans give the workers disjoint cells: no two concurrent jobs touch the same one. */
  lemma JobsAreExclusive<V>(children: seq<Child<V>>)
    requires SoundPlan(children)
    ensures Exclusive(ExclusiveJobs(children))
  {
    var progs: seq<seq<Update<V>>> := ExclusiveJobs(children);
    forall j, i, j', i' | 0 <= j < |progs| && 0 <= i < |progs[j]| && 0 <= j' < |progs| && 0 <= i' < |progs[j']|
      ensures progs[j][i].cell == progs[j'][i'].cell ==> j == j'
    {
      var cell := progs[j][i].cell;
      if cell == progs[j'][i'].cell && j != j' {
        var x := UpdateIsCell(children[j].cells, children[j].grad, true, i);
        var y := UpdateIsCell(children[j'].cells, children[j'].grad, true, i');
        DistinctLookup(children[j].cells, x);
        DistinctLookup(children[j'].cells, y);
        assert false;
      }
    }
  }

  lemma {:induction false} DistinctLookup(cells: seq<Cell>, x: Cell)
    requires Distinct(cells) && x in cells
    ensures Lookup(cells, x.parent) == Some(x)
  {
    var n := |cells| - 1;
    if cells[n] != x {
      assert x in cells[..n];
      DistinctLookup(cells[..n], x);
    }
  }

  /** The i-th call of `run` hands these children to the team. */
  ghost predicate RunsChildren<V>(schedule: seq<Action<V>>, i: nat, children: seq<Child<V>>)
    requires SoundPlan(children)
  {
    i < |TeamTheorems.Begun(schedule)| && Progs(TeamTheorems.Begun(schedule)[i]) == ExclusiveJobs(children)
  }

  /** The merged gradient of every schedule is bit for bit the canonical serial one. */
  lemma MergedIsCanonical<V(!new)>(c: Config<V>, acc: V -> bool, schedule: seq<Action<V>>,
                                   children: seq<Child<V>>, i: nat, cell: nat)
    requires ZeroIsNeutral(c, acc) && SoundPlan(children) && cell < c.cells
    requires TeamTheorems.Legal(c, Start(c), schedule) && RunsChildren(schedule, i, children)
    requires var s := TeamTheorems.Execute(c, Start(c), schedule);
             i < |s.history| && s.history[i].thrown.None?
    ensures var r := TeamTheorems.Execute(c, Start(c), schedule).history[i];
            |r.work.memory| == c.cells &&
            SharedAfter(c, children, |children|, cell, r.work.memory[cell]) == Canonical(c, children, |children|, cell)
  {
    TeamTheorems.EveryScheduleIsSafe(c, schedule);
    TeamTheorems.RecordsInOrder(c, schedule, i);
    var s := TeamTheorems.Execute(c, Start(c), schedule);
    var r := s.history[i];
    assert GoodRecord(c, r);
    JobsAreExclusive(children);
    WorkersLeave(c, children, r.work, |children|, cell);
    if k :| 0 <= k < |children| && OwnsCell(children[k], cell) {
      ExclusiveCell(c, acc, children, k, |children|, cell);
    } else {
      SharedCell(c, acc, children, |children|, cell);
    }
  }

  // ---------------------------------------------------------------- the density

  /** What the children's results add up to after the join, in chunk order. */
  function MergedDensity<V>(c: Config<V>, results: seq<V>, n: nat): V
    requires n <= |results|
  {
    if n == 0 then c.zero else c.add(MergedDensity(c, results, n - 1), results[n - 1])
  }

  /** Evaluating the chunks one after the other and adding up their densities. */
  function SerialDensity<V>(c: Config<V>, jobs: seq<Job<V>>, n: nat): V
    requires n <= |jobs|
  {
    if n == 0 then c.zero else c.add(SerialDensity(c, jobs, n - 1), jobs[n - 1].density)
  }

  lemma {:induction false} DensityUpTo<V>(c: Config<V>, results: seq<V>, jobs: seq<Job<V>>, n: nat)
    requires n <= |jobs| <= |results| && forall j :: 0 <= j < n ==> results[j] == jobs[j].density
    ensures MergedDensity(c, results, n) == SerialDensity(c, jobs, n)
  {
    if n > 0 {
      DensityUpTo(c, results, jobs, n - 1);
    }
  }

  /** For every schedule the results that the jobs of a run stored merge to the serial density of that
      run's chunks, whatever the children held from earlier runs. */
  lemma MergedDensityIsCanonical<V>(c: Config<V>, schedule: seq<Action<V>>, i: nat)
    requires TeamTheorems.Legal(c, Start(c), schedule)
    requires var s := TeamTheorems.Execute(c, Start(c), schedule);
             i < |s.history| && s.history[i].thrown.None?
    ensures var results := TeamTheorems.Execute(c, Start(c), schedule).history[i].work.results;
            && i < |TeamTheorems.Begun(schedule)|
            && var jobs := TeamTheorems.Begun(schedule)[i];
            && |results| == |jobs|
            && MergedDensity(c, results, |jobs|) == SerialDensity(c, jobs, |jobs|)
  {
    TeamTheorems.EveryScheduleIsSafe(c, schedule);
    TeamTheorems.RecordsInOrder(c, schedule, i);
    var s := TeamTheorems.Execute(c, Start(c), schedule);
    var r := s.history[i];
    assert GoodRecord(c, r);
    var jobs := TeamTheorems.Begun(schedule)[i];
    DensityUpTo(c, r.work.results, jobs, |jobs|);
  }
}
