/** Where a case's reads go: coefficients of the parameter vector p, directly or through a function's result. */
module ContainerSinks {
  import opened Arithmetic
  import opened ContainerFlow
  import opened ContainerForms

  datatype Label = Whole(name: string) | Part(name: string, t: nat)

  /** What is read: a scalar expression, or the value put at position t of a cell sink. */
  datatype What = Expression(name: string) | PutAt(name: string, t: nat)

  /** A term v * p[index] of the target, or a store res[index] = v. */
  datatype Read = Read(index: nat, what: What)

  predicate Named(what: What, tag: Label) {
    match what
    case Expression(name) => tag == Whole(name)
    case PutAt(name, t) => tag == Part(name, t)
  }

  /** Positions 1 to n, each exactly once, in any order. */
  ghost predicate Permutation(order: seq<nat>, n: nat) {
    && (forall k :: 0 <= k < |order| ==> 1 <= order[k] <= n)
    && (forall j, k :: 0 <= j < k < |order| ==> order[j] != order[k])
    && (forall t: nat :: 1 <= t <= n ==> t in order)
  }

  function Indices(terms: seq<Read>): (r: seq<nat>)
    ensures |r| == |terms| && forall k :: 0 <= k < |terms| ==> r[k] == terms[k].index
  {
    seq(|terms|, k requires 0 <= k < |terms| => terms[k].index)
  }

  /** Every position is the index of exactly one read, and every read is named by the label at its index. */
  ghost predicate Matched(labels: seq<Label>, terms: seq<Read>) {
    Permutation(Indices(terms), |labels|) && AllNamed(labels, terms)
  }

  ghost predicate AllNamed(labels: seq<Label>, terms: seq<Read>) {
    forall k :: 0 <= k < |terms| ==> NamedIn(labels, terms[k])
  }

  predicate NamedIn(labels: seq<Label>, term: Read) {
    1 <= term.index <= |labels| && Named(term.what, labels[term.index - 1])
  }

  /** Every index is the coefficient of exactly one read, and the label at that index names it. */
  lemma ExactlyOneRead(labels: seq<Label>, terms: seq<Read>, index: nat)
    requires Matched(labels, terms) && 1 <= index <= |labels|
    ensures exists k :: 0 <= k < |terms| && terms[k].index == index && Named(terms[k].what, labels[index - 1])
    ensures forall j, k :: 0 <= j < |terms| && 0 <= k < |terms| && terms[j].index == index == terms[k].index ==> j == k
  {
    assert index in Indices(terms);
    var k :| 0 <= k < |Indices(terms)| && Indices(terms)[k] == index;
    var at := Indices(terms);
    assert forall j, k :: 0 <= j < k < |at| ==> at[j] != at[k];
  }

  // ---------------------------------------------------------------- the order of a loop nest

  /** Each cell followed by every value of one more index. */
  function Extend(cells: seq<Cell>, m: nat): (r: seq<Cell>)
    ensures |r| == |cells| * m
  {
    if cells == [] then [] else
      var n := |cells| - 1;
      Extend(cells[..n], m) + seq(m, j requires 0 <= j => cells[n] + [j + 1])
  }

  lemma {:induction false} ExtendAt(cells: seq<Cell>, m: nat, q: nat, j: nat)
    requires q < |cells| && j < m
    ensures q * m + j < |cells| * m && Extend(cells, m)[q * m + j] == cells[q] + [j + 1]
  {
    BelowProduct(q, j, |cells|, m);
    var n := |cells| - 1;
    if q < n {
      ExtendAt(cells[..n], m, q, j);
      BelowProduct(q, j, n, m);
    }
  }

  /** The cells in the order in which nested loops visit them, the last index fastest. */
  function Visits(dims: seq<nat>): (r: seq<Cell>)
    ensures |r| == Product(dims)
  {
    if dims == [] then [[]] else Extend(Visits(dims[..|dims| - 1]), dims[|dims| - 1])
  }

  lemma OneMoreIndex(dims: seq<nat>, c: Cell, last: nat)
    requires dims != [] && IsCell(dims[..|dims| - 1], c) && 1 <= last <= dims[|dims| - 1]
    ensures IsCell(dims, c + [last])
    ensures Offset(dims, c + [last]) == Offset(dims[..|dims| - 1], c) * dims[|dims| - 1] + (last - 1)
  { }

  lemma Digits(k: nat, p: nat, m: nat) returns (q: nat, j: nat)
    requires k < p * m
    ensures q < p && j < m && k == q * m + j
  {
    QuotientBound(k, p, m);
    q, j := k / m, k % m;
  }

  /** The k-th visit is the cell at position k. */
  lemma {:induction false} VisitsInOrder(dims: seq<nat>, k: nat)
    requires k < Product(dims)
    ensures IsCell(dims, Visits(dims)[k]) && Offset(dims, Visits(dims)[k]) == k
    decreases |dims|
  {
    if dims != [] {
      var n := |dims| - 1;
      var q, j := Digits(k, Product(dims[..n]), dims[n]);
      VisitsInOrder(dims[..n], q);
      ExtendAt(Visits(dims[..n]), dims[n], q, j);
      OneMoreIndex(dims, Visits(dims[..n])[q], j + 1);
    }
  }

  function Parts(name: string, n: nat): (r: seq<Label>)
    ensures |r| == n && forall t :: 0 <= t < n ==> r[t] == Part(name, t + 1)
  {
    seq(n, t requires 0 <= t => Part(name, t + 1))
  }

  /** Reads put at the given positions. */
  ghost function Puts(name: string, order: seq<nat>): (r: seq<Read>)
    ensures |r| == |order| && forall k :: 0 <= k < |order| ==> r[k] == Read(order[k], PutAt(name, order[k]))
  {
    seq(|order|, k requires 0 <= k < |order| => Read(order[k], PutAt(name, order[k])))
  }

  /** Positions counted from base: res[t] becomes the coefficient of p[base + t]. */
  ghost function Shifted(stores: seq<Read>, base: nat): (r: seq<Read>)
    ensures |r| == |stores|
    ensures forall k :: 0 <= k < |r| ==> r[k] == Read(base + stores[k].index, stores[k].what)
  {
    seq(|stores|, k requires 0 <= k < |stores| => Read(base + stores[k].index, stores[k].what))
  }

  lemma PutsMatch(name: string, n: nat, order: seq<nat>)
    ensures Matched(Parts(name, n), Puts(name, order)) <==> Permutation(order, n)
  {
    assert Indices(Puts(name, order)) == order;
  }

  /** A block of labels and reads behind a matched one is matched exactly when it is on its own. */
  lemma AppendMatches(labels: seq<Label>, terms: seq<Read>, more: seq<Label>, stores: seq<Read>)
    requires Matched(labels, terms)
    ensures Matched(labels + more, terms + Shifted(stores, |labels|)) <==> Matched(more, stores)
  {
    var both := terms + Shifted(stores, |labels|);
    assert forall k :: 0 <= k < |terms| ==> Indices(both)[k] == Indices(terms)[k];
    assert forall k :: 0 <= k < |stores| ==> Indices(both)[|terms| + k] == |labels| + Indices(stores)[k];
    if Permutation(Indices(stores), |more|) {
      BlockIsPermutation(Indices(terms), |labels|, Indices(stores), |more|, Indices(both));
      NamesAppend(labels, terms, more, stores);
    } else if Permutation(Indices(both), |labels + more|) {
      BlockWasPermutation(Indices(terms), |labels|, Indices(stores), |more|, Indices(both));
    }
  }

  lemma NamesAppend(labels: seq<Label>, terms: seq<Read>, more: seq<Label>, stores: seq<Read>)
    requires AllNamed(labels, terms) && forall k :: 0 <= k < |stores| ==> 1 <= Indices(stores)[k] <= |more|
    ensures AllNamed(labels + more, terms + Shifted(stores, |labels|)) <==> AllNamed(more, stores)
  {
    var both := terms + Shifted(stores, |labels|);
    forall k | 0 <= k < |terms| ensures NamedIn(labels + more, both[k]) {
      assert NamedIn(labels, terms[k]);
    }
    forall k | 0 <= k < |stores| ensures NamedIn(labels + more, both[|terms| + k]) <==> NamedIn(more, stores[k]) {
      assert both[|terms| + k] == Read(|labels| + stores[k].index, stores[k].what);
      assert Indices(stores)[k] == stores[k].index;
    }
    if AllNamed(more, stores) {
      forall k | 0 <= k < |both| ensures NamedIn(labels + more, both[k]) {
        if k >= |terms| {
          assert NamedIn(labels + more, both[|terms| + (k - |terms|)]);
        }
      }
    }
    if AllNamed(labels + more, both) {
      forall k | 0 <= k < |stores| ensures NamedIn(more, stores[k]) {
        assert NamedIn(labels + more, both[|terms| + k]);
      }
    }
  }

  lemma BlockIsPermutation(a: seq<nat>, m: nat, order: seq<nat>, n: nat, both: seq<nat>)
    requires Permutation(a, m) && Permutation(order, n) && |both| == |a| + |order|
    requires forall k :: 0 <= k < |a| ==> both[k] == a[k]
    requires forall k :: 0 <= k < |order| ==> both[|a| + k] == m + order[k]
    ensures Permutation(both, m + n)
  {
    forall k | 0 <= k < |both| ensures 1 <= both[k] <= m + n && (k < |a| <==> both[k] <= m) {
      if k >= |a| {
        assert both[|a| + (k - |a|)] == m + order[k - |a|];
      }
    }
    forall j, k | 0 <= j < k < |both| ensures both[j] != both[k] {
      if j >= |a| {
        assert both[|a| + (j - |a|)] == m + order[j - |a|] && both[|a| + (k - |a|)] == m + order[k - |a|];
      }
    }
    forall t: nat | 1 <= t <= m + n ensures t in both {
      if t <= m {
        assert t in a;
        var k :| 0 <= k < |a| && a[k] == t;
        assert both[k] == t;
      } else {
        assert t - m in order;
        var k :| 0 <= k < |order| && order[k] == t - m;
        assert both[|a| + k] == t;
      }
    }
  }

  lemma BlockWasPermutation(a: seq<nat>, m: nat, order: seq<nat>, n: nat, both: seq<nat>)
    requires Permutation(a, m) && Permutation(both, m + n) && |both| == |a| + |order|
    requires forall k :: 0 <= k < |a| ==> both[k] == a[k]
    requires forall k :: 0 <= k < |order| ==> both[|a| + k] == m + order[k]
    ensures Permutation(order, n)
  {
    forall k | 0 <= k < |order| ensures 1 <= order[k] <= n {
      assert both[|a| + k] == m + order[k];
      if m > 0 {
        assert m in a;
        var j :| 0 <= j < |a| && a[j] == m;
        assert both[j] == m && both[j] != both[|a| + k];
      }
    }
    forall j, k | 0 <= j < k < |order| ensures order[j] != order[k] {
      assert both[|a| + j] != both[|a| + k];
    }
    forall t: nat | 1 <= t <= n ensures t in order {
      assert m + t in both;
      var k :| 0 <= k < |both| && both[k] == m + t;
      assert k >= |a|;
      assert both[|a| + (k - |a|)] == m + order[k - |a|];
    }
  }

  lemma ScalarMatches(name: string)
    ensures Matched([Whole(name)], [Read(1, Expression(name))])
  {
    assert Indices([Read(1, Expression(name))]) == [1];
    assert 1 in [1];
  }

  /** A fill that loops over dims puts one value at each position, in order. */
  lemma LoopsFillInOrder(dims: seq<nat>, order: seq<nat>)
    requires |order| == Product(dims)
    requires forall k :: 0 <= k < |order| ==>
      IsCell(dims, Visits(dims)[k]) && order[k] == Offset(dims, Visits(dims)[k]) + 1
    ensures order == Count(Product(dims)) && Permutation(order, Product(dims))
  {
    forall k | 0 <= k < |order| ensures order[k] == k + 1 {
      VisitsInOrder(dims, k);
    }
    forall t: nat | 1 <= t <= |order| ensures t in order {
      assert order[t - 1] == t;
    }
  }

  /** The positions that the linear expression gives along a loop nest. */
  method LoopOrder(dims: seq<nat>) returns (order: seq<nat>)
    ensures order == Count(Product(dims)) && Permutation(order, Product(dims))
  {
    order := [];
    for k := 0 to Product(dims)
      invariant |order| == k
      invariant forall j :: 0 <= j < k ==>
        IsCell(dims, Visits(dims)[j]) && order[j] == Offset(dims, Visits(dims)[j]) + 1
    {
      VisitsInOrder(dims, k);
      var position := LinExpr(dims, Visits(dims)[k]);
      order := order + [position];
    }
    LoopsFillInOrder(dims, order);
  }

  // ---------------------------------------------------------------- the generator's objects

  class Model {
    /** The label of p[k]. */
    var grad: seq<Label>
    /** Every term of the target with a coefficient in p, in program order. */
    ghost var terms: seq<Read>

    ghost predicate Valid()
      reads this
    {
      Matched(grad, terms)
    }

    constructor ()
      ensures Valid() && grad == []
    {
      grad, terms := [], [];
    }

    method Param(tag: Label) returns (index: nat)
      modifies this`grad
      ensures grad == old(grad) + [tag] && index == |grad|
    {
      grad := grad + [tag];
      index := |grad|;
    }

    method Params(labels: seq<Label>)
      modifies this`grad
      ensures grad == old(grad) + labels
    {
      for t := 0 to |labels|
        invariant grad == old(grad) + labels[..t]
      {
        var _ := Param(labels[t]);
        assert labels[..t + 1] == labels[..t] + [labels[t]];
      }
    }
  }

  class Sink {
    const model: Model
    /** Reads go through the result array of a function. */
    const inFunction: bool
    var labels: seq<Label>
    /** Every store into the result array, in program order. */
    ghost var stores: seq<Read>

    ghost predicate Valid()
      reads this
    {
      Matched(labels, stores)
    }

    constructor (model: Model, inFunction: bool)
      ensures Valid() && this.model == model && this.inFunction == inFunction && labels == []
    {
      this.model, this.inFunction := model, inFunction;
      labels, stores := [], [];
    }

    method Scalar(name: string)
      requires Valid() && model.Valid()
      modifies this, model
      ensures Valid() && model.Valid()
      ensures if inFunction then labels == old(labels) + [Whole(name)] && model.grad == old(model.grad)
              else model.grad == old(model.grad) + [Whole(name)] && labels == old(labels)
    {
      if inFunction {
        ScalarMatches(name);
        AppendMatches(labels, stores, [Whole(name)], [Read(1, Expression(name))]);
        stores := stores + Shifted([Read(1, Expression(name))], |labels|);
        labels := labels + [Whole(name)];
      } else {
        ScalarMatches(name);
        AppendMatches(model.grad, model.terms, [Whole(name)], [Read(1, Expression(name))]);
        model.terms := model.terms + Shifted([Read(1, Expression(name))], |model.grad|);
        var _ := model.Param(Whole(name));
      }
    }

    /** Room for n values and a fill that puts values at the positions in order. The labels come first and
        the fill afterwards, so the base is the length before the labels. Labels and reads stay matched
        exactly when the fill uses every position 1 to n once. */
    method Cells(name: string, n: nat, order: seq<nat>)
      requires Valid() && model.Valid()
      modifies this, model
      ensures Valid() && model.Valid() <==> Permutation(order, n)
      ensures if inFunction then labels == old(labels) + Parts(name, n) && model.grad == old(model.grad)
              else model.grad == old(model.grad) + Parts(name, n) && labels == old(labels)
    {
      PutsMatch(name, n, order);
      if inFunction {
        AppendMatches(labels, stores, Parts(name, n), Puts(name, order));
        var base := |labels|;
        labels := labels + Parts(name, n);
        stores := stores + Shifted(Puts(name, order), base);
      } else {
        AppendMatches(model.grad, model.terms, Parts(name, n), Puts(name, order));
        var base := |model.grad|;
        model.Params(Parts(name, n));
        model.terms := model.terms + Shifted(Puts(name, order), base);
      }
    }

    /** The usual fill: a loop nest over dims, which always matches its room. */
    method CellsOf(name: string, dims: seq<nat>)
      requires Valid() && model.Valid()
      modifies this, model
      ensures Valid() && model.Valid()
      ensures if inFunction then labels == old(labels) + Parts(name, Product(dims)) && model.grad == old(model.grad)
              else model.grad == old(model.grad) + Parts(name, Product(dims)) && labels == old(labels)
    {
      var order := LoopOrder(dims);
      Cells(name, Product(dims), order);
    }

    /** A function case ends: its labels become parameters and one loop multiplies its results with them. */
    method Close()
      requires Valid() && model.Valid() && inFunction
      modifies model
      ensures model.Valid() && model.grad == old(model.grad) + labels
    {
      AppendMatches(model.grad, model.terms, labels, stores);
      var base := |model.grad|;
      model.Params(labels);
      model.terms := model.terms + Shifted(stores, base);
    }
  }
}
