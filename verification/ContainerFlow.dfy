/** The container grid: every write form of a container must mean the same tensor.

    A view is the index expression of an assignment, axis by axis. The generator builds the literal of a
    view position by position over the kept axes; Stan's assignment walks the axes of the container. The
    two meet in every cell.
*/
module ContainerFlow {
  type Cell = seq<nat>

  datatype Index = One(i: nat) | Every | Many(list: seq<nat>)

  /** One axis of a view: the indices it selects, and whether it survives in the view's shape. */
  datatype Axis = Axis(list: seq<nat>, kept: bool)

  datatype Tensor<V> = Leaf(value: V) | Node(items: seq<Tensor<V>>)

  predicate IsCell(dims: seq<nat>, c: Cell) {
    |c| == |dims| && forall d :: 0 <= d < |dims| ==> 1 <= c[d] <= dims[d]
  }

  // ---------------------------------------------------------------- views and their literals

  function Count(n: nat): (r: seq<nat>)
    ensures |r| == n && forall k :: 0 <= k < n ==> r[k] == k + 1
  {
    seq(n, k requires 0 <= k => k + 1)
  }

  function AxisOf(ix: Index, n: nat): Axis {
    match ix
    case One(i) => Axis([i], false)
    case Every => Axis(Count(n), true)
    case Many(list) => Axis(list, true)
  }

  /** Missing indices select everything. */
  function View(dims: seq<nat>, specs: seq<Index>): (r: seq<Axis>)
    requires |specs| <= |dims|
    ensures |r| == |dims|
    ensures forall d :: 0 <= d < |dims| ==> r[d] == AxisOf(if d < |specs| then specs[d] else Every, dims[d])
  {
    seq(|dims|, d requires 0 <= d < |dims| => AxisOf(if d < |specs| then specs[d] else Every, dims[d]))
  }

  ghost predicate Proper(axes: seq<Axis>) {
    forall d :: 0 <= d < |axes| && !axes[d].kept ==> |axes[d].list| == 1
  }

  function Shape(axes: seq<Axis>): seq<nat> {
    if axes == [] then [] else
      var n := |axes| - 1;
      Shape(axes[..n]) + (if axes[n].kept then [|axes[n].list|] else [])
  }

  /** pos has one index per kept axis, each within its list. */
  predicate IsPos(axes: seq<Axis>, pos: seq<nat>)
    decreases |axes|
  {
    if axes == [] then pos == [] else
      var n := |axes| - 1;
      if axes[n].kept then pos != [] && 1 <= pos[|pos| - 1] <= |axes[n].list| && IsPos(axes[..n], pos[..|pos| - 1])
      else |axes[n].list| == 1 && IsPos(axes[..n], pos)
  }

  /** The container cell of view cell pos: one index of pos per kept axis, in order. */
  function Full(axes: seq<Axis>, pos: seq<nat>): (c: Cell)
    requires IsPos(axes, pos)
    ensures |c| == |axes|
    decreases |axes|
  {
    if axes == [] then [] else
      var n := |axes| - 1;
      if axes[n].kept then Full(axes[..n], pos[..|pos| - 1]) + [axes[n].list[pos[|pos| - 1] - 1]]
      else Full(axes[..n], pos) + [axes[n].list[0]]
  }

  ghost predicate InShape(shape: seq<nat>, prefix: seq<nat>) {
    |prefix| <= |shape| && forall k :: 0 <= k < |prefix| ==> 1 <= prefix[k] <= shape[k]
  }

  lemma {:induction false} ShapeGivesPos(axes: seq<Axis>, pos: seq<nat>)
    requires Proper(axes) && InShape(Shape(axes), pos) && |pos| == |Shape(axes)|
    ensures IsPos(axes, pos)
  {
    if axes != [] {
      var n := |axes| - 1;
      ShapeGivesPos(axes[..n], if axes[n].kept then pos[..|pos| - 1] else pos);
    }
  }

  /** The literal below a partial position. */
  function Literal<V>(axes: seq<Axis>, val: Cell -> V, prefix: seq<nat>): Tensor<V>
    requires Proper(axes) && InShape(Shape(axes), prefix)
    decreases |Shape(axes)| - |prefix|, 1
  {
    if |prefix| == |Shape(axes)| then
      ShapeGivesPos(axes, prefix);
      Leaf(val(Full(axes, prefix)))
    else Node(seq(Shape(axes)[|prefix|], i requires 0 <= i < Shape(axes)[|prefix|] =>
                  LiteralItem(axes, val, prefix, i)))
  }

  function LiteralItem<V>(axes: seq<Axis>, val: Cell -> V, prefix: seq<nat>, i: nat): Tensor<V>
    requires Proper(axes) && InShape(Shape(axes), prefix) && |prefix| < |Shape(axes)| && i < Shape(axes)[|prefix|]
    decreases |Shape(axes)| - |prefix|, 0
  {
    Literal(axes, val, prefix + [i + 1])
  }

  // ---------------------------------------------------------------- Stan's assignment

  ghost predicate Fits<V>(axes: seq<Axis>, rhs: Tensor<V>)
    decreases |axes|
  {
    if axes == [] then rhs.Leaf?
    else if axes[0].kept then
      rhs.Node? && |rhs.items| == |axes[0].list| && forall k :: 0 <= k < |rhs.items| ==> Fits(axes[1..], rhs.items[k])
    else |axes[0].list| == 1 && Fits(axes[1..], rhs)
  }

  /** x[prefix, axes...] = rhs */
  function Assign<V>(x: map<Cell, V>, prefix: Cell, axes: seq<Axis>, rhs: Tensor<V>): map<Cell, V>
    requires Fits(axes, rhs)
    decreases |axes|, 0
  {
    if axes == [] then x[prefix := rhs.value]
    else if axes[0].kept then AssignItems(x, prefix, axes, rhs, |rhs.items|)
    else Assign(x, prefix + [axes[0].list[0]], axes[1..], rhs)
  }

  /** The first n items of the leading axis, in order. */
  function AssignItems<V>(x: map<Cell, V>, prefix: Cell, axes: seq<Axis>, rhs: Tensor<V>, n: nat): map<Cell, V>
    requires Fits(axes, rhs) && axes != [] && axes[0].kept && n <= |rhs.items|
    decreases |axes| - 1, n + 1
  {
    if n == 0 then x
    else Assign(AssignItems(x, prefix, axes, rhs, n - 1), prefix + [axes[0].list[n - 1]], axes[1..], rhs.items[n - 1])
  }

  // ---------------------------------------------------------------- what an assignment selects

  ghost predicate Selects(axes: seq<Axis>, c: Cell) {
    |c| == |axes| && forall d :: 0 <= d < |axes| ==> c[d] in axes[d].list
  }

  /** The literal of the cells below prefix, walked axis by axis. */
  function Walked<V>(axes: seq<Axis>, prefix: Cell, val: Cell -> V): (r: Tensor<V>)
    requires Proper(axes)
    ensures Fits(axes, r)
    decreases |axes|
  {
    if axes == [] then Leaf(val(prefix))
    else if axes[0].kept then
      Node(seq(|axes[0].list|, k requires 0 <= k < |axes[0].list| =>
               Walked(axes[1..], prefix + [axes[0].list[k]], val)))
    else Walked(axes[1..], prefix + [axes[0].list[0]], val)
  }

  /** r is x with every cell prefix + c for selected c set to its value. */
  ghost predicate Wrote<V(!new)>(x: map<Cell, V>, r: map<Cell, V>, prefix: Cell, axes: seq<Axis>, val: Cell -> V) {
    forall c :: (c in r <==> c in x || Below(prefix, axes, c))
      && (c in r ==> r[c] == if Below(prefix, axes, c) then val(c) else x[c])
  }

  ghost predicate Below(prefix: Cell, axes: seq<Axis>, c: Cell) {
    prefix <= c && Selects(axes, c[|prefix|..])
  }

  lemma BelowStep(prefix: Cell, axes: seq<Axis>, c: Cell)
    requires axes != []
    ensures Below(prefix, axes, c) <==>
      exists k :: 0 <= k < |axes[0].list| && Below(prefix + [axes[0].list[k]], axes[1..], c)
  {
    if Below(prefix, axes, c) {
      var s := c[|prefix|..];
      var k :| 0 <= k < |axes[0].list| && axes[0].list[k] == s[0];
      assert c[|prefix| + 1..] == s[1..];
      assert Below(prefix + [axes[0].list[k]], axes[1..], c);
    }
    if k :| 0 <= k < |axes[0].list| && Below(prefix + [axes[0].list[k]], axes[1..], c) {
      var s := c[|prefix|..];
      assert c[|prefix| + 1..] == s[1..];
      assert s[0] == axes[0].list[k];
      forall d | 0 <= d < |axes| ensures s[d] in axes[d].list {
        if d > 0 {
          assert s[1..][d - 1] in axes[1..][d - 1].list;
        }
      }
    }
  }

  lemma {:induction false} AssignWrites<V(!new)>(x: map<Cell, V>, prefix: Cell, axes: seq<Axis>, val: Cell -> V)
    requires Proper(axes)
    ensures Wrote(x, Assign(x, prefix, axes, Walked(axes, prefix, val)), prefix, axes, val)
    decreases |axes|, 0
  {
    forall c ensures axes == [] ==> (Below(prefix, axes, c) <==> c == prefix) {
      if axes == [] && Below(prefix, axes, c) {
        assert c == prefix + c[|prefix|..];
      }
    }
    if axes != [] {
      forall c ensures Below(prefix, axes, c) <==>
          exists k :: 0 <= k < |axes[0].list| && Below(prefix + [axes[0].list[k]], axes[1..], c) {
        BelowStep(prefix, axes, c);
      }
      if axes[0].kept {
        ItemsWrite(x, prefix, axes, val, |axes[0].list|);
      } else {
        AssignWrites(x, prefix + [axes[0].list[0]], axes[1..], val);
      }
    }
  }

  ghost predicate BelowFirst(prefix: Cell, axes: seq<Axis>, n: nat, c: Cell)
    requires axes != [] && n <= |axes[0].list|
  {
    exists k :: 0 <= k < n && Below(prefix + [axes[0].list[k]], axes[1..], c)
  }

  /** The last of the first n items is the walked literal of its own cells. */
  lemma LastItem<V>(x: map<Cell, V>, prefix: Cell, axes: seq<Axis>, val: Cell -> V, n: nat)
    requires Proper(axes) && axes != [] && axes[0].kept && 0 < n <= |axes[0].list|
    ensures var next := prefix + [axes[0].list[n - 1]];
            AssignItems(x, prefix, axes, Walked(axes, prefix, val), n) ==
            Assign(AssignItems(x, prefix, axes, Walked(axes, prefix, val), n - 1), next, axes[1..],
                   Walked(axes[1..], next, val))
  { }

  ghost predicate WroteItems<V(!new)>(x: map<Cell, V>, r: map<Cell, V>, prefix: Cell, axes: seq<Axis>,
                                       val: Cell -> V, n: nat)
    requires axes != [] && n <= |axes[0].list|
  {
    forall c :: (c in r <==> c in x || BelowFirst(prefix, axes, n, c))
      && (c in r ==> r[c] == if BelowFirst(prefix, axes, n, c) then val(c) else x[c])
  }

  lemma ItemsStep<V(!new)>(x: map<Cell, V>, before: map<Cell, V>, r: map<Cell, V>, prefix: Cell, axes: seq<Axis>,
                           val: Cell -> V, n: nat)
    requires axes != [] && 0 < n <= |axes[0].list| && WroteItems(x, before, prefix, axes, val, n - 1)
    requires Wrote(before, r, prefix + [axes[0].list[n - 1]], axes[1..], val)
    ensures WroteItems(x, r, prefix, axes, val, n)
  {
    forall c ensures BelowFirst(prefix, axes, n, c) <==>
        BelowFirst(prefix, axes, n - 1, c) || Below(prefix + [axes[0].list[n - 1]], axes[1..], c) { }
  }

  lemma {:induction false} ItemsWrite<V(!new)>(x: map<Cell, V>, prefix: Cell, axes: seq<Axis>, val: Cell -> V, n: nat)
    requires Proper(axes) && axes != [] && axes[0].kept && n <= |axes[0].list|
    ensures WroteItems(x, AssignItems(x, prefix, axes, Walked(axes, prefix, val), n), prefix, axes, val, n)
    decreases |axes| - 1, n + 1
  {
    if n > 0 {
      ItemsWrite(x, prefix, axes, val, n - 1);
      LastItem(x, prefix, axes, val, n);
      var before := AssignItems(x, prefix, axes, Walked(axes, prefix, val), n - 1);
      var next := prefix + [axes[0].list[n - 1]];
      AssignWrites(before, next, axes[1..], val);
      ItemsStep(x, before, Assign(before, next, axes[1..], Walked(axes[1..], next, val)), prefix, axes, val, n);
    }
  }

  // ---------------------------------------------------------------- the two constructions agree

  lemma {:induction false} ShapeSplits(a: seq<Axis>, b: seq<Axis>)
    ensures Shape(a + b) == Shape(a) + Shape(b)
  {
    if b == [] {
      assert a + b == a;
    } else {
      assert (a + b)[..|a + b| - 1] == a + b[..|b| - 1];
      ShapeSplits(a, b[..|b| - 1]);
    }
  }

  /** One more axis; if it is kept, one more index. */
  lemma FullSplits(a: seq<Axis>, last: Axis, pos: seq<nat>, more: nat)
    requires IsPos(a, pos) && if last.kept then 1 <= more <= |last.list| else |last.list| == 1
    ensures var longer := if last.kept then pos + [more] else pos;
            IsPos(a + [last], longer) &&
            Full(a + [last], longer) == Full(a, pos) + [if last.kept then last.list[more - 1] else last.list[0]]
  {
    assert (a + [last])[..|a|] == a;
    assert (pos + [more])[..|pos|] == pos;
  }

  lemma {:induction false} PosGivesShape(axes: seq<Axis>, pos: seq<nat>)
    requires IsPos(axes, pos)
    ensures InShape(Shape(axes), pos) && |pos| == |Shape(axes)|
  {
    if axes != [] {
      var n := |axes| - 1;
      PosGivesShape(axes[..n], if axes[n].kept then pos[..|pos| - 1] else pos);
    }
  }

  lemma ShapeAt(a: seq<Axis>, b: seq<Axis>, pos: seq<nat>)
    requires IsPos(a, pos)
    ensures InShape(Shape(a + b), pos)
    ensures b != [] && b[0].kept ==> |pos| < |Shape(a + b)| && Shape(a + b)[|pos|] == |b[0].list|
  {
    PosGivesShape(a, pos);
    ShapeSplits(a, b);
    if b != [] && b[0].kept {
      assert b == [b[0]] + b[1..];
      ShapeSplits([b[0]], b[1..]);
    }
  }

  /** The literal built by position is the literal walked axis by axis. */
  lemma {:induction false} LiteralIsWalked<V>(a: seq<Axis>, b: seq<Axis>, pos: seq<nat>, val: Cell -> V)
    requires Proper(a + b) && Proper(b) && IsPos(a, pos)
    ensures InShape(Shape(a + b), pos)
    ensures Literal(a + b, val, pos) == Walked(b, Full(a, pos), val)
    decreases |b|
  {
    ShapeAt(a, b, pos);
    if b == [] {
      assert a + b == a;
      PosGivesShape(a, pos);
    } else if b[0].kept {
      forall i | 0 <= i < |b[0].list|
        ensures LiteralItem(a + b, val, pos, i) == Walked(b[1..], Full(a, pos) + [b[0].list[i]], val)
      {
        OneAxisOn(a, b, pos, i + 1, val);
        assert LiteralItem(a + b, val, pos, i) == Literal(a + b, val, pos + [i + 1]);
      }
      KeptAxis(a + b, pos, b, Full(a, pos), val);
    } else {
      OneAxisOn(a, b, pos, 0, val);
    }
  }

  lemma KeptAxis<V>(axes: seq<Axis>, pos: seq<nat>, b: seq<Axis>, prefix: Cell, val: Cell -> V)
    requires Proper(axes) && Proper(b) && b != [] && b[0].kept
    requires InShape(Shape(axes), pos) && |pos| < |Shape(axes)| && Shape(axes)[|pos|] == |b[0].list|
    requires forall i :: 0 <= i < |b[0].list| ==>
      LiteralItem(axes, val, pos, i) == Walked(b[1..], prefix + [b[0].list[i]], val)
    ensures Literal(axes, val, pos) == Walked(b, prefix, val)
  { }

  lemma {:induction false} OneAxisOn<V>(a: seq<Axis>, b: seq<Axis>, pos: seq<nat>, more: nat, val: Cell -> V)
    requires Proper(a + b) && Proper(b) && IsPos(a, pos) && b != [] && (b[0].kept ==> 1 <= more <= |b[0].list|)
    ensures var longer := if b[0].kept then pos + [more] else pos;
            InShape(Shape(a + b), longer) &&
            Literal(a + b, val, longer) ==
              Walked(b[1..], Full(a, pos) + [if b[0].kept then b[0].list[more - 1] else b[0].list[0]], val)
    decreases |b|, 0
  {
    assert a + [b[0]] + b[1..] == a + b;
    FullSplits(a, b[0], pos, more);
    LiteralIsWalked(a + [b[0]], b[1..], if b[0].kept then pos + [more] else pos, val);
  }

  // ---------------------------------------------------------------- statements

  /** x[lhs] = the literal of a view; `View` is built once for the left and once for the right side. */
  datatype Slice = Slice(lhs: seq<Index>, view: seq<Index>)

  ghost predicate GoodSlice(dims: seq<nat>, s: Slice) {
    |s.lhs| <= |dims| && |s.view| <= |dims| && View(dims, s.lhs) == View(dims, s.view)
  }

  lemma ViewsAreProper(dims: seq<nat>, specs: seq<Index>)
    requires |specs| <= |dims|
    ensures Proper(View(dims, specs))
  { }

  lemma LiteralFits<V>(axes: seq<Axis>, val: Cell -> V)
    requires Proper(axes)
    ensures Literal(axes, val, []) == Walked(axes, [], val)
  {
    assert [] + axes == axes;
    LiteralIsWalked([], axes, [], val);
  }

  function Perform<V>(dims: seq<nat>, x: map<Cell, V>, s: Slice, val: Cell -> V): map<Cell, V>
    requires GoodSlice(dims, s)
  {
    ViewsAreProper(dims, s.view);
    LiteralFits(View(dims, s.view), val);
    Assign(x, [], View(dims, s.lhs), Literal(View(dims, s.view), val, []))
  }

  function PerformAll<V>(dims: seq<nat>, x: map<Cell, V>, slices: seq<Slice>, val: Cell -> V): map<Cell, V>
    requires forall i :: 0 <= i < |slices| ==> GoodSlice(dims, slices[i])
  {
    if slices == [] then x
    else Perform(dims, PerformAll(dims, x, slices[..|slices| - 1], val), slices[|slices| - 1], val)
  }

  ghost predicate Touches(dims: seq<nat>, s: Slice, c: Cell) {
    GoodSlice(dims, s) && Selects(View(dims, s.lhs), c)
  }

  ghost predicate Hit(dims: seq<nat>, slices: seq<Slice>, c: Cell) {
    exists i :: 0 <= i < |slices| && Touches(dims, slices[i], c)
  }

  lemma Performed<V(!new)>(dims: seq<nat>, x: map<Cell, V>, s: Slice, val: Cell -> V)
    requires GoodSlice(dims, s)
    ensures var r := Perform(dims, x, s, val);
            forall c :: (c in r <==> c in x || Touches(dims, s, c))
              && (c in r ==> r[c] == if Touches(dims, s, c) then val(c) else x[c])
  {
    var axes := View(dims, s.lhs);
    LiteralFits(axes, val);
    AssignWrites(x, [], axes, val);
    forall c ensures Below([], axes, c) <==> Touches(dims, s, c) {
      assert c[0..] == c;
    }
  }

  lemma HitLast(dims: seq<nat>, slices: seq<Slice>, c: Cell)
    requires slices != []
    ensures Hit(dims, slices, c) <==> Hit(dims, slices[..|slices| - 1], c) || Touches(dims, slices[|slices| - 1], c)
  {
    var n := |slices| - 1;
    if i :| 0 <= i < |slices| && Touches(dims, slices[i], c) {
      assert i < n ==> Touches(dims, slices[..n][i], c);
    }
    if i :| 0 <= i < n && Touches(dims, slices[..n][i], c) {
      assert Touches(dims, slices[i], c);
    }
  }

  lemma {:induction false} AllWritten<V(!new)>(dims: seq<nat>, x: map<Cell, V>, slices: seq<Slice>, val: Cell -> V)
    requires forall i :: 0 <= i < |slices| ==> GoodSlice(dims, slices[i])
    ensures var r := PerformAll(dims, x, slices, val);
            forall c :: (c in r <==> c in x || Hit(dims, slices, c))
              && (c in r ==> r[c] == if Hit(dims, slices, c) then val(c) else x[c])
  {
    if slices != [] {
      var n := |slices| - 1;
      AllWritten(dims, x, slices[..n], val);
      Performed(dims, PerformAll(dims, x, slices[..n], val), slices[n], val);
      forall c ensures Hit(dims, slices, c) <==> Hit(dims, slices[..n], c) || Touches(dims, slices[n], c) {
        HitLast(dims, slices, c);
      }
    }
  }
}
