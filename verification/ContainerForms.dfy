/** The write forms of the container grid, the values they store and the positions of the cells. */
module ContainerForms {
  import opened Arithmetic
  import opened ContainerFlow

  datatype Form = Lit | Assigned | Loop | Row | RowSlice | ColSlice | Prefix2 | MidSlice | Range | Multi

  predicate Applicable(form: Form, dims: seq<nat>) {
    && |dims| >= 1 && dims[0] >= 1
    && match form
       case Row => |dims| >= 2
       case RowSlice => |dims| >= 2
       case ColSlice => |dims| >= 2
       case Prefix2 => |dims| >= 3
       case MidSlice => |dims| >= 3
       case Multi => 2 <= dims[0] <= 4
       case _ => true
  }

  function FirstPerm(n: nat): seq<nat>
    requires 2 <= n <= 4
  {
    if n == 2 then [2, 1] else if n == 3 then [3, 1, 2] else [3, 1, 4, 2]
  }

  /** All (i, j) with i in 1..n and j in 1..m, rows first. */
  function Pairs(n: nat, m: nat): seq<(nat, nat)> {
    if n == 0 then [] else Pairs(n - 1, m) + RowOf(n, m)
  }

  function RowOf(i: nat, m: nat): (r: seq<(nat, nat)>)
    ensures |r| == m && forall j :: 0 <= j < m ==> r[j] == (i, j + 1)
  {
    seq(m, j requires 0 <= j => (i, j + 1))
  }

  lemma {:induction false} PairsLength(n: nat, m: nat)
    ensures |Pairs(n, m)| == n * m
  {
    if n > 0 {
      PairsLength(n - 1, m);
      assert n * m == (n - 1) * m + m;
    }
  }

  /** Pairs come row by row. */
  lemma {:induction false} PairAt(n: nat, m: nat, i: nat, j: nat, at: nat)
    requires 1 <= i <= n && 1 <= j <= m && at == (i - 1) * m + (j - 1)
    ensures at < |Pairs(n, m)| && Pairs(n, m)[at] == (i, j)
    decreases n
  {
    PairsLength(n - 1, m);
    if i < n {
      PairAt(n - 1, m, i, j, at);
    }
  }

  lemma PairIs(n: nat, m: nat, k: nat) returns (i: nat, j: nat)
    requires k < |Pairs(n, m)|
    ensures 1 <= i <= n && 1 <= j <= m && k == (i - 1) * m + (j - 1) && Pairs(n, m)[k] == (i, j)
  {
    PairsLength(n, m);
    QuotientBound(k, n, m);
    var q, r := Decompose(k, m);
    i, j := q + 1, r + 1;
    PairAt(n, m, i, j, k);
  }

  /** The slice assignments of a form, in order; a loop nest has none. */
  function Slices(form: Form, dims: seq<nat>): seq<Slice>
    requires Applicable(form, dims)
  {
    match form
    case Lit => [Slice([], [])]
    case Assigned => [Slice([], [])]
    case Loop => []
    case Row => seq(dims[0], i requires 0 <= i => Slice([One(i + 1)], [One(i + 1)]))
    case RowSlice => seq(dims[0], i requires 0 <= i => Slice([One(i + 1), Every], [One(i + 1)]))
    case ColSlice => seq(dims[1], j requires 0 <= j => Slice([Every, One(j + 1)], [Every, One(j + 1)]))
    case Prefix2 =>
      var p := Pairs(dims[0], dims[1]);
      seq(|p|, k requires 0 <= k < |p| => Slice([One(p[k].0), One(p[k].1)], [One(p[k].0), One(p[k].1)]))
    case MidSlice =>
      var p := Pairs(dims[0], dims[2]);
      seq(|p|, k requires 0 <= k < |p| => Slice([One(p[k].0), Every, One(p[k].1)], [One(p[k].0), Every, One(p[k].1)]))
    case Range =>
      var rest := seq(dims[0] - 1, i requires 0 <= i => i + 2);
      [Slice([Many(rest)], [Many(rest)]), Slice([Many([1])], [Many([1])])]
    case Multi => [Slice([Many(FirstPerm(dims[0]))], [Many(FirstPerm(dims[0]))])]
  }

  // ---------------------------------------------------------------- the loop nest

  function Nest<V>(dims: seq<nat>, prefix: Cell, x: map<Cell, V>, val: Cell -> V): map<Cell, V>
    requires |prefix| <= |dims|
    decreases |dims| - |prefix|, 0
  {
    if |prefix| == |dims| then x[prefix := val(prefix)] else NestUpTo(dims, prefix, x, val, dims[|prefix|])
  }

  function NestUpTo<V>(dims: seq<nat>, prefix: Cell, x: map<Cell, V>, val: Cell -> V, n: nat): map<Cell, V>
    requires |prefix| < |dims|
    decreases |dims| - |prefix| - 1, n + 1
  {
    if n == 0 then x else Nest(dims, prefix + [n], NestUpTo(dims, prefix, x, val, n - 1), val)
  }

  /** The loops assign what the whole literal assigns. */
  lemma {:induction false} NestIsAssign<V>(dims: seq<nat>, prefix: Cell, x: map<Cell, V>, val: Cell -> V)
    requires |prefix| <= |dims|
    ensures var axes := View(dims, [])[|prefix|..];
            Proper(axes) && Nest(dims, prefix, x, val) == Assign(x, prefix, axes, Walked(axes, prefix, val))
    decreases |dims| - |prefix|, 0
  {
    var axes := View(dims, [])[|prefix|..];
    if |prefix| < |dims| {
      assert axes[0] == AxisOf(Every, dims[|prefix|]);
      NestItems(dims, prefix, x, val, dims[|prefix|]);
    }
  }

  lemma {:induction false} NestItems<V>(dims: seq<nat>, prefix: Cell, x: map<Cell, V>, val: Cell -> V, n: nat)
    requires |prefix| < |dims| && n <= dims[|prefix|]
    ensures var axes := View(dims, [])[|prefix|..];
            && axes[0].kept && Proper(axes)
            && NestUpTo(dims, prefix, x, val, n) == AssignItems(x, prefix, axes, Walked(axes, prefix, val), n)
    decreases |dims| - |prefix| - 1, n + 1
  {
    var axes := View(dims, [])[|prefix|..];
    if n > 0 {
      NestItems(dims, prefix, x, val, n - 1);
      LastItem(x, prefix, axes, val, n);
      assert axes[0].list[n - 1] == n;
      assert axes[1..] == View(dims, [])[|prefix + [n]|..];
      NestIsAssign(dims, prefix + [n], NestUpTo(dims, prefix, x, val, n - 1), val);
    }
  }

  // ---------------------------------------------------------------- every form, every cell

  lemma SlicesAreGood(form: Form, dims: seq<nat>)
    requires Applicable(form, dims)
    ensures forall k :: 0 <= k < |Slices(form, dims)| ==> GoodSlice(dims, Slices(form, dims)[k])
  { }

  function Run<V>(form: Form, dims: seq<nat>, x: map<Cell, V>, val: Cell -> V): map<Cell, V>
    requires Applicable(form, dims)
  {
    SlicesAreGood(form, dims);
    if form.Loop? then Nest(dims, [], x, val) else PerformAll(dims, x, Slices(form, dims), val)
  }

  lemma SelectsCells(dims: seq<nat>, c: Cell)
    ensures Selects(View(dims, []), c) <==> IsCell(dims, c)
  {
    if IsCell(dims, c) {
      forall d | 0 <= d < |dims| ensures c[d] in Count(dims[d]) {
        assert Count(dims[d])[c[d] - 1] == c[d];
      }
    }
  }

  /** A slice within bounds touches exactly the cells that agree with its fixed indices. */
  ghost predicate Agrees(dims: seq<nat>, specs: seq<Index>, c: Cell)
    requires |specs| <= |dims|
  {
    IsCell(dims, c) && forall d :: 0 <= d < |specs| ==>
      match specs[d] case One(i) => c[d] == i case Every => true case Many(list) => c[d] in list
  }

  ghost predicate InBounds(dims: seq<nat>, specs: seq<Index>) {
    |specs| <= |dims| && forall d :: 0 <= d < |specs| ==>
      match specs[d]
      case One(i) => 1 <= i <= dims[d]
      case Every => true
      case Many(list) => forall k :: 0 <= k < |list| ==> 1 <= list[k] <= dims[d]
  }

  lemma TouchesAgreeing(dims: seq<nat>, s: Slice, c: Cell)
    requires GoodSlice(dims, s) && InBounds(dims, s.lhs)
    ensures Touches(dims, s, c) <==> Agrees(dims, s.lhs, c)
  {
    var axes := View(dims, s.lhs);
    if Agrees(dims, s.lhs, c) {
      forall d | 0 <= d < |dims| ensures c[d] in axes[d].list {
        assert Count(dims[d])[c[d] - 1] == c[d];
      }
    }
    if Touches(dims, s, c) {
      forall d | 0 <= d < |dims| ensures 1 <= c[d] <= dims[d] {
        assert c[d] in axes[d].list;
      }
    }
  }

  lemma SlicesInBounds(form: Form, dims: seq<nat>)
    requires Applicable(form, dims)
    ensures forall k :: 0 <= k < |Slices(form, dims)| ==> InBounds(dims, Slices(form, dims)[k].lhs)
  {
    if form.Prefix2? || form.MidSlice? {
      var m := if form.Prefix2? then dims[1] else dims[2];
      forall k | 0 <= k < |Pairs(dims[0], m)| ensures InBounds(dims, Slices(form, dims)[k].lhs) {
        var i, j := PairIs(dims[0], m, k);
      }
    }
  }

  lemma WriterIsStatement(form: Form, dims: seq<nat>, c: Cell)
    requires Applicable(form, dims) && !form.Loop? && IsCell(dims, c)
    ensures Writer(form, dims, c) < |Slices(form, dims)|
  {
    if form.Prefix2? {
      PairAt(dims[0], dims[1], c[0], c[1], Writer(form, dims, c));
    } else if form.MidSlice? {
      PairAt(dims[0], dims[2], c[0], c[2], Writer(form, dims, c));
    }
  }

  lemma HitsAreCells(form: Form, dims: seq<nat>, c: Cell)
    requires Applicable(form, dims) && !form.Loop?
    ensures Hit(dims, Slices(form, dims), c) <==> IsCell(dims, c)
  {
    var slices := Slices(form, dims);
    SlicesAreGood(form, dims);
    SlicesInBounds(form, dims);
    if IsCell(dims, c) {
      var k := Writer(form, dims, c);
      WriterIsStatement(form, dims, c);
      AgreesIffWriter(form, dims, k, c);
      TouchesAgreeing(dims, slices[k], c);
    }
    if k :| 0 <= k < |slices| && Touches(dims, slices[k], c) {
      TouchesAgreeing(dims, slices[k], c);
    }
  }

  /** The number of assignment statements of a form. */
  function Statements(form: Form, dims: seq<nat>): nat
    requires Applicable(form, dims)
  {
    match form
    case Lit => 1
    case Assigned => 1
    case Loop => 0
    case Row => dims[0]
    case RowSlice => dims[0]
    case ColSlice => dims[1]
    case Prefix2 => dims[0] * dims[1]
    case MidSlice => dims[0] * dims[2]
    case Range => 2
    case Multi => 1
  }

  /** Which statement of a form writes a cell, counted from 0. */
  function Writer(form: Form, dims: seq<nat>, c: Cell): nat
    requires Applicable(form, dims) && IsCell(dims, c) && !form.Loop?
  {
    match form
    case Row => c[0] - 1
    case RowSlice => c[0] - 1
    case ColSlice => c[1] - 1
    case Prefix2 => (c[0] - 1) * dims[1] + (c[1] - 1)
    case MidSlice => (c[0] - 1) * dims[2] + (c[2] - 1)
    case Range => if c[0] == 1 then 1 else 0
    case _ => 0
  }

  /** Every cell is written by one statement only, and which one tells the forms apart. */
  lemma StatementWrites(form: Form, dims: seq<nat>, k: nat, c: Cell)
    requires Applicable(form, dims) && !form.Loop? && k < |Slices(form, dims)|
    ensures Touches(dims, Slices(form, dims)[k], c) <==> IsCell(dims, c) && Writer(form, dims, c) == k
  {
    SlicesAreGood(form, dims);
    SlicesInBounds(form, dims);
    TouchesAgreeing(dims, Slices(form, dims)[k], c);
    if IsCell(dims, c) {
      AgreesIffWriter(form, dims, k, c);
    }
  }

  lemma AgreesIffWriter(form: Form, dims: seq<nat>, k: nat, c: Cell)
    requires Applicable(form, dims) && !form.Loop? && k < |Slices(form, dims)| && IsCell(dims, c)
    requires |Slices(form, dims)[k].lhs| <= |dims|
    ensures Agrees(dims, Slices(form, dims)[k].lhs, c) <==> Writer(form, dims, c) == k
  {
    match form
    case Prefix2 => PrefixWriter(dims, k, c);
    case MidSlice => MiddleWriter(dims, k, c);
    case Range => RangeWriter(dims, k, c);
    case Multi =>
      PermMoves(dims[0], c[0]);
      assert Slices(form, dims)[k].lhs == [Many(FirstPerm(dims[0]))];
    case _ =>
  }

  lemma PrefixWriter(dims: seq<nat>, k: nat, c: Cell)
    requires Applicable(Prefix2, dims) && k < |Slices(Prefix2, dims)| && IsCell(dims, c)
    ensures Agrees(dims, Slices(Prefix2, dims)[k].lhs, c) <==> Writer(Prefix2, dims, c) == k
  {
    PairWriter(dims[0], dims[1], k, c[0], c[1]);
    var p := Pairs(dims[0], dims[1])[k];
    assert Slices(Prefix2, dims)[k].lhs == [One(p.0), One(p.1)];
  }

  lemma MiddleWriter(dims: seq<nat>, k: nat, c: Cell)
    requires Applicable(MidSlice, dims) && k < |Slices(MidSlice, dims)| && IsCell(dims, c)
    ensures Agrees(dims, Slices(MidSlice, dims)[k].lhs, c) <==> Writer(MidSlice, dims, c) == k
  {
    PairWriter(dims[0], dims[2], k, c[0], c[2]);
    var p := Pairs(dims[0], dims[2])[k];
    assert Slices(MidSlice, dims)[k].lhs == [One(p.0), Every, One(p.1)];
  }

  lemma RangeWriter(dims: seq<nat>, k: nat, c: Cell)
    requires Applicable(Range, dims) && k < 2 && IsCell(dims, c)
    ensures Agrees(dims, Slices(Range, dims)[k].lhs, c) <==> Writer(Range, dims, c) == k
  {
    var rest := seq(dims[0] - 1, i requires 0 <= i => i + 2);
    assert c[0] >= 2 ==> rest[c[0] - 2] == c[0];
    assert Slices(Range, dims)[k].lhs == if k == 0 then [Many(rest)] else [Many([1])];
  }

  lemma PairWriter(n: nat, m: nat, k: nat, i: nat, j: nat)
    requires k < |Pairs(n, m)| && 1 <= i <= n && 1 <= j <= m
    ensures Pairs(n, m)[k] == (i, j) <==> (i - 1) * m + (j - 1) == k
  {
    var h, l := PairIs(n, m, k);
    var at := (i - 1) * m + (j - 1);
    PairAt(n, m, i, j, at);
    assert Pairs(n, m)[at] == (i, j);
  }

  /** As many statements as the form announces. */
  lemma StatementCount(form: Form, dims: seq<nat>)
    requires Applicable(form, dims)
    ensures |Slices(form, dims)| == Statements(form, dims)
  {
    if form.Prefix2? || form.MidSlice? {
      PairsLength(dims[0], if form.Prefix2? then dims[1] else dims[2]);
    }
  }

  /** The multi-index form writes the rows in an order that moves every one of them. */
  lemma PermMoves(n: nat, i: nat)
    requires 2 <= n <= 4 && 1 <= i <= n
    ensures |FirstPerm(n)| == n && i in FirstPerm(n) && FirstPerm(n)[i - 1] != i
  { }

  /** Whatever the container held, every form leaves each cell with its own value and no other cell. */
  lemma EveryFormWritesTheTensor<V(!new)>(form: Form, dims: seq<nat>, x: map<Cell, V>, val: Cell -> V)
    requires Applicable(form, dims) && forall c :: c in x ==> IsCell(dims, c)
    ensures var r := Run(form, dims, x, val);
            forall c :: (c in r <==> IsCell(dims, c)) && (c in r ==> r[c] == val(c))
  {
    var r := Run(form, dims, x, val);
    if form.Loop? {
      var axes := View(dims, []);
      assert axes[0..] == axes;
      NestIsAssign(dims, [], x, val);
      AssignWrites(x, [], axes, val);
      forall c ensures Below([], axes, c) <==> IsCell(dims, c) {
        assert c[0..] == c;
        SelectsCells(dims, c);
      }
    } else {
      SlicesAreGood(form, dims);
      AllWritten(dims, x, Slices(form, dims), val);
      forall c ensures Hit(dims, Slices(form, dims), c) <==> IsCell(dims, c) {
        HitsAreCells(form, dims, c);
      }
    }
  }

  // ---------------------------------------------------------------- canonical values

  function Pow10(n: nat): (r: nat)
    ensures r >= 1
  {
    if n == 0 then 1 else 10 * Pow10(n - 1)
  }

  /** Place value of index d: hundreds, tens, ones up to rank 3, then one decimal digit per index. */
  function Coef(rank: nat, d: nat): nat
    requires d < rank
  {
    Pow10((if rank <= 3 then 2 else rank - 1) - d)
  }

  function Canonical(c: Cell): nat {
    DigitSum(c, |c|)
  }

  function DigitSum(c: Cell, n: nat): nat
    requires n <= |c|
  {
    if n == 0 then 0 else DigitSum(c, n - 1) + c[n - 1] * Coef(|c|, n - 1)
  }

  /** The decimal number with digits c. */
  function Decimal(c: Cell, n: nat): nat
    requires n <= |c|
  {
    if n == 0 then 0 else 10 * Decimal(c, n - 1) + c[n - 1]
  }

  lemma {:induction false} DigitsAreDecimal(c: Cell, n: nat)
    requires n <= |c| && n >= 1
    ensures DigitSum(c, n) == Decimal(c, n) * Coef(|c|, n - 1)
  {
    if n > 1 {
      DigitsAreDecimal(c, n - 1);
      assert Coef(|c|, n - 2) == 10 * Coef(|c|, n - 1);
      NextDigit(Decimal(c, n - 1), c[n - 1], Coef(|c|, n - 1));
    }
  }

  lemma NextDigit(front: nat, digit: nat, place: nat)
    ensures front * (10 * place) + digit * place == (10 * front + digit) * place
  { }

  /** 100*i + 10*j + k, and from rank 3 on the number whose digits are the indices. */
  lemma CanonicalIs(c: Cell)
    ensures |c| == 1 ==> Canonical(c) == 100 * c[0]
    ensures |c| == 2 ==> Canonical(c) == 100 * c[0] + 10 * c[1]
    ensures |c| == 3 ==> Canonical(c) == 100 * c[0] + 10 * c[1] + c[2]
    ensures |c| >= 3 ==> Canonical(c) == Decimal(c, |c|)
  {
    assert Pow10(0) == 1 && Pow10(1) == 10 && Pow10(2) == 100;
    if |c| > 0 {
      DigitsAreDecimal(c, |c|);
      assert Decimal(c, 1) == 10 * Decimal(c, 0) + c[0];
      assert |c| >= 2 ==> Decimal(c, 2) == 10 * Decimal(c, 1) + c[1];
      assert |c| >= 3 ==> Decimal(c, 3) == 10 * Decimal(c, 2) + c[2];
    }
  }

  lemma {:induction false} DecimalIsInjective(a: Cell, b: Cell, n: nat)
    requires n <= |a| == |b| && (forall d :: 1 <= d < n ==> 1 <= a[d] <= 10 && 1 <= b[d] <= 10)
    requires Decimal(a, n) == Decimal(b, n)
    ensures forall d :: 0 <= d < n ==> a[d] == b[d]
  {
    if n > 1 {
      assert a[n - 1] == b[n - 1];
      DecimalIsInjective(a, b, n - 1);
    }
  }

  ghost predicate AllDistinct(dims: seq<nat>) {
    forall a, b :: IsCell(dims, a) && IsCell(dims, b) && Canonical(a) == Canonical(b) ==> a == b
  }

  /** Ten is still distinct: indices start at 1, so 10 is the digit a decimal place has no zero for. */
  lemma CellsAreDistinct(dims: seq<nat>)
    requires forall d :: 1 <= d < |dims| ==> dims[d] <= 10
    ensures AllDistinct(dims)
  {
    forall a, b | IsCell(dims, a) && IsCell(dims, b) && Canonical(a) == Canonical(b) ensures a == b {
      if |dims| >= 1 {
        DigitsAreDecimal(a, |a|);
        DigitsAreDecimal(b, |b|);
        SameProduct(Decimal(a, |a|), Decimal(b, |b|), Coef(|dims|, |dims| - 1));
        DecimalIsInjective(a, b, |a|);
      }
    }
  }

  function Ones(n: nat): (c: Cell)
    ensures |c| == n && forall d :: 0 <= d < n ==> c[d] == 1
  {
    seq(n, _ => 1)
  }

  lemma {:induction false} OneDigitMore(c: Cell, d: nat, v: nat, n: nat)
    requires d < |c| && n <= |c|
    ensures DigitSum(c[d := c[d] + v], n) == DigitSum(c, n) + if d < n then v * Coef(|c|, d) else 0
  {
    if n > 0 {
      OneDigitMore(c, d, v, n - 1);
      if d == n - 1 {
        assert (c[d] + v) * Coef(|c|, d) == c[d] * Coef(|c|, d) + v * Coef(|c|, d);
      }
    }
  }

  /** An eleventh index carries into the index before it. */
  lemma ElevenCollides(dims: seq<nat>, d: nat)
    requires 1 <= d < |dims| && dims[d] >= 11 && dims[d - 1] >= 2 && forall e :: 0 <= e < |dims| ==> dims[e] >= 1
    ensures !AllDistinct(dims)
  {
    var ones := Ones(|dims|);
    var a, b := ones[d := ones[d] + 10], ones[d - 1 := ones[d - 1] + 1];
    OneDigitMore(ones, d, 10, |dims|);
    OneDigitMore(ones, d - 1, 1, |dims|);
    assert Coef(|dims|, d - 1) == 10 * Coef(|dims|, d);
    assert a[d] == 11 && b[d] == 1;
    assert IsCell(dims, a) && IsCell(dims, b) && Canonical(a) == Canonical(b);
  }

  /** The values tell all cells apart exactly when no index but the first goes beyond 10. */
  lemma DistinctIffAtMostTen(dims: seq<nat>)
    requires forall d :: 0 <= d < |dims| ==> dims[d] >= 2
    ensures AllDistinct(dims) <==> forall d :: 1 <= d < |dims| ==> dims[d] <= 10
  {
    if d :| 1 <= d < |dims| && dims[d] > 10 {
      ElevenCollides(dims, d);
    } else {
      CellsAreDistinct(dims);
    }
  }

  /** Any two forms leave the same container, and a cell holds its canonical value plus the offset. */
  lemma FormsAgree(f: Form, g: Form, dims: seq<nat>, x: map<Cell, real>, off: real)
    requires Applicable(f, dims) && Applicable(g, dims) && forall c :: c in x ==> IsCell(dims, c)
    ensures var val := (c: Cell) => Canonical(c) as real + off;
            Run(f, dims, x, val) == Run(g, dims, x, val)
            && forall c :: IsCell(dims, c) ==>
                 c in Run(f, dims, x, val) && Run(f, dims, x, val)[c] == Canonical(c) as real + off
  {
    var val := (c: Cell) => Canonical(c) as real + off;
    EveryFormWritesTheTensor(f, dims, x, val);
    EveryFormWritesTheTensor(g, dims, x, val);
  }

  // ---------------------------------------------------------------- positions

  function Product(dims: seq<nat>): nat {
    if dims == [] then 1 else Product(dims[..|dims| - 1]) * dims[|dims| - 1]
  }

  /** Row-major position of a cell, from 0. */
  function Offset(dims: seq<nat>, c: Cell): nat
    requires IsCell(dims, c)
    decreases |dims|
  {
    if dims == [] then 0 else
      var n := |dims| - 1;
      assert IsCell(dims[..n], c[..n]);
      Offset(dims[..n], c[..n]) * dims[n] + (c[n] - 1)
  }

  /** The fold that the emitted expression computes. */
  method LinExpr(dims: seq<nat>, c: Cell) returns (e: nat)
    requires IsCell(dims, c)
    ensures e == Offset(dims, c) + 1
  {
    if |c| == 0 {
      return 1;
    }
    var acc := c[0] - 1;
    assert dims[..1][..0] == [] && c[..1][..0] == [];
    assert Offset([], []) == 0;
    for k := 1 to |c|
      invariant IsCell(dims[..k], c[..k]) && acc == Offset(dims[..k], c[..k])
    {
      assert dims[..k + 1][..k] == dims[..k] && c[..k + 1][..k] == c[..k];
      acc := acc * dims[k] + c[k] - 1;
    }
    assert dims[..|c|] == dims && c[..|c|] == c;
    return acc + 1;
  }

  /** The cell at a row-major position. */
  function CellAt(dims: seq<nat>, k: nat): (c: Cell)
    requires k < Product(dims)
    ensures IsCell(dims, c)
    decreases |dims|
  {
    if dims == [] then [] else
      var n := |dims| - 1;
      QuotientBound(k, Product(dims[..n]), dims[n]);
      CellAt(dims[..n], k / dims[n]) + [k % dims[n] + 1]
  }

  lemma BelowProduct(q: nat, r: nat, p: nat, m: nat)
    requires q < p && r < m
    ensures q * m + r < p * m && (q * m + r) / m == q && (q * m + r) % m == r
  {
    Mono(q + 1, p, m);
    QuotientIs(q * m + r, m, q, r);
  }

  /** Positions are a bijection from the cells onto 1..product: this direction and the next one. */
  lemma {:induction false} OffsetThenCell(dims: seq<nat>, c: Cell)
    requires IsCell(dims, c)
    ensures Offset(dims, c) < Product(dims) && CellAt(dims, Offset(dims, c)) == c
    decreases |dims|
  {
    if dims != [] {
      var n := |dims| - 1;
      OffsetThenCell(dims[..n], c[..n]);
      BelowProduct(Offset(dims[..n], c[..n]), c[n] - 1, Product(dims[..n]), dims[n]);
      assert c[..n] + [c[n]] == c;
    }
  }

  lemma {:induction false} CellThenOffset(dims: seq<nat>, k: nat)
    requires k < Product(dims)
    ensures Offset(dims, CellAt(dims, k)) == k
    decreases |dims|
  {
    if dims != [] {
      var n := |dims| - 1;
      QuotientBound(k, Product(dims[..n]), dims[n]);
      CellThenOffset(dims[..n], k / dims[n]);
      assert CellAt(dims, k)[..n] == CellAt(dims[..n], k / dims[n]);
    }
  }
}
