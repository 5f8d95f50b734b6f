/** Splitting each child's imports into maximal spans that the child alone reads or shares. */
module ScatterPlan {
  import opened Options
  import opened Team
  import opened Publication

  function Occurrences(cells: seq<Cell>, p: nat): nat {
    if cells == [] then 0
    else (if cells[|cells| - 1].parent == p then 1 else 0) + Occurrences(cells[..|cells| - 1], p)
  }

  lemma {:induction false} PresentOccurs(cells: seq<Cell>, i: nat)
    requires i < |cells|
    ensures Occurrences(cells, cells[i].parent) > 0
  {
    if i < |cells| - 1 {
      PresentOccurs(cells[..|cells| - 1], i);
    }
  }

  /** How many cells of all children together land on parent cell `p`. */
  function Readers(imports: seq<seq<Import>>, p: nat): nat {
    if imports == [] then 0
    else Readers(imports[..|imports| - 1], p) + Occurrences(Spread(imports[|imports| - 1]), p)
  }

  predicate Fits(imports: seq<seq<Import>>, size: nat) {
    forall k :: 0 <= k < |imports| ==> ChildFits(imports[k], size)
  }

  predicate ChildFits(spans: seq<Import>, size: nat) {
    forall i :: 0 <= i < |spans| ==> spans[i].len > 0 ==> spans[i].parent + spans[i].len <= size
  }

  /** The same cells in the same order, each marked exclusive exactly when it has one reader. */
  function Tagged(cells: seq<Cell>, readers: seq<nat>): (r: seq<Cell>)
    requires forall i :: 0 <= i < |cells| ==> cells[i].parent < |readers|
    ensures |r| == |cells|
  {
    seq(|cells|, i requires 0 <= i < |cells| => cells[i].(exclusive := readers[cells[i].parent] == 1))
  }

  lemma {:induction false} OccurrencesAppend(a: seq<Cell>, b: seq<Cell>, p: nat)
    ensures Occurrences(a + b, p) == Occurrences(a, p) + Occurrences(b, p)
  {
    if b == [] {
      assert a + b == a;
    } else {
      var n := |b| - 1;
      assert (a + b)[..|a + b| - 1] == a + b[..n];
      OccurrencesAppend(a, b[..n], p);
    }
  }

  lemma {:induction false} SpreadFits(spans: seq<Import>, size: nat)
    requires ChildFits(spans, size)
    ensures forall i :: 0 <= i < |Spread(spans)| ==> Spread(spans)[i].parent < size
  {
    if spans != [] {
      SpreadFits(spans[..|spans| - 1], size);
    }
  }

  method CountSpan(span: Import, before: seq<nat>) returns (ok: bool, readers: seq<nat>)
    ensures ok <==> (span.len > 0 ==> span.parent + span.len <= |before|)
    ensures ok ==> |readers| == |before|
    ensures ok ==> forall p :: 0 <= p < |before| ==> readers[p] == before[p] + Occurrences(CellsOf(span), p)
  {
    readers := before;
    var cells := CellsOf(span);
    for j := 0 to span.len
      invariant |readers| == |before| && (j > 0 ==> span.parent + j <= |before|)
      invariant forall p :: 0 <= p < |before| ==> readers[p] == before[p] + Occurrences(cells[..j], p)
    {
      if span.parent + j >= |before| { return false, readers; }
      assert cells[..j + 1][..j] == cells[..j];
      readers := readers[span.parent + j := readers[span.parent + j] + 1];
    }
    assert cells[..span.len] == cells;
    ok := true;
  }

  /** One child's contribution to the reader counts; false is `readers.at` running off the end. */
  method CountChild(spans: seq<Import>, before: seq<nat>) returns (ok: bool, readers: seq<nat>)
    ensures ok <==> ChildFits(spans, |before|)
    ensures ok ==> |readers| == |before|
    ensures ok ==> forall p :: 0 <= p < |before| ==> readers[p] == before[p] + Occurrences(Spread(spans), p)
  {
    readers := before;
    for i := 0 to |spans|
      invariant |readers| == |before|
      invariant ChildFits(spans[..i], |before|)
      invariant forall p :: 0 <= p < |before| ==> readers[p] == before[p] + Occurrences(Spread(spans[..i]), p)
    {
      assert spans[..i + 1][..i] == spans[..i];
      var fits, next := CountSpan(spans[i], readers);
      if !fits { return false, readers; }
      forall p | 0 <= p < |before| ensures next[p] == before[p] + Occurrences(Spread(spans[..i + 1]), p) {
        OccurrencesAppend(Spread(spans[..i]), CellsOf(spans[i]), p);
      }
      readers := next;
    }
    assert spans[..|spans|] == spans;
    ok := true;
  }

  method CountReaders(imports: seq<seq<Import>>, size: nat) returns (ok: bool, readers: seq<nat>)
    ensures ok <==> Fits(imports, size)
    ensures ok ==> |readers| == size && forall p :: 0 <= p < size ==> readers[p] == Readers(imports, p)
  {
    readers := seq(size, _ => 0);
    for k := 0 to |imports|
      invariant |readers| == size && Fits(imports[..k], size)
      invariant forall p :: 0 <= p < size ==> readers[p] == Readers(imports[..k], p)
    {
      var fits, next := CountChild(imports[k], readers);
      if !fits { return false, readers; }
      assert imports[..k + 1][..k] == imports[..k];
      readers := next;
    }
    assert imports[..|imports|] == imports;
    ok := true;
  }

  /** No span is empty and no two neighbours could be one. */
  predicate Maximal(spans: seq<Import>) {
    && (forall i :: 0 <= i < |spans| ==> spans[i].len > 0)
    && (forall i :: 0 < i < |spans| ==> spans[i - 1].exclusive != spans[i].exclusive)
  }

  /** One behind the other, the spans cover the first n cells of the import; parent and local parts of each
      are as far apart as in the import. */
  predicate Tiles(span: Import, spans: seq<Import>, n: nat) {
    && (spans == [] <==> n == 0)
    && (forall i :: 0 <= i < |spans| ==> spans[i].parent - spans[i].local == span.parent - span.local)
    && (spans != [] ==>
          && spans[0].parent == span.parent
          && spans[|spans| - 1].parent + spans[|spans| - 1].len == span.parent + n)
    && (forall i :: 0 < i < |spans| ==> spans[i].parent == spans[i - 1].parent + spans[i - 1].len)
  }

  /** The spans cover the first n cells of the import, and the next cell starts a new span. */
  ghost predicate SplitUpTo(span: Import, readers: seq<nat>, spans: seq<Import>, n: nat) {
    && n <= span.len && (span.len > 0 ==> span.parent + span.len <= |readers|)
    && Spread(spans) == Tagged(CellsOf(span)[..n], readers)
    && Maximal(spans) && Tiles(span, spans, n)
    && (0 < n < span.len ==> spans[|spans| - 1].exclusive != (readers[span.parent + n] == 1))
  }

  function Piece(span: Import, readers: seq<nat>, begin: nat, end: nat): Import
    requires begin < end <= span.len && span.parent + span.len <= |readers|
  {
    Import(span.parent + begin, span.local + begin, end - begin, readers[span.parent + begin] == 1)
  }

  lemma TaggedSplits(a: seq<Cell>, b: seq<Cell>, readers: seq<nat>)
    requires forall i :: 0 <= i < |a| ==> a[i].parent < |readers|
    requires forall i :: 0 <= i < |b| ==> b[i].parent < |readers|
    ensures Tagged(a + b, readers) == Tagged(a, readers) + Tagged(b, readers)
  { }

  lemma PieceIsTagged(span: Import, readers: seq<nat>, begin: nat, end: nat)
    requires begin < end <= span.len && span.parent + span.len <= |readers|
    requires forall p :: span.parent + begin <= p < span.parent + end ==>
      (readers[p] == 1) == (readers[span.parent + begin] == 1)
    ensures CellsOf(Piece(span, readers, begin, end)) == Tagged(CellsOf(span)[begin..end], readers)
  { }

  lemma OneMoreTile(span: Import, spans: seq<Import>, begin: nat, piece: Import)
    requires Tiles(span, spans, begin) && piece.len > 0
    requires piece.parent == span.parent + begin && piece.local == span.local + begin
    ensures Tiles(span, spans + [piece], begin + piece.len)
  { }

  lemma OneMoreCells(span: Import, readers: seq<nat>, spans: seq<Import>, begin: nat, end: nat, piece: Import)
    requires begin < end <= span.len && span.parent + span.len <= |readers|
    requires Spread(spans) == Tagged(CellsOf(span)[..begin], readers) && piece == Piece(span, readers, begin, end)
    requires forall p :: span.parent + begin <= p < span.parent + end ==> (readers[p] == 1) == piece.exclusive
    ensures Spread(spans + [piece]) == Tagged(CellsOf(span)[..end], readers)
  {
    var cells := CellsOf(span);
    assert cells[..end] == cells[..begin] + cells[begin..end];
    TaggedSplits(cells[..begin], cells[begin..end], readers);
    PieceIsTagged(span, readers, begin, end);
    SpreadMore(spans, piece);
  }

  lemma OneMoreSpan(span: Import, readers: seq<nat>, spans: seq<Import>, begin: nat, end: nat, piece: Import)
    requires SplitUpTo(span, readers, spans, begin) && begin < end <= span.len
    requires piece == Piece(span, readers, begin, end)
    requires forall p :: span.parent + begin <= p < span.parent + end ==> (readers[p] == 1) == piece.exclusive
    requires end < span.len ==> (readers[span.parent + end] == 1) != piece.exclusive
    ensures SplitUpTo(span, readers, spans + [piece], end)
  {
    OneMoreCells(span, readers, spans, begin, end, piece);
    OneMoreTile(span, spans, begin, piece);
  }

  lemma {:induction false} SpreadMore(spans: seq<Import>, last: Import)
    ensures Spread(spans + [last]) == Spread(spans) + CellsOf(last)
  {
    assert (spans + [last])[..|spans|] == spans;
  }

  method SpanEnd(span: Import, readers: seq<nat>, begin: nat, exclusive: bool) returns (end: nat)
    requires begin < span.len && span.parent + span.len <= |readers| && exclusive == (readers[span.parent + begin] == 1)
    ensures begin < end <= span.len
    ensures forall p :: span.parent + begin <= p < span.parent + end ==> (readers[p] == 1) == exclusive
    ensures end < span.len ==> (readers[span.parent + end] == 1) != exclusive
  {
    end := begin + 1;
    while end < span.len && (readers[span.parent + end] == 1) == exclusive
      invariant begin < end <= span.len
      invariant forall p :: span.parent + begin <= p < span.parent + end ==> (readers[p] == 1) == exclusive
    {
      end := end + 1;
    }
  }

  /** The spans of one import: consecutive, maximal and uniform in how many readers their cells have. */
  method SplitImport(span: Import, readers: seq<nat>) returns (out: seq<Import>)
    requires span.len > 0 ==> span.parent + span.len <= |readers|
    ensures ChildFits([span], |readers|)
    ensures forall i :: 0 <= i < |CellsOf(span)| ==> CellsOf(span)[i].parent < |readers|
    ensures Spread(out) == Tagged(CellsOf(span), readers)
    ensures Maximal(out) && Tiles(span, out, span.len)
  {
    out := [];
    var begin := 0;
    while begin < span.len
      invariant SplitUpTo(span, readers, out, begin)
    {
      var exclusive := readers[span.parent + begin] == 1;
      var end := SpanEnd(span, readers, begin, exclusive);
      var piece := Import(span.parent + begin, span.local + begin, end - begin, exclusive);
      OneMoreSpan(span, readers, out, begin, end, piece);
      out := out + [piece];
      begin := end;
    }
    assert CellsOf(span)[..begin] == CellsOf(span);
  }

  lemma {:induction false} SpreadAppend(a: seq<Import>, b: seq<Import>)
    ensures Spread(a + b) == Spread(a) + Spread(b)
  {
    if b == [] {
      assert a + b == a;
    } else {
      var n := |b| - 1;
      assert (a + b)[..|a + b| - 1] == a + b[..n];
      SpreadAppend(a, b[..n]);
    }
  }

  method SplitChild(spans: seq<Import>, readers: seq<nat>) returns (out: seq<Import>)
    requires ChildFits(spans, |readers|)
    ensures forall i :: 0 <= i < |Spread(spans)| ==> Spread(spans)[i].parent < |readers|
    ensures Spread(out) == Tagged(Spread(spans), readers)
  {
    SpreadFits(spans, |readers|);
    out := [];
    for i := 0 to |spans|
      invariant ChildFits(spans[..i], |readers|)
      invariant forall j :: 0 <= j < |Spread(spans[..i])| ==> Spread(spans[..i])[j].parent < |readers|
      invariant Spread(out) == Tagged(Spread(spans[..i]), readers)
    {
      var pieces := SplitImport(spans[i], readers);
      SpreadAppend(out, pieces);
      assert spans[..i + 1][..i] == spans[..i];
      SpreadFits(spans[..i + 1], |readers|);
      out := out + pieces;
    }
    assert spans[..|spans|] == spans;
  }

  /** `scatter_plan`: None when an import reaches past the parent, else the split plan. */
  method Plan(imports: seq<seq<Import>>, size: nat) returns (r: Option<seq<seq<Import>>>)
    ensures r.Some? <==> Fits(imports, size)
    ensures r.Some? ==> |r.value| == |imports|
    ensures r.Some? ==> forall k :: 0 <= k < |imports| ==> SplitOf(imports, k, r.value[k])
  {
    var ok, readers := CountReaders(imports, size);
    if !ok { return None; }
    var out: seq<seq<Import>> := [];
    for k := 0 to |imports|
      invariant |out| == k
      invariant forall j :: 0 <= j < k ==> SplitOf(imports, j, out[j])
    {
      var split := SplitChild(imports[k], readers);
      out := out + [split];
    }
    r := Some(out);
  }

  /** A split keeps a child's cells in order and marks exactly the cells with one reader. */
  ghost predicate SplitOf(imports: seq<seq<Import>>, k: nat, split: seq<Import>)
    requires k < |imports|
  {
    var whole, parts := Spread(imports[k]), Spread(split);
    && |parts| == |whole|
    && forall i :: 0 <= i < |whole| ==>
         parts[i] == whole[i].(exclusive := Readers(imports, whole[i].parent) == 1)
  }

  lemma {:induction false} ReadersAtLeast(imports: seq<seq<Import>>, k: nat, k': nat, p: nat)
    requires k < k' < |imports|
    ensures Readers(imports, p) >= Occurrences(Spread(imports[k]), p) + Occurrences(Spread(imports[k']), p)
  {
    var n := |imports| - 1;
    if k' < n {
      ReadersAtLeast(imports[..n], k, k', p);
    } else {
      ReadersAtLeastOne(imports[..n], k, p);
    }
  }

  lemma {:induction false} ReadersAtLeastOne(imports: seq<seq<Import>>, k: nat, p: nat)
    requires k < |imports|
    ensures Readers(imports, p) >= Occurrences(Spread(imports[k]), p)
  {
    var n := |imports| - 1;
    if k < n {
      ReadersAtLeastOne(imports[..n], k, p);
    }
  }

  /** The planner meets the only thing publication asks of a plan, also when worker publication is
      switched off and every span is treated as shared. */
  lemma PlannedChildrenAreSound<V>(imports: seq<seq<Import>>, plan: seq<seq<Import>>, children: seq<Child<V>>,
                                   workerPublish: bool)
    requires |plan| == |imports| == |children|
    requires forall k :: 0 <= k < |imports| ==> SplitOf(imports, k, plan[k])
    requires forall k :: 0 <= k < |children| ==> ChildOk(children[k])
    requires forall k :: 0 <= k < |children| ==>
      |children[k].cells| == |Spread(plan[k])| &&
      forall i :: 0 <= i < |children[k].cells| ==>
        children[k].cells[i] == Spread(plan[k])[i].(exclusive := workerPublish && Spread(plan[k])[i].exclusive)
    ensures SoundPlan(children)
  {
    forall k, k', cell | 0 <= k < |children| && 0 <= k' < |children| && k != k'
      ensures var x := Lookup(children[k].cells, cell);
              x.Some? && x.value.exclusive ==> Lookup(children[k'].cells, cell).None?
    {
      var x, y := Lookup(children[k].cells, cell), Lookup(children[k'].cells, cell);
      if x.Some? && x.value.exclusive && y.Some? {
        var i :| 0 <= i < |children[k].cells| && children[k].cells[i] == x.value;
        var i' :| 0 <= i' < |children[k'].cells| && children[k'].cells[i'] == y.value;
        PresentOccurs(Spread(imports[k]), i);
        PresentOccurs(Spread(imports[k']), i');
        ReadersAtLeast(imports, if k < k' then k else k', if k < k' then k' else k, cell);
        assert false;
      }
    }
  }
}
