/** Four ways to run one op table over shared memory, with inputs and outputs aliased at will. */
module Dispatch {
  /** The arithmetic is arbitrary, so nothing depends on rounding. */
  datatype Arith<!V> = Arith(add: (V, V) -> V, mul: (V, V) -> V, sub: (V, V) -> V, neg: V -> V)

  datatype Ctx = Ctx(a: nat, b: nat, out: nat)

  /** Kinds 0 to 2 are binary; every other kind negates. */
  datatype Op = Op(kind: nat, ctx: Ctx)

  ghost predicate Fits(prog: seq<Op>, cells: nat) {
    forall i :: 0 <= i < |prog| ==> prog[i].ctx.a < cells && prog[i].ctx.b < cells && prog[i].ctx.out < cells
  }

  function Value<V>(k: Arith<V>, kind: nat, x: V, y: V): V {
    match kind
    case 0 => k.add(x, y)
    case 1 => k.mul(x, y)
    case 2 => k.sub(x, y)
    case _ => k.neg(x)
  }

  /** Memory after the first n ops, each seeing what the ones before it stored. */
  function Run<V>(k: Arith<V>, prog: seq<Op>, n: nat, mem: seq<V>): (r: seq<V>)
    requires n <= |prog| && Fits(prog, |mem|)
    ensures |r| == |mem|
  {
    if n == 0 then mem else
      var before := Run(k, prog, n - 1, mem);
      var c := prog[n - 1].ctx;
      before[c.out := Value(k, prog[n - 1].kind, before[c.a], before[c.b])]
  }

  method Kernel<V>(k: Arith<V>, kind: nat, c: Ctx, cells: array<V>)
    requires c.a < cells.Length && c.b < cells.Length && c.out < cells.Length
    modifies cells
    ensures cells[..] == old(cells[..])[c.out := Value(k, kind, old(cells[c.a]), old(cells[c.b]))]
  {
    cells[c.out] := Value(k, kind, cells[c.a], cells[c.b]);
  }

  method Loop<V>(k: Arith<V>, prog: seq<Op>, cells: array<V>)
    requires Fits(prog, cells.Length)
    modifies cells
    ensures cells[..] == Run(k, prog, |prog|, old(cells[..]))
  {
    for i := 0 to |prog|
      invariant cells[..] == Run(k, prog, i, old(cells[..]))
    {
      Kernel(k, prog[i].kind, prog[i].ctx, cells);
    }
  }

  /** Each kernel calls the next; the step after the last one only stops. */
  method Tail<V>(k: Arith<V>, prog: seq<Op>, at: nat, cells: array<V>, ghost start: seq<V>) returns (ran: nat)
    requires at <= |prog| && Fits(prog, cells.Length) && |start| == cells.Length && cells[..] == Run(k, prog, at, start)
    modifies cells
    ensures cells[..] == Run(k, prog, |prog|, start) && ran == |prog| - at
    decreases |prog| - at
  {
    if at == |prog| {
      return 0;
    }
    Kernel(k, prog[at].kind, prog[at].ctx, cells);
    var rest := Tail(k, prog, at + 1, cells, start);
    return rest + 1;
  }

  method Unroll4<V>(k: Arith<V>, prog: seq<Op>, cells: array<V>)
    requires Fits(prog, cells.Length)
    modifies cells
    ensures cells[..] == Run(k, prog, |prog|, old(cells[..]))
  {
    ghost var start := cells[..];
    var i := 0;
    while i + 4 <= |prog|
      invariant 0 <= i <= |prog| && cells[..] == Run(k, prog, i, start)
    {
      Four(k, prog, i, cells, start);
      i := i + 4;
    }
    while i < |prog|
      invariant 0 <= i <= |prog| && cells[..] == Run(k, prog, i, start)
    {
      One(k, prog, i, cells, start);
      i := i + 1;
    }
  }

  /** Four call sites in a row. */
  method Four<V>(k: Arith<V>, prog: seq<Op>, i: nat, cells: array<V>, ghost start: seq<V>)
    requires i + 4 <= |prog| && Fits(prog, cells.Length)
    requires |start| == cells.Length && cells[..] == Run(k, prog, i, start)
    modifies cells
    ensures cells[..] == Run(k, prog, i + 4, start)
  {
    One(k, prog, i, cells, start);
    One(k, prog, i + 1, cells, start);
    One(k, prog, i + 2, cells, start);
    One(k, prog, i + 3, cells, start);
  }

  /** One call site. */
  method One<V>(k: Arith<V>, prog: seq<Op>, i: nat, cells: array<V>, ghost start: seq<V>)
    requires i < |prog| && Fits(prog, cells.Length) && |start| == cells.Length && cells[..] == Run(k, prog, i, start)
    modifies cells
    ensures cells[..] == Run(k, prog, i + 1, start)
  {
    Kernel(k, prog[i].kind, prog[i].ctx, cells);
  }

  method Inline<V>(k: Arith<V>, prog: seq<Op>, cells: array<V>)
    requires Fits(prog, cells.Length)
    modifies cells
    ensures cells[..] == Run(k, prog, |prog|, old(cells[..]))
  {
    for i := 0 to |prog|
      invariant cells[..] == Run(k, prog, i, old(cells[..]))
    {
      var c := prog[i].ctx;
      match prog[i].kind {
        case 0 => cells[c.out] := k.add(cells[c.a], cells[c.b]);
        case 1 => cells[c.out] := k.mul(cells[c.a], cells[c.b]);
        case 2 => cells[c.out] := k.sub(cells[c.a], cells[c.b]);
        case _ => cells[c.out] := k.neg(cells[c.a]);
      }
    }
  }

  /** A cell holds what its last writer computed from the memory of that moment, and nothing else changes it. */
  lemma {:induction false} LastWriterWins<V>(k: Arith<V>, prog: seq<Op>, n: nat, w: nat, mem: seq<V>)
    requires w < n <= |prog| && Fits(prog, |mem|) && forall i :: w < i < n ==> prog[i].ctx.out != prog[w].ctx.out
    ensures var before := Run(k, prog, w, mem);
            Run(k, prog, n, mem)[prog[w].ctx.out] ==
              Value(k, prog[w].kind, before[prog[w].ctx.a], before[prog[w].ctx.b])
    decreases n
  {
    if w < n - 1 {
      LastWriterWins(k, prog, n - 1, w, mem);
    }
  }

  lemma {:induction false} UnwrittenStays<V>(k: Arith<V>, prog: seq<Op>, n: nat, c: nat, mem: seq<V>)
    requires n <= |prog| && Fits(prog, |mem|) && c < |mem| && forall i :: 0 <= i < n ==> prog[i].ctx.out != c
    ensures Run(k, prog, n, mem)[c] == mem[c]
  {
    if n > 0 {
      UnwrittenStays(k, prog, n - 1, c, mem);
    }
  }
}
