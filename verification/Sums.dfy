/** Sums over a commutative, associative addition with a neutral element. */
module Sums {
  datatype Addition<!A> = Addition(add: (A, A) -> A, zero: A)

  /** The laws at three values. */
  predicate Lawful<A(==)>(m: Addition<A>, a: A, b: A, c: A) {
    && m.add(a, b) == m.add(b, a)
    && m.add(m.add(a, b), c) == m.add(a, m.add(b, c))
    && m.add(a, m.zero) == a
  }

  ghost predicate Commutes<A(!new)>(m: Addition<A>) {
    forall a, b, c :: Lawful(m, a, b, c)
  }

  function Total<A>(m: Addition<A>, terms: seq<A>): A {
    if terms == [] then m.zero else m.add(Total(m, terms[..|terms| - 1]), terms[|terms| - 1])
  }

  lemma Neutral<A(!new)>(m: Addition<A>, a: A)
    requires Commutes(m)
    ensures m.add(a, m.zero) == a == m.add(m.zero, a)
  {
    assert Lawful(m, a, m.zero, m.zero);
  }

  lemma Regroup<A(!new)>(m: Addition<A>, a: A, b: A, c: A)
    requires Commutes(m)
    ensures m.add(m.add(a, b), c) == m.add(a, m.add(b, c))
  {
    assert Lawful(m, a, b, c);
  }

  lemma Swap<A(!new)>(m: Addition<A>, a: A, b: A, c: A)
    requires Commutes(m)
    ensures m.add(m.add(a, b), c) == m.add(m.add(a, c), b)
  {
    Regroup(m, a, b, c);
    Regroup(m, a, c, b);
    assert Lawful(m, b, c, m.zero);
  }

  lemma Interchange<A(!new)>(m: Addition<A>, a: A, b: A, c: A, d: A)
    requires Commutes(m)
    ensures m.add(m.add(a, b), m.add(c, d)) == m.add(m.add(a, c), m.add(b, d))
  {
    Regroup(m, m.add(a, b), c, d);
    Swap(m, a, b, c);
    Regroup(m, m.add(a, c), b, d);
  }

  lemma {:induction false} TotalAdds<A(!new)>(m: Addition<A>, a: seq<A>, b: seq<A>, c: seq<A>)
    requires Commutes(m) && |a| == |b| == |c| && forall k :: 0 <= k < |a| ==> c[k] == m.add(a[k], b[k])
    ensures Total(m, c) == m.add(Total(m, a), Total(m, b))
  {
    if a == [] {
      Neutral(m, m.zero);
    } else {
      var n := |a| - 1;
      TotalAdds(m, a[..n], b[..n], c[..n]);
      Interchange(m, Total(m, a[..n]), Total(m, b[..n]), a[n], b[n]);
    }
  }

  lemma {:induction false} TotalOfZeros<A(!new)>(m: Addition<A>, terms: seq<A>)
    requires Commutes(m) && forall k :: 0 <= k < |terms| ==> terms[k] == m.zero
    ensures Total(m, terms) == m.zero
  {
    if terms != [] {
      TotalOfZeros(m, terms[..|terms| - 1]);
      Neutral(m, m.zero);
    }
  }

  lemma {:induction false} TotalOfOne<A(!new)>(m: Addition<A>, terms: seq<A>, k: nat)
    requires Commutes(m) && k < |terms| && forall j :: 0 <= j < |terms| && j != k ==> terms[j] == m.zero
    ensures Total(m, terms) == terms[k]
  {
    var n := |terms| - 1;
    if k == n {
      TotalOfZeros(m, terms[..n]);
    } else {
      TotalOfOne(m, terms[..n], k);
    }
    Neutral(m, terms[k]);
  }

  /** Adding to one term adds to the total. */
  lemma {:induction false} TotalAt<A(!new)>(m: Addition<A>, terms: seq<A>, k: nat, more: A)
    requires Commutes(m) && k < |terms|
    ensures Total(m, terms[k := m.add(terms[k], more)]) == m.add(Total(m, terms), more)
  {
    var one := seq(|terms|, j => if j == k then more else m.zero);
    TotalOfOne(m, one, k);
    forall j | 0 <= j < |terms| ensures terms[k := m.add(terms[k], more)][j] == m.add(terms[j], one[j]) {
      Neutral(m, terms[j]);
    }
    TotalAdds(m, terms, one, terms[k := m.add(terms[k], more)]);
  }
}
