/** Which declarations a generated case needs: the ones that vary with the seed, and all they refer to. */
module Closure {
  type Name = string

  /** A role variable and the identifiers on the right of its declaration. */
  datatype Decl = Decl(name: Name, uses: set<Name>)

  const Seed: Name := "seed"

  /** Names are unique and each declaration refers only to earlier ones. */
  ghost predicate InOrder(decls: seq<Decl>) {
    && (forall i, j :: 0 <= i < j < |decls| ==> decls[i].name != decls[j].name)
    && (forall i, j :: 0 <= i <= j < |decls| ==> decls[j].name !in decls[i].uses)
    && (forall i :: 0 <= i < |decls| ==> decls[i].name != Seed)
  }

  // ---------------------------------------------------------------- seed dependence

  /** path leads from declaration path[0] by references to one that mentions the seed. */
  ghost predicate SeedPath(decls: seq<Decl>, path: seq<nat>) {
    && path != []
    && (forall k :: 0 <= k < |path| ==> path[k] < |decls|)
    && (forall k :: 0 <= k < |path| - 1 ==> decls[path[k + 1]].name in decls[path[k]].uses)
    && Seed in decls[path[|path| - 1]].uses
  }

  ghost predicate Dependent(decls: seq<Decl>, i: nat) {
    exists path :: SeedPath(decls, path) && path[0] == i
  }

  /** The map built from the first n declarations. */
  ghost predicate Built(decls: seq<Decl>, n: nat, dependent: map<Name, set<Name>>)
    requires n <= |decls|
  {
    && (forall i :: 0 <= i < n ==> (decls[i].name in dependent <==> Dependent(decls, i)))
    && (forall x :: x in dependent ==> exists i :: 0 <= i < n && decls[i].name == x)
    && (forall i :: 0 <= i < n && decls[i].name in dependent ==>
          dependent[decls[i].name] == decls[i].uses * dependent.Keys)
  }

  lemma DependentStep(decls: seq<Decl>, n: nat, dependent: map<Name, set<Name>>)
    requires InOrder(decls) && n < |decls| && Built(decls, n, dependent)
    ensures Dependent(decls, n) <==> Seed in decls[n].uses || decls[n].uses * dependent.Keys != {}
  {
    if Dependent(decls, n) {
      FirstHop(decls, n, dependent);
    }
    if Seed in decls[n].uses {
      assert SeedPath(decls, [n]) && [n][0] == n;
    } else if x :| x in decls[n].uses * dependent.Keys {
      var i :| 0 <= i < n && decls[i].name == x;
      LongerPath(decls, n, i);
    }
  }

  lemma FirstHop(decls: seq<Decl>, n: nat, dependent: map<Name, set<Name>>)
    requires InOrder(decls) && n < |decls| && Built(decls, n, dependent) && Dependent(decls, n)
    ensures Seed in decls[n].uses || decls[n].uses * dependent.Keys != {}
  {
    var path :| SeedPath(decls, path) && path[0] == n;
    if |path| > 1 {
      assert decls[path[0 + 1]].name in decls[path[0]].uses;
      assert SeedPath(decls, path[1..]) && path[1..][0] == path[1];
      assert decls[path[1]].name in decls[n].uses * dependent.Keys;
    }
  }

  lemma LongerPath(decls: seq<Decl>, n: nat, i: nat)
    requires n < |decls| && i < |decls| && decls[i].name in decls[n].uses && Dependent(decls, i)
    ensures Dependent(decls, n)
  {
    var path :| SeedPath(decls, path) && path[0] == i;
    var longer := [n] + path;
    forall k | 0 <= k < |longer| - 1 ensures decls[longer[k + 1]].name in decls[longer[k]].uses {
      assert longer[k + 1] == path[k];
      if k > 0 {
        assert longer[k] == path[k - 1];
        assert decls[path[k - 1 + 1]].name in decls[path[k - 1]].uses;
      }
    }
    assert SeedPath(decls, longer) && longer[0] == n;
  }

  lemma NotYetUsed(decls: seq<Decl>, n: nat, dependent: map<Name, set<Name>>, i: nat)
    requires InOrder(decls) && i < n < |decls|
    ensures decls[i].uses * (dependent.Keys + {decls[n].name}) == decls[i].uses * dependent.Keys
  { }

  /** Exactly the declarations from which a chain of references reaches the seed. */
  method SeedDependent(decls: seq<Decl>) returns (dependent: map<Name, set<Name>>)
    requires InOrder(decls)
    ensures Built(decls, |decls|, dependent)
  {
    dependent := map[];
    for n := 0 to |decls|
      invariant Built(decls, n, dependent)
    {
      DependentStep(decls, n, dependent);
      var used := decls[n].uses;
      if Seed in used || used * dependent.Keys != {} {
        forall i | 0 <= i < n
          ensures decls[i].uses * (dependent.Keys + {decls[n].name}) == decls[i].uses * dependent.Keys {
          NotYetUsed(decls, n, dependent, i);
        }
        ghost var before := dependent;
        dependent := dependent[decls[n].name := used * dependent.Keys];
        assert dependent.Keys == before.Keys + {decls[n].name};
        assert decls[n].uses * dependent.Keys == decls[n].uses * before.Keys;
        forall x | x in dependent ensures exists i :: 0 <= i < n + 1 && decls[i].name == x {
          if x != decls[n].name {
            var i :| 0 <= i < n && decls[i].name == x;
          }
        }
      }
    }
  }

  // ---------------------------------------------------------------- the worklist

  /** Holds the dependent arguments and whatever its members refer to. */
  ghost predicate Closed(dependent: map<Name, set<Name>>, arguments: seq<Name>, s: set<Name>) {
    && (forall k :: 0 <= k < |arguments| && arguments[k] in dependent ==> arguments[k] in s)
    && (forall x, y :: x in s && x in dependent && y in dependent[x] ==> y in s)
  }

  method ListOf(s: set<Name>) returns (r: seq<Name>)
    ensures forall x :: x in r <==> x in s
  {
    r := [];
    var left := s;
    while left != {}
      invariant left <= s && forall x :: x in r <==> x in s && x !in left
      decreases |left|
    {
      var x :| x in left;
      r := r + [x];
      left := left - {x};
    }
  }

  /** Every member's references are members or wait to become one. */
  ghost predicate WorkOk(dependent: map<Name, set<Name>>, arguments: seq<Name>, needed: set<Name>, pending: seq<Name>) {
    && needed <= dependent.Keys
    && (forall k :: 0 <= k < |arguments| && arguments[k] in dependent ==>
          arguments[k] in needed || arguments[k] in pending)
    && (forall x, y :: x in needed && y in dependent[x] ==> y in needed || y in pending)
  }

  /** Nothing is in there that a closed set could do without. */
  ghost predicate Minimal(dependent: map<Name, set<Name>>, arguments: seq<Name>, needed: set<Name>,
                          pending: seq<Name>) {
    forall s :: Closed(dependent, arguments, s) ==>
      needed <= s && forall k :: 0 <= k < |pending| && pending[k] in dependent ==> pending[k] in s
  }

  lemma Shrinks(all: set<Name>, needed: set<Name>, x: Name)
    requires x in all && x !in needed
    ensures |all - (needed + {x})| < |all - needed|
  {
    assert all - needed == (all - (needed + {x})) + {x};
  }

  /** The worklist ends with the least closed set. */
  method Needed(dependent: map<Name, set<Name>>, arguments: seq<Name>) returns (needed: set<Name>)
    requires forall x, y :: x in dependent && y in dependent[x] ==> y in dependent
    ensures needed <= dependent.Keys && Closed(dependent, arguments, needed)
    ensures forall s :: Closed(dependent, arguments, s) ==> needed <= s
  {
    needed := {};
    var pending := arguments;
    while pending != []
      invariant WorkOk(dependent, arguments, needed, pending) && Minimal(dependent, arguments, needed, pending)
      decreases |dependent.Keys - needed|, |pending|
    {
      var name := pending[|pending| - 1];
      var rest := pending[..|pending| - 1];
      assert pending == rest + [name];
      if name in dependent && name !in needed {
        Shrinks(dependent.Keys, needed, name);
        var more := ListOf(dependent[name]);
        Taken(dependent, arguments, needed, rest, name, more);
        needed := needed + {name};
        pending := rest + more;
      } else {
        pending := rest;
      }
    }
  }

  lemma Taken(dependent: map<Name, set<Name>>, arguments: seq<Name>, needed: set<Name>, rest: seq<Name>, name: Name,
              more: seq<Name>)
    requires name in dependent && forall x :: x in more <==> x in dependent[name]
    requires WorkOk(dependent, arguments, needed, rest + [name]) && Minimal(dependent, arguments, needed, rest + [name])
    ensures WorkOk(dependent, arguments, needed + {name}, rest + more)
    ensures Minimal(dependent, arguments, needed + {name}, rest + more)
  {
    forall s | Closed(dependent, arguments, s)
      ensures needed + {name} <= s
      ensures forall k :: 0 <= k < |rest + more| && (rest + more)[k] in dependent ==> (rest + more)[k] in s
    {
      assert (rest + [name])[|rest|] == name;
      assert forall k :: 0 <= k < |rest| ==> (rest + [name])[k] == rest[k];
      forall k | 0 <= k < |rest + more| && (rest + more)[k] in dependent ensures (rest + more)[k] in s {
        if k >= |rest| {
          assert (rest + more)[k] in more;
        }
      }
    }
  }

  // ---------------------------------------------------------------- what a case emits

  /** The indices of the needed declarations, in declaration order. */
  method CaseDeclarations(decls: seq<Decl>, dependent: map<Name, set<Name>>, arguments: seq<Name>)
    returns (lines: seq<nat>, needed: set<Name>)
    requires InOrder(decls) && Built(decls, |decls|, dependent)
    ensures Closed(dependent, arguments, needed) && forall s :: Closed(dependent, arguments, s) ==> needed <= s
    ensures forall i: nat :: i in lines <==> i < |decls| && decls[i].name in needed
    ensures forall j, k :: 0 <= j < k < |lines| ==> lines[j] < lines[k]
  {
    forall x, y | x in dependent && y in dependent[x] ensures y in dependent {
      var i :| 0 <= i < |decls| && decls[i].name == x;
    }
    needed := Needed(dependent, arguments);
    lines := Emit(decls, needed);
  }

  method Emit(decls: seq<Decl>, needed: set<Name>) returns (lines: seq<nat>)
    ensures forall i: nat :: i in lines <==> i < |decls| && decls[i].name in needed
    ensures forall j, k :: 0 <= j < k < |lines| ==> lines[j] < lines[k]
  {
    lines := [];
    for i := 0 to |decls|
      invariant forall j: nat :: j in lines <==> j < i && decls[j].name in needed
      invariant forall k :: 0 <= k < |lines| ==> lines[k] in lines && lines[k] < i
      invariant forall j, k :: 0 <= j < k < |lines| ==> lines[j] < lines[k]
    {
      if decls[i].name in needed {
        lines := lines + [i];
      }
    }
  }

  /** A role variable on an emitted line is declared in the prelude or on an earlier emitted line. */
  lemma DeclaredBeforeUse(decls: seq<Decl>, dependent: map<Name, set<Name>>, arguments: seq<Name>, lines: seq<nat>,
                          needed: set<Name>, k: nat, u: nat)
    requires InOrder(decls) && Built(decls, |decls|, dependent) && Closed(dependent, arguments, needed)
    requires needed <= dependent.Keys
    requires forall i: nat :: i in lines <==> i < |decls| && decls[i].name in needed
    requires forall i, j :: 0 <= i < j < |lines| ==> lines[i] < lines[j]
    requires k < |lines| && lines[k] < |decls| && u < |decls| && decls[u].name in decls[lines[k]].uses
    ensures !Dependent(decls, u) || exists j :: 0 <= j < k && lines[j] == u
  { }
}
