// Closing the dependencies a CMake project declares under the requirements the builder knows.
module SourceDependencies {
  import opened Basics

  // What each known dependency requires. Names outside the table are not known to the builder.
  type Table = map<string, seq<string>>

  predicate Known(table: Table, names: set<string>) {
    forall n :: n in names ==> n in table
  }

  // Everything a member requires, as far as the table knows it, is a member.
  predicate Closed(table: Table, names: set<string>) {
    forall n, r :: n in names && n in table && r in table[n] && r in table ==> r in names
  }

  // The members whose requirements may not be in yet are all pending.
  ghost predicate ClosedButFor(table: Table, names: set<string>, pending: seq<string>) {
    forall n, r :: n in names && n in table && n !in pending && r in table[n] && r in table ==> r in names
  }

  // No closed set that holds the declared names is smaller.
  ghost predicate Least(table: Table, declared: set<string>, names: set<string>) {
    forall closed: set<string> :: declared <= closed && Closed(table, closed) ==> names <= closed
  }

  // Adds the requirements of one dependency.
  method Require(table: Table, name: string, dependencies: set<string>, pending: seq<string>)
    returns (after: set<string>, left: seq<string>)
    requires name in table && name in dependencies && Known(table, dependencies)
    requires forall p :: p in pending ==> p in dependencies
    ensures dependencies <= after && Known(table, after) && forall p :: p in left ==> p in after
    ensures forall r :: r in table[name] && r in table ==> r in after
    ensures forall n :: n in after && n !in dependencies ==> n in left && n in table[name]
    ensures pending <= left && |left| - |pending| == |after| - |dependencies|
  {
    after, left := dependencies, pending;
    for i := 0 to |table[name]|
      invariant dependencies <= after && Known(table, after) && forall p :: p in left ==> p in after
      invariant forall k :: 0 <= k < i && table[name][k] in table ==> table[name][k] in after
      invariant forall n :: n in after && n !in dependencies ==> n in left && n in table[name]
      invariant pending <= left && |left| - |pending| == |after| - |dependencies|
    {
      var required := table[name][i];
      if required in table && required !in after {
        after := after + {required};
        left := left + [required];
      }
    }
  }

  // The worklist ends with the least closed set that holds what was declared: nothing needed is
  // missing and nothing is built without need.
  method DetectSourceDependencies(table: Table, declared: set<string>, order: seq<string>) returns (dependencies: set<string>)
    requires Known(table, declared) && (forall n :: n in order <==> n in declared) && |order| == |declared|
    ensures declared <= dependencies && Known(table, dependencies)
    ensures Closed(table, dependencies) && Least(table, declared, dependencies)
  {
    dependencies := declared;
    var pending := order;
    while pending != []
      invariant declared <= dependencies && Known(table, dependencies)
      invariant forall p :: p in pending ==> p in dependencies
      invariant ClosedButFor(table, dependencies, pending) && Least(table, declared, dependencies)
      decreases |table.Keys - dependencies|, |pending|
    {
      var name := pending[|pending| - 1];
      var rest := pending[..|pending| - 1];
      assert pending == rest + [name];
      ghost var before := dependencies;
      dependencies, pending := Require(table, name, dependencies, rest);
      StillLeast(table, declared, before, dependencies, name);
      StillClosed(table, before, dependencies, rest, pending, name);
      if dependencies == before {
        assert |pending| == |rest|;
      } else {
        Shrinks(table.Keys, before, dependencies);
      }
    }
  }

  lemma StillLeast(table: Table, declared: set<string>, before: set<string>, after: set<string>, name: string)
    requires Least(table, declared, before) && name in before && name in table && Known(table, after)
    requires forall n :: n in after && n !in before ==> n in table[name]
    ensures Least(table, declared, after)
  {
    forall closed: set<string> | declared <= closed && Closed(table, closed)
      ensures after <= closed
    {
      assert before <= closed;
      forall n | n in after
        ensures n in closed
      {
        if n !in before {
          assert n in table[name] && n in table;
        }
      }
    }
  }

  lemma StillClosed(table: Table, before: set<string>, after: set<string>, rest: seq<string>, left: seq<string>, name: string)
    requires ClosedButFor(table, before, rest + [name]) && before <= after && name in table && rest <= left
    requires forall r :: r in table[name] && r in table ==> r in after
    requires forall n :: n in after && n !in before ==> n in left
    ensures ClosedButFor(table, after, left)
  {
    forall n, r | n in after && n in table && n !in left && r in table[n] && r in table
      ensures r in after
    {
      assert n in before;
      if n != name {
        assert forall i :: 0 <= i < |rest| ==> left[i] == rest[i];
        assert n !in rest + [name];
      }
    }
  }

  lemma Shrinks(all: set<string>, before: set<string>, after: set<string>)
    requires before < after <= all
    ensures |all - after| < |all - before|
  {
    var n :| n in after && n !in before;
    assert all - after <= all - before - {n};
    SubsetSize(all - after, all - before - {n});
  }

  // The closure is unique, so the order of the worklist does not matter, and it only grows with
  // what is declared.
  lemma ClosureIsMonotone(table: Table, declared: set<string>, more: set<string>, a: set<string>, b: set<string>)
    requires declared <= more && Least(table, declared, a)
    requires more <= b && Closed(table, b)
    ensures a <= b
  {
  }
}
