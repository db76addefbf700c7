// A job directory as the operator commands see it: the live entries they archive, replace or
// create, the archive itself, and the notes they keep beside the archived entries. An entry is
// a file or a whole directory. Any operation may raise; one that raises changes nothing.
module JobTree {
  datatype SavedState = SavedState(stage: string, status: string, attempts: map<string, nat>)

  // Entries keep their relative path in the archive.
  datatype Path = Live(name: string) | Archived(name: string) | Note(name: string)

  datatype Content = Raw(id: nat) | State(state: SavedState)

  datatype Node = File(content: Content) | Dir(files: map<string, Content>)

  type Tree = map<Path, Node>

  // Everything but the notes the commands add to their own archive.
  function Entries(t: Tree): Tree {
    map p | p in t && !p.Note? :: t[p]
  }

  predicate Movable(t: Tree, names: set<string>) {
    forall n :: n in names ==> Live(n) in t && Archived(n) !in t
  }

  // The tree with the given live entries moved into the archive.
  function Moved(t: Tree, names: set<string>): Tree
    requires Movable(t, names)
  {
    (map p | p in t && !(p.Live? && p.name in names) :: t[p]) +
    (map n | n in names :: Archived(n) := t[Live(n)])
  }

  function Names(s: seq<string>): set<string> {
    set n | n in s
  }

  predicate Distinct(s: seq<string>) {
    forall i, k :: 0 <= i < k < |s| ==> s[i] != s[k]
  }

  function Lives(s: seq<string>): set<Path> {
    set n | n in s :: Live(n)
  }

  class JobFiles {
    var tree: Tree
    var clock: nat
    const faults: nat -> bool

    constructor (tree: Tree, faults: nat -> bool)
      ensures this.tree == tree && this.faults == faults
    {
      this.tree := tree;
      this.faults := faults;
      clock := 0;
    }

    method Raises() returns (raised: bool)
      modifies this`clock
    {
      raised := faults(clock);
      clock := clock + 1;
    }

    method Replace(source: Path, target: Path) returns (ok: bool)
      requires source in tree && target !in tree
      modifies this
      ensures tree == if ok then (old(tree) - {source})[target := old(tree)[source]] else old(tree)
    {
      var raised := Raises();
      ok := !raised;
      if ok {
        tree := (tree - {source})[target := tree[source]];
      }
    }

    method Write(path: Path, content: Content) returns (ok: bool)
      modifies this
      ensures tree == if ok then old(tree)[path := File(content)] else old(tree)
    {
      var raised := Raises();
      ok := !raised;
      if ok {
        tree := tree[path := File(content)];
      }
    }

    method WriteInside(path: Path, name: string, content: Content) returns (ok: bool)
      requires path in tree && tree[path].Dir?
      modifies this
      ensures tree == if ok then old(tree)[path := Dir(old(tree)[path].files[name := content])] else old(tree)
    {
      var raised := Raises();
      ok := !raised;
      if ok {
        tree := tree[path := Dir(tree[path].files[name := content])];
      }
    }

    // Creating a directory raises when something is already there.
    method MakeDir(path: Path) returns (ok: bool)
      modifies this
      ensures ok ==> path !in old(tree)
      ensures tree == if ok then old(tree)[path := Dir(map[])] else old(tree)
    {
      var raised := Raises();
      ok := !raised && path !in tree;
      if ok {
        tree := tree[path := Dir(map[])];
      }
    }

    // Moves the items into the archive until one move raises.
    method ArchiveItems(items: seq<string>) returns (ok: bool, moved: seq<string>)
      requires Movable(tree, Names(items)) && Distinct(items)
      modifies this
      ensures moved <= items && (ok <==> moved == items)
      ensures Movable(old(tree), Names(moved)) && tree == Moved(old(tree), Names(moved))
    {
      moved, ok := [], true;
      assert tree == Moved(tree, Names(moved));
      while |moved| < |items|
        invariant moved <= items && ok
        invariant Movable(old(tree), Names(moved)) && tree == Moved(old(tree), Names(moved))
        decreases |items| - |moved|
      {
        var n := items[|moved|];
        assert n in Names(items) && n !in Names(moved);
        ok := Replace(Live(n), Archived(n));
        if !ok {
          return;
        }
        MoveOne(old(tree), Names(moved), n);
        assert Names(moved + [n]) == Names(moved) + {n};
        moved := moved + [n];
      }
    }

    // Puts one archived item back.
    method Restore(n: string, ghost original: Tree, ghost names: set<string>)
      requires Movable(original, names + {n}) && n !in names
      requires Entries(tree) == Entries(Moved(original, names + {n}))
      modifies this
      ensures Entries(tree) == Entries(Moved(original, names))
    {
      RestoreOne(tree, original, names, n);
      tree := (tree - {Archived(n)})[Live(n) := tree[Archived(n)]];
    }

    // Puts archived items back, newest first.
    method RestoreItems(moved: seq<string>, ghost original: Tree)
      requires Distinct(moved) && Movable(original, Names(moved))
      requires Entries(tree) == Entries(Moved(original, Names(moved)))
      modifies this
      ensures Entries(tree) == Entries(original)
    {
      var i := |moved|;
      assert moved[..i] == moved;
      while i > 0
        invariant 0 <= i <= |moved| && Movable(original, Names(moved[..i]))
        invariant Entries(tree) == Entries(Moved(original, Names(moved[..i])))
      {
        i := i - 1;
        PrefixNames(moved, i);
        Restore(moved[i], original, Names(moved[..i]));
      }
      NothingMoved(original, moved);
    }

    // Removes files or directories the command itself created, newest first.
    method Remove(created: seq<string>)
      modifies this
      ensures tree == old(tree) - Lives(created)
    {
      var i := |created|;
      while i > 0
        invariant 0 <= i <= |created| && tree == old(tree) - Lives(created[i..])
      {
        i := i - 1;
        assert created[i..] == [created[i]] + created[i + 1..];
        tree := tree - {Live(created[i])};
        assert Lives(created[i..]) == Lives(created[i + 1..]) + {Live(created[i])};
      }
      assert created[0..] == created;
    }

    // Puts a file inside a directory back to what it was.
    method Rewrite(path: Path, name: string, content: Content)
      requires path in tree && tree[path].Dir?
      modifies this
      ensures tree == old(tree)[path := Dir(old(tree)[path].files[name := content])]
    {
      tree := tree[path := Dir(tree[path].files[name := content])];
    }

    // Creates the missing directories until one creation raises.
    method MakeDirs(names: seq<string>) returns (ok: bool, created: seq<string>)
      requires Distinct(names) && forall n :: n in names ==> Live(n) !in tree
      modifies this
      ensures created <= names && (ok <==> created == names)
      ensures tree == old(tree) + (map p | p in Lives(created) :: Dir(map[]))
    {
      created, ok := [], true;
      while |created| < |names|
        invariant created <= names && ok
        invariant tree == old(tree) + (map p | p in Lives(created) :: Dir(map[]))
        decreases |names| - |created|
      {
        var n := names[|created|];
        ok := MakeDir(Live(n));
        if !ok {
          return;
        }
        assert Lives(created + [n]) == Lives(created) + {Live(n)};
        created := created + [n];
      }
    }
  }

  lemma MoveOne(t: Tree, names: set<string>, n: string)
    requires Movable(t, names + {n}) && n !in names
    ensures Live(n) in Moved(t, names) && Archived(n) !in Moved(t, names)
    ensures Moved(t, names + {n}) == (Moved(t, names) - {Live(n)})[Archived(n) := Moved(t, names)[Live(n)]]
  {
  }

  lemma MoveBack(t: Tree, names: set<string>, n: string)
    requires Movable(t, names + {n}) && n !in names
    ensures Archived(n) in Moved(t, names + {n})
    ensures Moved(t, names) == (Moved(t, names + {n}) - {Archived(n)})[Live(n) := Moved(t, names + {n})[Archived(n)]]
  {
  }

  lemma NothingMoved(t: Tree, s: seq<string>)
    ensures Movable(t, Names(s[..0])) && Moved(t, Names(s[..0])) == t
  {
  }

  lemma PrefixNames(s: seq<string>, i: nat)
    requires i < |s| && Distinct(s)
    ensures Names(s[..i + 1]) == Names(s[..i]) + {s[i]} && s[i] !in Names(s[..i])
  {
    assert s[..i + 1] == s[..i] + [s[i]];
  }

  lemma RestoreOne(t: Tree, original: Tree, names: set<string>, n: string)
    requires Movable(original, names + {n}) && n !in names
    requires Entries(t) == Entries(Moved(original, names + {n}))
    ensures Archived(n) in t
    ensures Entries((t - {Archived(n)})[Live(n) := t[Archived(n)]]) == Entries(Moved(original, names))
  {
    MoveBack(original, names, n);
    var after := Moved(original, names + {n});
    assert Archived(n) in Entries(after);
    assert Archived(n) in t && t[Archived(n)] == after[Archived(n)];
    EntriesMove(t, after, n);
  }

  lemma EntriesMove(t: Tree, u: Tree, n: string)
    requires Entries(t) == Entries(u) && Archived(n) in t && Archived(n) in u
    ensures Entries((t - {Archived(n)})[Live(n) := t[Archived(n)]]) == Entries((u - {Archived(n)})[Live(n) := u[Archived(n)]])
  {
    assert Entries(t)[Archived(n)] == Entries(u)[Archived(n)];
    forall p: Path | !p.Note?
      ensures p in t <==> p in u
      ensures p in t ==> t[p] == u[p]
    {
      assert p in Entries(t) <==> p in Entries(u);
    }
  }
}
