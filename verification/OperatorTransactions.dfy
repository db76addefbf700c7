// The two operator commands that archive a native harness attempt: retargeting the job and
// replacing its harness. Each either completes or puts every live entry back.
module OperatorTransactions {
  import opened JobTree

  const STATE := "state.json"
  const EXCLUSIONS := "artifacts/harness-exclusions.json"
  const RETARGET := "artifacts/retarget.json"
  const FRESH := ["integration", "corpus", "crashes", "logs", "validation"]

  function Attempt(s: SavedState, key: string): nat {
    if key in s.attempts then s.attempts[key] else 0
  }

  // The only counter that survives either command is the command's own.
  function RetargetState(s: SavedState): SavedState {
    SavedState("integration", "prepared", map["retargets" := Attempt(s, "retargets") + 1])
  }

  function RepairState(s: SavedState): SavedState {
    SavedState("build", "integrated", map["operator_harness_repair" := Attempt(s, "operator_harness_repair") + 1])
  }

  predicate HasState(t: Tree) {
    Live(STATE) in t && t[Live(STATE)].File? && t[Live(STATE)].content.State?
  }

  function StateOf(t: Tree): SavedState
    requires HasState(t)
  {
    t[Live(STATE)].content.state
  }

  // The listed entries are archived, and every name the command will create is either among
  // them or unused.
  predicate Archivable(t: Tree, items: seq<string>, created: seq<string>) {
    && Distinct(items) && Movable(t, Names(items)) && HasState(t) && STATE !in items
    && forall n :: n in created ==> n in items || Live(n) !in t
  }

  function Directories(names: seq<string>): Tree {
    map p | p in Lives(names) :: Dir(map[])
  }

  const RETARGET_CREATES := FRESH + [EXCLUSIONS, RETARGET]

  function RetargetResult(t: Tree, items: seq<string>, exclusions: nat, record: nat): Tree
    requires Archivable(t, items, RETARGET_CREATES)
  {
    (Moved(t, Names(items)) + Directories(FRESH))
      [Live(EXCLUSIONS) := File(Raw(exclusions))]
      [Live(RETARGET) := File(Raw(record))]
      [Live(STATE) := File(State(RetargetState(StateOf(t))))]
  }

  // A tree that differs from a base only by entries the base does not have, and by notes.
  ghost predicate Overlay(t: Tree, base: Tree, added: set<Path>) {
    && (forall p :: p in added ==> p !in base && !p.Note?)
    && forall p: Path :: !p.Note? && p !in added ==> (p in t <==> p in base) && (p in t ==> t[p] == base[p])
  }

  lemma OverlayRemoved(t: Tree, base: Tree, added: set<Path>)
    requires Overlay(t, base, added)
    ensures Entries(t - added) == Entries(base)
  {
  }

  lemma MovedEntries(t: Tree, items: set<string>)
    requires Movable(t, items)
    ensures Movable(Entries(t), items) && Entries(Moved(t, items)) == Moved(Entries(t), items)
  {
  }

  lemma OverlayAdd(t: Tree, base: Tree, added: set<Path>, p: Path, node: Node)
    requires Overlay(t, base, added) && p !in base && !p.Note?
    ensures Overlay(t[p := node], base, added + {p})
  {
  }

  lemma OverlayNote(t: Tree, base: Tree, added: set<Path>, name: string, node: Node)
    requires Overlay(t, base, added)
    ensures Overlay(t[Note(name) := node], base, added)
  {
  }

  lemma OverlayDirectories(t: Tree, base: Tree, added: set<Path>, names: seq<string>)
    requires Overlay(t, base, added) && forall n :: n in names ==> Live(n) !in base
    ensures Overlay(t + Directories(names), base, added + Lives(names))
  {
  }

  // Everything the command created goes, and what it archived comes back.
  method Rollback(files: JobFiles, moved: seq<string>, made: seq<string>, written: seq<string>, ghost start: Tree)
    requires Distinct(moved) && Movable(start, Names(moved))
    requires Overlay(files.tree, Moved(start, Names(moved)), Lives(made) + Lives(written))
    modifies files
    ensures Entries(files.tree) == Entries(start)
  {
    ghost var layered := files.tree;
    OverlayRemoved(layered, Moved(start, Names(moved)), Lives(made) + Lives(written));
    files.Remove(written);
    files.Remove(made);
    assert files.tree == layered - (Lives(made) + Lives(written));
    files.RestoreItems(moved, start);
  }

  // Writes one new live file and remembers it for the rollback.
  method Create(files: JobFiles, name: string, content: Content, written: seq<string>, ghost base: Tree, ghost made: seq<string>)
    returns (ok: bool, after: seq<string>)
    requires Overlay(files.tree, base, Lives(made) + Lives(written)) && Live(name) !in base
    modifies files
    ensures after == if ok then written + [name] else written
    ensures files.tree == if ok then old(files.tree)[Live(name) := File(content)] else old(files.tree)
    ensures Overlay(files.tree, base, Lives(made) + Lives(after))
  {
    after := written;
    OverlayAdd(files.tree, base, Lives(made) + Lives(written), Live(name), File(content));
    ok := files.Write(Live(name), content);
    if ok {
      after := written + [name];
      assert Lives(after) == Lives(written) + {Live(name)};
      assert Lives(made) + Lives(after) == Lives(made) + Lives(written) + {Live(name)};
    }
  }

  function Renewed(t: Tree, exclusions: nat, record: nat): Tree {
    (t[Note(RETARGET) := File(Raw(record))] + Directories(FRESH))
      [Live(EXCLUSIONS) := File(Raw(exclusions))]
      [Live(RETARGET) := File(Raw(record))]
  }

  // The new metadata of a retargeted job, up to but not including its state.
  method Renew(files: JobFiles, exclusions: nat, record: nat)
    returns (ok: bool, made: seq<string>, written: seq<string>)
    requires forall n :: n in RETARGET_CREATES ==> Live(n) !in files.tree
    modifies files
    ensures Overlay(files.tree, old(files.tree), Lives(made) + Lives(written))
    ensures ok ==> files.tree == Renewed(old(files.tree), exclusions, record)
  {
    ghost var base := files.tree;
    made, written := [], [];
    OverlayNote(base, base, {}, RETARGET, File(Raw(record)));
    ok := files.Write(Note(RETARGET), Raw(record));
    if !ok {
      return;
    }
    ghost var noted := files.tree;
    ok, made := files.MakeDirs(FRESH);
    assert files.tree == noted + Directories(made);
    OverlayDirectories(noted, base, {}, made);
    assert {} + Lives(made) == Lives(made) + Lives(written);
    if !ok {
      return;
    }
    ok, written := Create(files, EXCLUSIONS, Raw(exclusions), written, base, made);
    if !ok {
      return;
    }
    ok, written := Create(files, RETARGET, Raw(record), written, base, made);
  }

  method Retarget(files: JobFiles, items: seq<string>, exclusions: nat, record: nat) returns (ok: bool)
    requires Archivable(files.tree, items, RETARGET_CREATES)
    modifies files
    ensures !ok ==> Entries(files.tree) == old(Entries(files.tree))
    ensures ok ==> Archivable(old(Entries(files.tree)), items, RETARGET_CREATES) &&
                   Entries(files.tree) == RetargetResult(old(Entries(files.tree)), items, exclusions, record)
  {
    var state := StateOf(files.tree);
    ok := files.Write(Note(STATE), State(state));
    if !ok {
      return;
    }
    ghost var start := files.tree;
    assert Entries(start) == old(Entries(files.tree));
    var moved, made, written: seq<string> := [], [], [];
    ok, moved := files.ArchiveItems(items);
    ghost var base := files.tree;
    if ok {
      ok, made, written := Renew(files, exclusions, record);
    }
    assert Overlay(files.tree, base, Lives(made) + Lives(written));
    if ok {
      ok := files.Write(Live(STATE), State(RetargetState(state)));
    }
    if ok {
      RetargetEntries(start, items, exclusions, record);
    } else {
      Rollback(files, moved, made, written, start);
    }
  }

  lemma EntriesPut(t: Tree, p: Path, node: Node)
    ensures Entries(t[p := node]) == if p.Note? then Entries(t) else Entries(t)[p := node]
  {
  }

  lemma EntriesDirectories(t: Tree, names: seq<string>)
    ensures Entries(t + Directories(names)) == Entries(t) + Directories(names)
  {
  }

  lemma RetargetEntries(t: Tree, items: seq<string>, exclusions: nat, record: nat)
    requires Archivable(t, items, RETARGET_CREATES)
    ensures Archivable(Entries(t), items, RETARGET_CREATES)
    ensures Entries(Renewed(Moved(t, Names(items)), exclusions, record)[Live(STATE) := File(State(RetargetState(StateOf(t))))])
            == RetargetResult(Entries(t), items, exclusions, record)
  {
    var moved := Moved(t, Names(items));
    MovedEntries(t, Names(items));
    var noted := moved[Note(RETARGET) := File(Raw(record))];
    var made := noted + Directories(FRESH);
    var excluded := made[Live(EXCLUSIONS) := File(Raw(exclusions))];
    var recorded := excluded[Live(RETARGET) := File(Raw(record))];
    EntriesPut(moved, Note(RETARGET), File(Raw(record)));
    EntriesDirectories(noted, FRESH);
    EntriesPut(made, Live(EXCLUSIONS), File(Raw(exclusions)));
    EntriesPut(excluded, Live(RETARGET), File(Raw(record)));
    EntriesPut(recorded, Live(STATE), File(State(RetargetState(StateOf(t)))));
  }

  // What a completed retarget means path by path: the archive holds every item as it was, the
  // state is the reset one, and nothing outside the items and the new metadata has changed.
  lemma RetargetOutcome(t: Tree, items: seq<string>, exclusions: nat, record: nat, p: Path)
    requires Archivable(t, items, RETARGET_CREATES)
    ensures var after := RetargetResult(t, items, exclusions, record);
            && (p.Archived? && p.name in items ==> p in after && after[p] == t[Live(p.name)])
            && (p == Live(STATE) ==> p in after && after[p] == File(State(RetargetState(StateOf(t)))))
            && (p.Live? && p.name in FRESH ==> p in after && after[p] == Dir(map[]))
            && (p.Live? && p.name in items && p.name !in RETARGET_CREATES ==> p !in after)
            && (p.name !in items && p != Live(STATE) && !(p.Live? && p.name in RETARGET_CREATES) ==>
                  (p in after <==> p in t) && (p in t ==> after[p] == t[p]))
  {
    assert EXCLUSIONS in RETARGET_CREATES && RETARGET in RETARGET_CREATES;
    assert forall n :: n in FRESH ==> n in RETARGET_CREATES;
  }

  // ---------- replacing the harness ----------

  const INTEGRATION := "integration"
  const HARNESS := "native/generic_harness.cc"
  const CORPUS := "corpus"
  const GENERIC := "artifacts/generic-integration.json"
  const MANIFEST := "artifacts/integration-manifest.json"
  const REPAIR := "artifacts/operator-harness-repair.json"
  const REPAIR_DIRS := [CORPUS, "crashes", "logs", "runtime-out"]
  const REPAIR_CREATES := REPAIR_DIRS + [GENERIC, MANIFEST, REPAIR]

  // The reviewed replacement and everything derived from it before the first move.
  datatype Replacement = Replacement(
    code: Content, generic: nat, manifest: nat, record: nat,
    carried: seq<string>, seeds: seq<(string, Content)>)

  predicate Repairable(t: Tree, items: seq<string>, r: Replacement) {
    && Archivable(t, items, REPAIR_CREATES) && INTEGRATION !in items
    && Live(INTEGRATION) in t && t[Live(INTEGRATION)].Dir? && HARNESS in t[Live(INTEGRATION)].files
    && (r.carried != [] ==> CORPUS in items && t[Live(CORPUS)].Dir?)
    && forall n :: n in r.carried ==> n in t[Live(CORPUS)].files
  }

  const MAX_CARRY_FILES := 20_000
  const MAX_CARRY_FILE_BYTES := 1024 * 1024
  const MAX_CARRY_BYTES := 1024 * 1024 * 1024

  function Bytes(sizes: seq<nat>, chosen: seq<nat>): nat
    requires forall k :: 0 <= k < |chosen| ==> chosen[k] < |sizes|
  {
    if chosen == [] then 0 else Bytes(sizes, chosen[..|chosen| - 1]) + sizes[chosen[|chosen| - 1]]
  }

  predicate Increasing(chosen: seq<nat>, below: nat) {
    && (forall k :: 0 <= k < |chosen| ==> chosen[k] < below)
    && forall k, l :: 0 <= k < l < |chosen| ==> chosen[k] < chosen[l]
  }

  // The old seeds a repair carries over, as positions in the walk of the corpus. The choice
  // keeps every limit, and no seed it leaves out could be added to it.
  method CorpusSources(sizes: seq<nat>) returns (seeds: seq<nat>, skipped: nat, copied: nat)
    ensures Increasing(seeds, |sizes|) && |seeds| + skipped == |sizes|
    ensures copied == Bytes(sizes, seeds) && copied <= MAX_CARRY_BYTES && |seeds| <= MAX_CARRY_FILES
    ensures forall i :: i in seeds ==> sizes[i] <= MAX_CARRY_FILE_BYTES
    ensures forall i :: 0 <= i < |sizes| && i !in seeds ==>
              sizes[i] > MAX_CARRY_FILE_BYTES || |seeds| == MAX_CARRY_FILES || copied + sizes[i] > MAX_CARRY_BYTES
  {
    seeds, skipped, copied := [], 0, 0;
    for n := 0 to |sizes|
      invariant Increasing(seeds, n) && |seeds| + skipped == n
      invariant copied == Bytes(sizes, seeds) && copied <= MAX_CARRY_BYTES && |seeds| <= MAX_CARRY_FILES
      invariant forall i :: i in seeds ==> sizes[i] <= MAX_CARRY_FILE_BYTES
      invariant forall i :: 0 <= i < n && i !in seeds ==>
                  sizes[i] > MAX_CARRY_FILE_BYTES || |seeds| == MAX_CARRY_FILES || copied + sizes[i] > MAX_CARRY_BYTES
    {
      if sizes[n] > MAX_CARRY_FILE_BYTES || |seeds| >= MAX_CARRY_FILES || copied + sizes[n] > MAX_CARRY_BYTES {
        skipped := skipped + 1;
      } else {
        assert (seeds + [n])[..|seeds|] == seeds;
        seeds := seeds + [n];
        copied := copied + sizes[n];
      }
    }
  }

  function AddSeeds(files: map<string, Content>, seeds: seq<(string, Content)>): map<string, Content> {
    if seeds == [] then files
    else AddSeeds(files, seeds[..|seeds| - 1])[seeds[|seeds| - 1].0 := seeds[|seeds| - 1].1]
  }

  // The new corpus: the carried part of the old one and the operator's extra seeds.
  function NewCorpus(t: Tree, items: seq<string>, r: Replacement): map<string, Content>
    requires Repairable(t, items, r)
  {
    AddSeeds(map n | n in r.carried :: t[Live(CORPUS)].files[n], r.seeds)
  }

  function Patched(t: Tree, code: Content): Tree
    requires Live(INTEGRATION) in t && t[Live(INTEGRATION)].Dir?
  {
    t[Live(INTEGRATION) := Dir(t[Live(INTEGRATION)].files[HARNESS := code])]
  }

  function RepairResult(t: Tree, items: seq<string>, r: Replacement): Tree
    requires Repairable(t, items, r)
  {
    Rebuilt(Patched(Moved(t, Names(items)), r.code), r)
      [Live(CORPUS) := Dir(NewCorpus(t, items, r))]
      [Live(STATE) := File(State(RepairState(StateOf(t))))]
  }

  // What a completed repair means path by path: the archive holds every item as it was, the
  // state is the reset one, the integration differs in the harness alone, and nothing outside
  // the items and the new metadata has changed.
  lemma RepairOutcome(t: Tree, items: seq<string>, r: Replacement, p: Path)
    requires Repairable(t, items, r)
    ensures var after := RepairResult(t, items, r);
            && (p.Archived? && p.name in items ==> p in after && after[p] == t[Live(p.name)])
            && (p == Live(STATE) ==> p in after && after[p] == File(State(RepairState(StateOf(t)))))
            && (p == Live(INTEGRATION) ==> p in after && after[p] == Dir(t[p].files[HARNESS := r.code]))
            && (p == Live(CORPUS) ==> p in after && after[p] == Dir(NewCorpus(t, items, r)))
            && (p.Live? && p.name in items && p.name !in REPAIR_CREATES ==> p !in after)
            && (Untouched(p, items) ==> Same(after, t, p))
  {
    assert CORPUS in REPAIR_DIRS && CORPUS in REPAIR_CREATES;
    MovedAt(t, Names(items), p);
    RebuiltAt(Patched(Moved(t, Names(items)), r.code), r, p);
  }

  predicate Untouched(p: Path, items: seq<string>) {
    p.name !in items && p != Live(STATE) && p != Live(INTEGRATION) && !(p.Live? && p.name in REPAIR_CREATES)
  }

  // The tree with the three metadata files of a repair written.
  function Recorded(t: Tree, r: Replacement): Tree {
    t[Live(GENERIC) := File(Raw(r.generic))]
      [Live(MANIFEST) := File(Raw(r.manifest))]
      [Live(REPAIR) := File(Raw(r.record))]
  }

  function Rebuilt(t: Tree, r: Replacement): Tree {
    Recorded(t, r) + Directories(REPAIR_DIRS)
  }

  method Record(files: JobFiles, r: Replacement) returns (ok: bool, written: seq<string>)
    requires Live(GENERIC) !in files.tree && Live(MANIFEST) !in files.tree && Live(REPAIR) !in files.tree
    modifies files
    ensures Overlay(files.tree, old(files.tree), Lives([]) + Lives(written))
    ensures ok ==> files.tree == Recorded(old(files.tree), r)
  {
    ghost var base := files.tree;
    written := [];
    ok, written := Create(files, GENERIC, Raw(r.generic), written, base, []);
    if !ok {
      return;
    }
    ok, written := Create(files, MANIFEST, Raw(r.manifest), written, base, []);
    if !ok {
      return;
    }
    ok, written := Create(files, REPAIR, Raw(r.record), written, base, []);
  }

  // The new metadata and the empty directories of a repaired job.
  method Rebuild(files: JobFiles, r: Replacement) returns (ok: bool, made: seq<string>, written: seq<string>)
    requires forall n :: n in REPAIR_CREATES ==> Live(n) !in files.tree
    modifies files
    ensures Overlay(files.tree, old(files.tree), Lives(made) + Lives(written))
    ensures ok ==> made == REPAIR_DIRS && files.tree == Rebuilt(old(files.tree), r)
  {
    ghost var base := files.tree;
    assert GENERIC in REPAIR_CREATES && MANIFEST in REPAIR_CREATES && REPAIR in REPAIR_CREATES;
    made := [];
    ok, written := Record(files, r);
    if !ok {
      return;
    }
    ghost var recorded := files.tree;
    assert forall n :: n in REPAIR_DIRS ==> n in REPAIR_CREATES;
    DirectoriesAbsent(recorded, base, r);
    ok, made := files.MakeDirs(REPAIR_DIRS);
    assert files.tree == recorded + Directories(made);
    OverlayDirectories(recorded, base, Lives([]) + Lives(written), made);
    assert Lives([]) + Lives(written) + Lives(made) == Lives(made) + Lives(written);
  }

  lemma DirectoriesAbsent(t: Tree, base: Tree, r: Replacement)
    requires t == Recorded(base, r) && forall n :: n in REPAIR_DIRS ==> Live(n) !in base
    ensures forall n :: n in REPAIR_DIRS ==> Live(n) !in t
  {
  }

  predicate Same(t: Tree, u: Tree, p: Path) {
    (p in t <==> p in u) && (p in t ==> t[p] == u[p])
  }

  lemma MovedAt(t: Tree, names: set<string>, p: Path)
    requires Movable(t, names)
    ensures p.name !in names || p.Note? ==> Same(Moved(t, names), t, p)
    ensures p.name in names && p.Archived? ==> p in Moved(t, names) && Moved(t, names)[p] == t[Live(p.name)]
    ensures p.name in names && p.Live? ==> p !in Moved(t, names)
  {
  }

  lemma RebuiltAt(t: Tree, r: Replacement, p: Path)
    ensures !(p.Live? && p.name in REPAIR_CREATES) ==> Same(Rebuilt(t, r), t, p)
    ensures p.Live? && p.name in REPAIR_DIRS ==> p in Rebuilt(t, r) && Rebuilt(t, r)[p] == Dir(map[])
  {
    if p.Live? && p.name !in REPAIR_CREATES {
      assert p.name !in REPAIR_DIRS && p.name !in [GENERIC, MANIFEST, REPAIR];
    }
  }

  // Copies the carried seeds out of the archived corpus and adds the extra ones. Whatever it
  // manages, only the new corpus directory changes.
  method Carry(files: JobFiles, r: Replacement) returns (ok: bool)
    requires Live(CORPUS) in files.tree && files.tree[Live(CORPUS)] == Dir(map[])
    requires r.carried != [] ==> Archived(CORPUS) in files.tree && files.tree[Archived(CORPUS)].Dir?
    requires forall n :: n in r.carried ==> n in files.tree[Archived(CORPUS)].files
    modifies files
    ensures exists c :: files.tree == old(files.tree)[Live(CORPUS) := Dir(c)] &&
              (ok ==> c == AddSeeds(map n | n in r.carried :: old(files.tree)[Archived(CORPUS)].files[n], r.seeds))
  {
    ghost var start := files.tree;
    ghost var copied: map<string, Content> := map[];
    ok := true;
    assert start == start[Live(CORPUS) := Dir(copied)];
    for i := 0 to |r.carried|
      invariant files.tree == start[Live(CORPUS) := Dir(copied)]
      invariant copied == map n | n in r.carried[..i] :: start[Archived(CORPUS)].files[n]
    {
      var n := r.carried[i];
      ok := files.WriteInside(Live(CORPUS), n, files.tree[Archived(CORPUS)].files[n]);
      if !ok {
        return;
      }
      copied := copied[n := start[Archived(CORPUS)].files[n]];
      assert r.carried[..i + 1] == r.carried[..i] + [n];
    }
    assert r.carried[..|r.carried|] == r.carried;
    ghost var carried := copied;
    for i := 0 to |r.seeds|
      invariant files.tree == start[Live(CORPUS) := Dir(copied)]
      invariant copied == AddSeeds(carried, r.seeds[..i])
    {
      ok := files.WriteInside(Live(CORPUS), r.seeds[i].0, r.seeds[i].1);
      if !ok {
        return;
      }
      copied := copied[r.seeds[i].0 := r.seeds[i].1];
      assert r.seeds[..i + 1][..i] == r.seeds[..i];
    }
    assert r.seeds[..|r.seeds|] == r.seeds;
    ok := true;
  }

  lemma OverlayWithin(t: Tree, base: Tree, added: set<Path>, p: Path, node: Node)
    requires Overlay(t, base, added) && p in added
    ensures Overlay(t[p := node], base, added)
  {
  }

  // Undoing the harness write turns a layer over the patched tree into one over the original.
  lemma OverlayUnpatched(t: Tree, base: Tree, added: set<Path>, code: Content)
    requires Live(INTEGRATION) in base && base[Live(INTEGRATION)].Dir? && HARNESS in base[Live(INTEGRATION)].files
    requires Overlay(t, base, added) || Overlay(t, Patched(base, code), added)
    ensures Live(INTEGRATION) in t && t[Live(INTEGRATION)].Dir?
    ensures Overlay(Patched(t, base[Live(INTEGRATION)].files[HARNESS]), base, added)
  {
    var prior := base[Live(INTEGRATION)].files[HARNESS];
    assert base[Live(INTEGRATION)].files[HARNESS := code][HARNESS := prior] == base[Live(INTEGRATION)].files;
    assert base[Live(INTEGRATION)].files[HARNESS := prior] == base[Live(INTEGRATION)].files;
  }

  function Seeded(t: Tree, r: Replacement): map<string, Content>
    requires r.carried != [] ==> Archived(CORPUS) in t && t[Archived(CORPUS)].Dir?
    requires forall n :: n in r.carried ==> n in t[Archived(CORPUS)].files
  {
    AddSeeds(map n | n in r.carried :: t[Archived(CORPUS)].files[n], r.seeds)
  }

  // The archived tree can take the replacement.
  predicate Ready(t: Tree, r: Replacement) {
    && Live(INTEGRATION) in t && t[Live(INTEGRATION)].Dir? && HARNESS in t[Live(INTEGRATION)].files
    && (forall n :: n in REPAIR_CREATES ==> Live(n) !in t)
    && (r.carried != [] ==> Archived(CORPUS) in t && t[Archived(CORPUS)].Dir?)
    && forall n :: n in r.carried ==> n in t[Archived(CORPUS)].files
  }

  function Installed(t: Tree, r: Replacement): Tree
    requires Ready(t, r)
  {
    Rebuilt(Patched(t[Note(REPAIR) := File(Raw(r.record))], r.code), r)[Live(CORPUS) := Dir(Seeded(t, r))]
  }

  lemma OverlayPatchedNote(base: Tree, code: Content, name: string, node: Node)
    requires Live(INTEGRATION) in base && base[Live(INTEGRATION)].Dir?
    ensures Overlay(Patched(base[Note(name) := node], code), Patched(base, code), {})
  {
  }

  // The new metadata, directories and corpus, once the harness has been replaced.
  method Refill(files: JobFiles, r: Replacement) returns (ok: bool, made: seq<string>, written: seq<string>)
    requires Ready(files.tree, r)
    modifies files
    ensures Overlay(files.tree, old(files.tree), Lives(made) + Lives(written))
    ensures ok ==> files.tree == Rebuilt(old(files.tree), r)[Live(CORPUS) := Dir(Seeded(old(files.tree), r))]
  {
    ghost var base := files.tree;
    ok, made, written := Rebuild(files, r);
    if !ok {
      return;
    }
    ghost var rebuilt := files.tree;
    assert CORPUS in REPAIR_DIRS;
    RebuiltAt(base, r, Live(CORPUS));
    RebuiltAt(base, r, Archived(CORPUS));
    ok := Carry(files, r);
    ghost var c :| files.tree == rebuilt[Live(CORPUS) := Dir(c)] && (ok ==> c == Seeded(rebuilt, r));
    SeededFrom(rebuilt, base, r);
    OverlayWithin(rebuilt, base, Lives(made) + Lives(written), Live(CORPUS), Dir(c));
  }

  lemma SeededFrom(t: Tree, u: Tree, r: Replacement)
    requires Same(t, u, Archived(CORPUS))
    requires r.carried != [] ==> Archived(CORPUS) in u && u[Archived(CORPUS)].Dir?
    requires forall n :: n in r.carried ==> n in u[Archived(CORPUS)].files
    ensures Seeded(t, r) == Seeded(u, r)
  {
    assert (map n | n in r.carried :: t[Archived(CORPUS)].files[n]) == map n | n in r.carried :: u[Archived(CORPUS)].files[n];
  }

  lemma ReadyStays(t: Tree, r: Replacement, code: Content, node: Node)
    requires Ready(t, r)
    ensures var patched := Patched(t[Note(REPAIR) := node], code);
            Ready(patched, r) && Seeded(patched, r) == Seeded(t, r)
  {
    SeededFrom(Patched(t[Note(REPAIR) := node], code), t, r);
  }

  // Everything between the archive and the state write.
  method Install(files: JobFiles, r: Replacement) returns (ok: bool, made: seq<string>, written: seq<string>)
    requires Ready(files.tree, r)
    modifies files
    ensures var added := Lives(made) + Lives(written);
            || Overlay(files.tree, old(files.tree), added)
            || Overlay(files.tree, Patched(old(files.tree), r.code), added)
    ensures ok ==> files.tree == Installed(old(files.tree), r)
  {
    ghost var base, note := files.tree, File(Raw(r.record));
    made, written := [], [];
    OverlayNote(base, base, {}, REPAIR, note);
    ok := files.Write(Note(REPAIR), Raw(r.record));
    if !ok {
      return;
    }
    ok := files.WriteInside(Live(INTEGRATION), HARNESS, r.code);
    if !ok {
      return;
    }
    ghost var patched := files.tree;
    assert patched == Patched(base[Note(REPAIR) := note], r.code);
    ReadyStays(base, r, r.code, note);
    OverlayPatchedNote(base, r.code, REPAIR, note);
    ok, made, written := Refill(files, r);
    OverlayChain(files.tree, patched, Patched(base, r.code), Lives(made) + Lives(written));
  }

  method RepairHarness(files: JobFiles, items: seq<string>, r: Replacement) returns (ok: bool)
    requires Repairable(files.tree, items, r)
    modifies files
    ensures !ok ==> Entries(files.tree) == old(Entries(files.tree))
    ensures ok ==> Repairable(old(Entries(files.tree)), items, r) &&
                   Entries(files.tree) == RepairResult(old(Entries(files.tree)), items, r)
  {
    var state := StateOf(files.tree);
    var prior := files.tree[Live(INTEGRATION)].files[HARNESS];
    ok := files.Write(Note(STATE), State(state));
    if ok {
      ok := files.Write(Note(HARNESS), prior);
    }
    if !ok {
      return;
    }
    ghost var start := files.tree;
    assert Entries(start) == old(Entries(files.tree));
    var moved, made, written: seq<string> := [], [], [];
    ok, moved := files.ArchiveItems(items);
    if ok {
      ok, made, written := Install(files, r);
    }
    if ok {
      ok := files.Write(Live(STATE), State(RepairState(state)));
    }
    if ok {
      RepairEntries(start, items, r);
    } else {
      RollbackRepair(files, prior, moved, made, written, start, r.code);
    }
  }

  // The old harness is written back first, whether or not it had been replaced.
  method RollbackRepair(files: JobFiles, prior: Content, moved: seq<string>, made: seq<string>, written: seq<string>,
                        ghost start: Tree, ghost code: Content)
    requires Distinct(moved) && Movable(start, Names(moved)) && INTEGRATION !in moved
    requires Live(INTEGRATION) in start && start[Live(INTEGRATION)].Dir?
    requires HARNESS in start[Live(INTEGRATION)].files && start[Live(INTEGRATION)].files[HARNESS] == prior
    requires Overlay(files.tree, Moved(start, Names(moved)), Lives(made) + Lives(written)) ||
             Overlay(files.tree, Patched(Moved(start, Names(moved)), code), Lives(made) + Lives(written))
    modifies files
    ensures Entries(files.tree) == Entries(start)
  {
    OverlayUnpatched(files.tree, Moved(start, Names(moved)), Lives(made) + Lives(written), code);
    files.Rewrite(Live(INTEGRATION), HARNESS, prior);
    Rollback(files, moved, made, written, start);
  }

  lemma OverlayChain(t: Tree, middle: Tree, base: Tree, added: set<Path>)
    requires Overlay(t, middle, added) && Overlay(middle, base, {})
    ensures Overlay(t, base, added)
  {
  }

  lemma EntriesPatched(t: Tree, code: Content)
    requires Live(INTEGRATION) in t && t[Live(INTEGRATION)].Dir?
    ensures Live(INTEGRATION) in Entries(t) && Entries(Patched(t, code)) == Patched(Entries(t), code)
  {
  }

  lemma EntriesRebuilt(t: Tree, r: Replacement)
    ensures Entries(Rebuilt(t, r)) == Rebuilt(Entries(t), r)
  {
    var t1 := t[Live(GENERIC) := File(Raw(r.generic))];
    var t2 := t1[Live(MANIFEST) := File(Raw(r.manifest))];
    var t3 := t2[Live(REPAIR) := File(Raw(r.record))];
    EntriesPut(t, Live(GENERIC), File(Raw(r.generic)));
    EntriesPut(t1, Live(MANIFEST), File(Raw(r.manifest)));
    EntriesPut(t2, Live(REPAIR), File(Raw(r.record)));
    EntriesDirectories(t3, REPAIR_DIRS);
  }

  lemma EntriesInstalled(t: Tree, r: Replacement)
    requires Ready(t, r)
    ensures Live(INTEGRATION) in Entries(t)
    ensures Entries(Installed(t, r)) == Rebuilt(Patched(Entries(t), r.code), r)[Live(CORPUS) := Dir(Seeded(t, r))]
  {
    var noted := t[Note(REPAIR) := File(Raw(r.record))];
    EntriesPut(t, Note(REPAIR), File(Raw(r.record)));
    EntriesPatched(noted, r.code);
    EntriesRebuilt(Patched(noted, r.code), r);
    EntriesPut(Rebuilt(Patched(noted, r.code), r), Live(CORPUS), Dir(Seeded(t, r)));
  }

  lemma RepairEntries(t: Tree, items: seq<string>, r: Replacement)
    requires Repairable(t, items, r)
    ensures Repairable(Entries(t), items, r) && Ready(Moved(t, Names(items)), r)
    ensures Entries(Installed(Moved(t, Names(items)), r)[Live(STATE) := File(State(RepairState(StateOf(t))))])
            == RepairResult(Entries(t), items, r)
  {
    var moved := Moved(t, Names(items));
    MovedEntries(t, Names(items));
    CorpusOfEntries(t, items, r);
    EntriesInstalled(moved, r);
    EntriesPut(Installed(moved, r), Live(STATE), File(State(RepairState(StateOf(t)))));
  }

  // The carried seeds read the same before the archive, after it, and without the notes.
  lemma CorpusOfEntries(t: Tree, items: seq<string>, r: Replacement)
    requires Repairable(t, items, r)
    ensures Repairable(Entries(t), items, r) && Ready(Moved(t, Names(items)), r)
    ensures Seeded(Moved(t, Names(items)), r) == NewCorpus(Entries(t), items, r)
  {
    var before := map n | n in r.carried :: t[Live(CORPUS)].files[n];
    assert before == map n | n in r.carried :: Entries(t)[Live(CORPUS)].files[n];
    assert before == map n | n in r.carried :: Moved(t, Names(items))[Archived(CORPUS)].files[n];
  }
}
