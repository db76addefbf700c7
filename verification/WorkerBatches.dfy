// The worker's batch loop: which saved jobs it takes next, and what resources it plans for the
// jobs of a batch and again for those that are ready to fuzz.
module WorkerBatches {
  import opened Basics
  import opened ResourcePlanner

  type Id = nat

  // A saved job; one that is complete or waits for an operator is not selectable.
  datatype Row = Row(id: Id, priority: nat, created: int, selectable: bool)

  predicate Before(a: Row, b: Row) {
    if a.priority != b.priority then a.priority < b.priority
    else if a.created != b.created then a.created < b.created
    else a.id < b.id
  }

  predicate DistinctRows(rows: seq<Row>) {
    forall i, j :: 0 <= i < j < |rows| ==> rows[i].id != rows[j].id
  }

  predicate Different(ids: seq<Id>) {
    forall i, j :: 0 <= i < j < |ids| ==> ids[i] != ids[j]
  }

  function Insert(r: Row, rows: seq<Row>): seq<Row> {
    if rows != [] && Before(rows[0], r) then [rows[0]] + Insert(r, rows[1..]) else [r] + rows
  }

  // The jobs not attempted yet, in order of preference.
  function Candidates(rows: seq<Row>, attempted: set<Id>): seq<Row> {
    if rows == [] then []
    else if rows[0].selectable && rows[0].id !in attempted then Insert(rows[0], Candidates(rows[1..], attempted))
    else Candidates(rows[1..], attempted)
  }

  predicate Ordered(rows: seq<Row>) {
    forall i, j :: 0 <= i < j < |rows| ==> Before(rows[i], rows[j])
  }

  lemma {:induction false} InsertKeeps(r: Row, rows: seq<Row>)
    requires Ordered(rows) && forall x :: x in rows ==> x.id != r.id
    ensures Ordered(Insert(r, rows)) && |Insert(r, rows)| == |rows| + 1
    ensures forall x :: x in Insert(r, rows) <==> x == r || x in rows
  {
    if rows != [] {
      assert rows == [rows[0]] + rows[1..];
      if Before(rows[0], r) {
        InsertKeeps(r, rows[1..]);
        assert forall x :: x in rows[1..] ==> Before(rows[0], x);
        var rest := Insert(r, rows[1..]);
        assert forall k :: 0 <= k < |rest| ==> rest[k] in rest;
      }
    }
  }

  // Exactly the selectable jobs not attempted yet, each once, best first.
  lemma {:induction false} CandidatesAre(rows: seq<Row>, attempted: set<Id>)
    requires DistinctRows(rows)
    ensures Ordered(Candidates(rows, attempted))
    ensures forall x :: x in Candidates(rows, attempted) <==> x in rows && x.selectable && x.id !in attempted
  {
    if rows != [] {
      CandidatesAre(rows[1..], attempted);
      assert rows == [rows[0]] + rows[1..];
      if rows[0].selectable && rows[0].id !in attempted {
        InsertKeeps(rows[0], Candidates(rows[1..], attempted));
      }
    }
  }

  function Ids(rows: seq<Row>): seq<Id> {
    seq(|rows|, i requires 0 <= i < |rows| => rows[i].id)
  }

  method NextJobs(rows: seq<Row>, attempted: set<Id>, limit: int) returns (ids: seq<Id>)
    requires DistinctRows(rows)
    ensures |ids| <= Max(0, limit) && Different(ids) && forall i :: 0 <= i < |ids| ==> ids[i] !in attempted
    ensures forall i :: 0 <= i < |ids| ==> exists r :: r in rows && r.id == ids[i] && r.selectable
    ensures forall r :: r in rows && r.selectable && r.id !in attempted && r.id !in ids ==>
              |ids| == Max(0, limit) && forall s :: s in rows && s.id in ids ==> Before(s, r)
  {
    if limit < 1 {
      return [];
    }
    var all := Candidates(rows, attempted);
    CandidatesAre(rows, attempted);
    var taken := if |all| <= limit then all else all[..limit];
    ids := Ids(taken);
    forall i | 0 <= i < |ids|
      ensures taken[i] in rows && ids[i] == taken[i].id && taken[i].selectable && ids[i] !in attempted
    {
      assert all[i] in all;
    }
    forall r | r in rows && r.selectable && r.id !in attempted && r.id !in ids
      ensures |ids| == limit && forall s :: s in rows && s.id in ids ==> Before(s, r)
    {
      LeftIsLater(rows, all, |taken|, r);
    }
  }

  lemma LeftIsLater(rows: seq<Row>, all: seq<Row>, n: nat, r: Row)
    requires DistinctRows(rows) && Ordered(all) && n <= |all| && forall x :: x in all ==> x in rows
    requires r in all && r.id !in Ids(all[..n])
    ensures n < |all| && forall s :: s in rows && s.id in Ids(all[..n]) ==> Before(s, r)
  {
    var ids := Ids(all[..n]);
    var k :| 0 <= k < |all| && all[k] == r;
    assert forall i :: 0 <= i < n ==> ids[i] == all[i].id;
    forall s | s in rows && s.id in ids
      ensures Before(s, r)
    {
      var i :| 0 <= i < |ids| && ids[i] == s.id;
      assert all[i] in all;
      SameRow(rows, s, all[i]);
    }
  }

  lemma SameRow(rows: seq<Row>, a: Row, b: Row)
    requires DistinctRows(rows) && a in rows && b in rows && a.id == b.id
    ensures a == b
  {
  }

  // ---------- the batches ----------

  // What the loop meets: the saved jobs and the free machine at each round, which jobs turn out
  // ready to fuzz, and when the operator stops it.
  datatype World = World(
    all: set<Id>, rows: nat -> seq<Row>, machine: nat -> Snapshot, ready: Id -> bool,
    stopsRound: nat -> bool, stopsJob: Id -> bool, stopsRun: nat -> bool)

  // The jobs prepared with one allocation and the fuzzing threads started with another.
  datatype Batch = Batch(machine: Snapshot, jobs: seq<Id>, prepared: Allocation, started: seq<Id>, running: Option<Allocation>)

  // An allocation for exactly that many jobs, which together fit the machine.
  predicate Fits(s: Snapshot, a: Allocation, jobs: int) {
    a.jobs == jobs && jobs * a.container + a.memoryReserve <= s.memoryAvailable && jobs * a.workers + a.cpuReserve <= s.cpuCount
  }

  predicate Sound(b: Batch) {
    && Different(b.jobs) && Fits(b.machine, b.prepared, |b.jobs|)
    && |b.started| <= |b.jobs| && (forall i :: 0 <= i < |b.started| ==> b.started[i] in b.jobs)
    && (b.started != [] <==> b.running.Some?)
    && (b.running.Some? ==> Fits(b.machine, b.running.value, |b.started|) && b.running.value.workers >= b.prepared.workers
                            && b.running.value.container >= b.prepared.container)
  }

  ghost predicate Plausible(w: World) {
    forall k :: DistinctRows(w.rows(k)) && Measured(w.machine(k)) && forall r :: r in w.rows(k) ==> r.id in w.all
  }

  // Prepares the jobs of a batch one after the other.
  method Prepare(w: World, jobs: seq<Id>, setupOnly: bool) returns (ready: seq<Id>, results: seq<Id>)
    requires Different(jobs)
    ensures Different(ready) && Different(results) && |ready| + |results| <= |jobs|
    ensures forall i :: i in ready ==> i in jobs && i !in results && w.ready(i) && !setupOnly
    ensures forall i :: i in results ==> i in jobs
    ensures (forall i :: i in jobs ==> !w.stopsJob(i)) ==> |ready| + |results| == |jobs|
  {
    ready, results := [], [];
    for n := 0 to |jobs|
      invariant Different(ready) && Different(results) && |ready| + |results| == n
      invariant forall i :: i in ready ==> i in jobs[..n] && i !in results && w.ready(i) && !setupOnly
      invariant forall i :: i in results ==> i in jobs[..n]
    {
      if w.stopsJob(jobs[n]) {
        return;
      }
      assert jobs[n] !in jobs[..n] && jobs[..n + 1] == jobs[..n] + [jobs[n]];
      if w.ready(jobs[n]) && !setupOnly {
        ready := ready + [jobs[n]];
      } else {
        results := results + [jobs[n]];
      }
    }
  }

  // Plans a batch twice from one snapshot: for all its jobs, then for those ready to fuzz.
  method RunBatch(c: Settings, w: World, round: nat, jobs: seq<Id>, setupOnly: bool, ghost requested: Option<int>)
    returns (batch: Batch, results: seq<Id>)
    requires Measured(w.machine(round)) && Different(jobs) && jobs != []
    requires PlanResources(c, w.machine(round), requested).Planned?
    requires |jobs| <= PlanResources(c, w.machine(round), requested).allocation.jobs
    ensures Sound(batch) && batch.jobs == jobs && batch.machine == w.machine(round)
    ensures Different(results) && |results| <= |jobs| && forall i :: i in results ==> i in jobs
  {
    var s := w.machine(round);
    ReplanExact(c, s, requested, |jobs|);
    PlanFits(c, s, Some(|jobs|));
    var prepared := PlanResources(c, s, Some(|jobs|)).allocation;
    var ready, early := Prepare(w, jobs, setupOnly);
    results := early;
    if ready != [] && !w.stopsRun(round) {
      ReplanExact(c, s, Some(|jobs|), |ready|);
      PlanFits(c, s, Some(|ready|));
      var running := PlanResources(c, s, Some(|ready|)).allocation;
      batch := Batch(s, jobs, prepared, ready, Some(running));
      results := early + ready;
    } else {
      batch := Batch(s, jobs, prepared, [], None);
    }
  }

  predicate Apart(batches: seq<Batch>) {
    forall a, b, i :: 0 <= a < b < |batches| && i in batches[a].jobs ==> i !in batches[b].jobs
  }

  // What holds of the batches run so far and the results they reported.
  ghost predicate Kept(batches: seq<Batch>, results: seq<Id>, attempted: set<Id>) {
    && Apart(batches) && Different(results)
    && (forall b :: 0 <= b < |batches| ==> Sound(batches[b]))
    && (forall b, i :: 0 <= b < |batches| && i in batches[b].jobs ==> i in attempted)
    && forall i :: i in results ==> i in attempted
  }

  function Attempted(attempted: set<Id>, jobs: seq<Id>): set<Id> {
    attempted + set i | i in jobs
  }

  lemma KeptMore(batches: seq<Batch>, results: seq<Id>, attempted: set<Id>, b: Batch, more: seq<Id>)
    requires Kept(batches, results, attempted) && Sound(b) && Different(more)
    requires forall i :: i in b.jobs ==> i !in attempted
    requires forall i :: i in more ==> i in b.jobs
    ensures Kept(batches + [b], results + more, Attempted(attempted, b.jobs))
  {
    forall k | 0 <= k < |more|
      ensures more[k] !in results
    {
      assert more[k] in more;
    }
    DifferentJoin(results, more);
  }

  lemma DifferentJoin(a: seq<Id>, b: seq<Id>)
    requires Different(a) && Different(b) && forall k :: 0 <= k < |b| ==> b[k] !in a
    ensures Different(a + b)
  {
    forall i, j | 0 <= i < j < |a + b|
      ensures (a + b)[i] != (a + b)[j]
    {
      if i < |a| <= j {
        assert b[j - |a|] !in a && a[i] in a;
      }
    }
  }

  // No job is attempted twice, no more jobs than asked for report a result, and every batch fits
  // the machine both while it is prepared and while its threads fuzz.
  method Run(c: Settings, w: World, maxJobs: nat, setupOnly: bool)
    returns (results: seq<Id>, batches: seq<Batch>, refused: bool)
    requires Plausible(w)
    ensures Different(results) && (maxJobs > 0 ==> |results| <= maxJobs)
    ensures Apart(batches) && forall b :: 0 <= b < |batches| ==> Sound(batches[b])
    ensures refused ==> exists k, r :: PlanResources(c, w.machine(k), r).Refused?
  {
    results, batches, refused := [], [], false;
    var attempted: set<Id> := {};
    var round := 0;
    while (maxJobs == 0 || |results| < maxJobs) && !w.stopsRound(round)
      invariant Kept(batches, results, attempted) && (maxJobs > 0 ==> |results| <= maxJobs)
      invariant attempted <= w.all
      decreases |w.all - attempted|
    {
      var requested: Option<int> := if maxJobs == 0 then None else Some(maxJobs - |results|);
      var plan := PlanResources(c, w.machine(round), requested);
      if plan.Refused? {
        refused := true;
        return;
      }
      if requested.Some? {
        WithinRequest(c, w.machine(round), requested);
      }
      var jobs := NextJobs(w.rows(round), attempted, plan.allocation.jobs);
      if jobs == [] {
        return;
      }
      var batch, more := RunBatch(c, w, round, jobs, setupOnly, requested);
      KeptMore(batches, results, attempted, batch, more);
      FewerLeft(w.all, attempted, Attempted(attempted, jobs), jobs[0]);
      attempted := Attempted(attempted, jobs);
      batches, results, round := batches + [batch], results + more, round + 1;
    }
  }

  lemma WithinRequest(c: Settings, s: Snapshot, requested: Option<int>)
    requires PlanResources(c, s, requested).Planned? && requested.Some? && requested.value > 0
    ensures PlanResources(c, s, requested).allocation.jobs <= requested.value
  {
  }

  lemma FewerLeft(all: set<Id>, before: set<Id>, after: set<Id>, i: Id)
    requires before <= after <= all && i in after && i !in before
    ensures |all - after| < |all - before|
  {
    var left, rest := all - before, all - after;
    assert rest <= left - {i};
    assert left - {i} == rest + (left - {i} - rest);
  }
}
