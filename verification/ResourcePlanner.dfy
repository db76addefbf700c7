// The planner that divides the measured machine among parallel fuzz jobs, the capacity choice
// built on it, and the adaptation after out-of-memory restarts. Memory is in whole megabytes.
module ResourcePlanner {
  import opened Basics

  datatype Snapshot = Snapshot(cpuCount: int, memoryAvailable: int)

  // The planner's settings as configured; every one of them may be any integer.
  datatype Settings = Settings(
    cpuReserve: int, memoryReserve: int,
    minWorkers: int, workerMemory: int, overhead: int, minContainer: int,
    autoJobCap: int, maxJobs: int, containerMemory: int,
    parallelWorkers: int, maxWorkers: int,
    rssLimit: int, adaptiveRssLimit: int)

  datatype Allocation = Allocation(
    jobs: int, workers: int, container: int, rss: int, cpuReserve: int, memoryReserve: int)

  datatype Plan = Planned(allocation: Allocation) | Refused

  // Snapshots are measured: at least one processor is always reported.
  predicate Measured(s: Snapshot) {
    s.cpuCount >= 1
  }

  function CpuReserve(c: Settings, s: Snapshot): int {
    Min(Max(0, c.cpuReserve), Max(0, s.cpuCount - 1))
  }

  function MemoryReserve(c: Settings, s: Snapshot): int {
    Min(Max(0, c.memoryReserve), Max(0, s.memoryAvailable - 512))
  }

  function UsableCpu(c: Settings, s: Snapshot): (n: int)
    ensures n >= 1
  {
    Max(1, s.cpuCount - CpuReserve(c, s))
  }

  function UsableMemory(c: Settings, s: Snapshot): (n: int)
    ensures n >= 512
  {
    Max(512, s.memoryAvailable - MemoryReserve(c, s))
  }

  function WorkerMemory(c: Settings): (n: int)
    ensures n >= 256
  {
    Max(256, c.workerMemory)
  }

  function Overhead(c: Settings): (n: int)
    ensures n >= 128
  {
    Max(128, c.overhead)
  }

  function MinWorkers(c: Settings): (n: int)
    ensures n >= 1
  {
    Max(1, c.minWorkers)
  }

  function MinContainer(c: Settings): (n: int)
    ensures n >= 512
  {
    Max(512, Max(c.minContainer, Overhead(c) + MinWorkers(c) * WorkerMemory(c)))
  }

  function WorkerCap(c: Settings): int {
    if c.parallelWorkers <= 0 then Max(1, c.maxWorkers) else c.parallelWorkers
  }

  // A request of zero or less, like no request, leaves the number of jobs to the planner.
  function Jobs(c: Settings, s: Snapshot, requested: Option<int>): (n: int)
    ensures n >= 1
  {
    var automatic := Min(Max(1, c.autoJobCap),
                         Min(Max(1, UsableCpu(c, s) / MinWorkers(c)), Max(1, UsableMemory(c, s) / MinContainer(c))));
    var capped := if c.maxJobs > 0 then Min(automatic, c.maxJobs) else automatic;
    var asked := if requested.Some? && requested.value > 0 then Min(capped, requested.value) else capped;
    Max(1, asked)
  }

  function Share(c: Settings, s: Snapshot, jobs: int): int
    requires jobs >= 1
  {
    var share := Max(512, UsableMemory(c, s) / jobs);
    if c.containerMemory > 0 then Min(share, c.containerMemory) else share
  }

  function Workers(c: Settings, s: Snapshot, jobs: int): (n: int)
    requires jobs >= 1
    ensures n >= 1
  {
    var memoryLimit := Max(1, (Share(c, s, jobs) - Overhead(c)) / WorkerMemory(c));
    Max(1, Min(WorkerCap(c), Min(Max(1, UsableCpu(c, s) / jobs), memoryLimit)))
  }

  function Container(c: Settings, s: Snapshot, jobs: int): int
    requires jobs >= 1
  {
    Min(Share(c, s, jobs), Max(512, Overhead(c) + Workers(c, s, jobs) * WorkerMemory(c)))
  }

  function Rss(c: Settings, container: int, workers: int): int
    requires workers >= 1
  {
    Max(256, Min(Max(256, c.rssLimit), Max(256, (container - Overhead(c)) / workers)))
  }

  function PlanResources(c: Settings, s: Snapshot, requested: Option<int>): Plan {
    if s.memoryAvailable < 512 then Refused
    else if 0 < c.containerMemory < 512 then Refused
    else
      var jobs := Jobs(c, s, requested);
      var workers := Workers(c, s, jobs);
      var container := Container(c, s, jobs);
      Planned(Allocation(jobs, workers, container, Rss(c, container, workers), CpuReserve(c, s), MemoryReserve(c, s)))
  }

  // ---------- division and multiplication ----------

  lemma MulMono(a: int, b: int, k: int)
    requires a <= b && 0 <= k
    ensures a * k <= b * k
  {
  }

  // The quotient is the largest multiple that fits.
  lemma Quotient(n: int, d: int)
    requires d >= 1
    ensures d * (n / d) <= n < d * (n / d) + d
  {
  }

  lemma DivAtLeast(n: int, d: int, q: int)
    requires d >= 1 && q * d <= n
    ensures q <= n / d
  {
    Quotient(n, d);
    var most := n / d;
    assert (most + 1) * d == d * most + d;
    if q >= most + 1 {
      MulMono(most + 1, q, d);
    }
  }

  lemma ScaleMono(k: int, a: int, b: int)
    requires a <= b && 0 <= k
    ensures k * a <= k * b
  {
  }

  // Equal shares of a whole never exceed it.
  lemma SharesFit(n: int, x: int, whole: int)
    requires n >= 1 && x <= whole / n
    ensures n * x <= whole
  {
    Quotient(whole, n);
    ScaleMono(n, x, whole / n);
  }

  lemma DivMono(n: int, m: int, d: int)
    requires d >= 1 && n <= m
    ensures n / d <= m / d
  {
    Quotient(n, d);
    DivAtLeast(m, d, n / d);
  }

  // Fewer shares are larger.
  lemma DivAnti(n: int, d: int, e: int)
    requires 1 <= d <= e && n >= 0
    ensures n / e <= n / d
  {
    Quotient(n, e);
    assert n / e >= 0;
    MulMono(d, e, n / e);
    DivAtLeast(n, d, n / e);
  }

  // ---------- the plan never overcommits the machine ----------

  lemma JobsFit(c: Settings, s: Snapshot, requested: Option<int>)
    ensures var n := Jobs(c, s, requested);
            && n <= UsableCpu(c, s)
            && (n == 1 || n * MinContainer(c) <= UsableMemory(c, s))
  {
    var n := Jobs(c, s, requested);
    DivAnti(UsableCpu(c, s), 1, MinWorkers(c));
    Quotient(UsableMemory(c, s), MinContainer(c));
    if n > 1 {
      var q := UsableMemory(c, s) / MinContainer(c);
      assert n <= q;
      MulMono(n, q, MinContainer(c));
    }
  }

  lemma ShareFits(c: Settings, s: Snapshot, requested: Option<int>)
    requires !(0 < c.containerMemory < 512)
    ensures var n := Jobs(c, s, requested);
            512 <= Share(c, s, n) && n * Share(c, s, n) <= UsableMemory(c, s)
  {
    var n, usable := Jobs(c, s, requested), UsableMemory(c, s);
    JobsFit(c, s, requested);
    if n > 1 {
      var least := MinContainer(c);
      assert least * n == n * least;
      DivAtLeast(usable, n, least);
    } else {
      assert usable / n == usable;
    }
    SharesFit(n, Share(c, s, n), usable);
  }

  lemma PlanFits(c: Settings, s: Snapshot, requested: Option<int>)
    requires Measured(s) && PlanResources(c, s, requested).Planned?
    ensures var a := PlanResources(c, s, requested).allocation;
            && a.jobs * a.container + a.memoryReserve <= s.memoryAvailable
            && a.jobs * a.workers + a.cpuReserve <= s.cpuCount
            && a.container >= 512
            && a.jobs >= 1 && a.workers >= 1
  {
    var n := Jobs(c, s, requested);
    var container, share, workers := Container(c, s, n), Share(c, s, n), Workers(c, s, n);
    JobsFit(c, s, requested);
    ShareFits(c, s, requested);
    ScaleMono(n, container, share);
    DivAtLeast(UsableCpu(c, s), n, 1);
    SharesFit(n, workers, UsableCpu(c, s));
  }

  // Room for the smallest process limit in every worker.
  lemma RoomPerWorker(share: int, overhead: int, wm: int, workers: int)
    requires wm >= 256 && workers >= 1 && share >= overhead + 256
    requires workers == 1 || workers <= (share - overhead) / wm
    ensures 256 * workers <= Min(share, Max(512, overhead + workers * wm)) - overhead
  {
    if workers > 1 {
      SharesFit(wm, workers, share - overhead);
      MulMono(256, wm, workers);
      assert wm * workers == workers * wm;
    }
  }

  lemma LimitFits(room: int, workers: int, limit: int)
    requires workers >= 1 && 256 * workers <= room
    ensures workers * Max(256, Min(limit, Max(256, room / workers))) <= room
  {
    DivAtLeast(room, workers, 256);
    SharesFit(workers, Max(256, Min(limit, Max(256, room / workers))), room);
  }

  // The fuzzing processes fit their container exactly when the job's memory share leaves room
  // for the smallest limit one process can have.
  lemma ProcessesFitExactly(c: Settings, s: Snapshot, requested: Option<int>)
    requires Measured(s) && PlanResources(c, s, requested).Planned?
    ensures var a := PlanResources(c, s, requested).allocation;
            Overhead(c) + a.workers * a.rss <= a.container <==>
            Share(c, s, a.jobs) >= Overhead(c) + 256
  {
    var n := Jobs(c, s, requested);
    var share, workers, container := Share(c, s, n), Workers(c, s, n), Container(c, s, n);
    var wm, overhead := WorkerMemory(c), Overhead(c);
    if share >= overhead + 256 {
      RoomPerWorker(share, overhead, wm, workers);
      LimitFits(container - overhead, workers, Max(256, c.rssLimit));
    } else {
      DivMono(share - overhead, wm, wm);
      assert workers == 1;
      assert workers * Rss(c, container, workers) == Rss(c, container, workers);
    }
  }

  // ---------- the plan leaves nothing it was allowed to use ----------

  predicate WithinCaps(c: Settings, requested: Option<int>, n: int) {
    && n <= Max(1, c.autoJobCap)
    && (c.maxJobs > 0 ==> n <= c.maxJobs)
    && (requested.Some? && requested.value > 0 ==> n <= requested.value)
  }

  // The number of jobs is the largest one within the caps whose jobs can all have their minimum
  // of processors and memory; a single job is planned even when it cannot.
  lemma JobsMaximal(c: Settings, s: Snapshot, requested: Option<int>, n: int)
    requires n >= 1
    ensures n <= Jobs(c, s, requested) <==>
            n == 1 || (&& WithinCaps(c, requested, n)
                       && n * MinWorkers(c) <= UsableCpu(c, s)
                       && n * MinContainer(c) <= UsableMemory(c, s))
  {
    if n > 1 {
      FitsExactly(n, MinWorkers(c), UsableCpu(c, s));
      FitsExactly(n, MinContainer(c), UsableMemory(c, s));
    }
  }

  lemma FitsExactly(n: int, each: int, whole: int)
    requires each >= 1
    ensures n * each <= whole <==> n <= whole / each
  {
    if n * each <= whole {
      DivAtLeast(whole, each, n);
    }
    if n <= whole / each {
      SharesFit(each, n, whole);
      assert n * each == each * n;
    }
  }

  // Every job gets as many workers as the cap, its processors and its memory allow.
  lemma WorkersMaximal(c: Settings, s: Snapshot, jobs: int, w: int)
    requires jobs >= 1 && w >= 1
    ensures w <= Workers(c, s, jobs) <==>
            w == 1 || (w <= WorkerCap(c) && w * jobs <= UsableCpu(c, s) && w * WorkerMemory(c) <= Share(c, s, jobs) - Overhead(c))
  {
    if w > 1 {
      FitsExactly(w, jobs, UsableCpu(c, s));
      FitsExactly(w, WorkerMemory(c), Share(c, s, jobs) - Overhead(c));
    }
  }

  // The process limit is the configured one or, when that does not fit, the largest that does.
  lemma LimitMaximal(c: Settings, container: int, workers: int, limit: int)
    requires workers >= 1 && limit >= 256
    ensures limit <= Rss(c, container, workers) <==>
            limit == 256 || (limit <= c.rssLimit && Overhead(c) + limit * workers <= container)
  {
    FitsExactly(limit, workers, container - Overhead(c));
  }

  // ---------- re-planning from one snapshot ----------

  lemma WorkersMono(c: Settings, s: Snapshot, fewer: int, more: int)
    requires 1 <= fewer <= more
    ensures Share(c, s, fewer) >= Share(c, s, more)
    ensures Workers(c, s, fewer) >= Workers(c, s, more)
    ensures Container(c, s, fewer) >= Container(c, s, more)
  {
    DivAnti(UsableMemory(c, s), fewer, more);
    DivAnti(UsableCpu(c, s), fewer, more);
    DivMono(Share(c, s, more) - Overhead(c), Share(c, s, fewer) - Overhead(c), WorkerMemory(c));
    MulMono(Workers(c, s, more), Workers(c, s, fewer), WorkerMemory(c));
  }

  // Asking again for any number of jobs the first plan allowed gives exactly that number, each
  // with no fewer workers and no less memory: the threads started match the jobs planned.
  lemma ReplanExact(c: Settings, s: Snapshot, first: Option<int>, k: int)
    requires PlanResources(c, s, first).Planned?
    requires 1 <= k <= PlanResources(c, s, first).allocation.jobs
    ensures PlanResources(c, s, Some(k)).Planned?
    ensures var a, b := PlanResources(c, s, first).allocation, PlanResources(c, s, Some(k)).allocation;
            b.jobs == k && b.workers >= a.workers && b.container >= a.container
  {
    WorkersMono(c, s, k, Jobs(c, s, first));
  }

  function Clamp(asked: int, ceiling: int): int {
    Max(1, Min(asked, ceiling))
  }

  // The central agent's capacity choice: the reply, clamped to the ceiling, becomes the
  // settings of a last planning round.
  function ChooseCapacity(c: Settings, s: Snapshot, runnable: int, jobsReply: int, workersReply: int): Plan {
    match PlanResources(c, s, Some(runnable))
    case Refused => Refused
    case Planned(ceiling) =>
      var jobs := Clamp(jobsReply, ceiling.jobs);
      match PlanResources(c, s, Some(jobs))
      case Refused => Refused
      case Planned(safe) =>
        PlanResources(c.(maxJobs := jobs, parallelWorkers := Clamp(workersReply, safe.workers)), s, Some(jobs))
  }

  // For every reply the applied allocation is the clamped request itself, and takes no more
  // memory per job than the safe plan for that many jobs.
  lemma CapacityExact(c: Settings, s: Snapshot, runnable: int, jobsReply: int, workersReply: int)
    requires PlanResources(c, s, Some(runnable)).Planned?
    ensures ChooseCapacity(c, s, runnable, jobsReply, workersReply).Planned?
    ensures var ceiling := PlanResources(c, s, Some(runnable)).allocation;
            var jobs := Clamp(jobsReply, ceiling.jobs);
            PlanResources(c, s, Some(jobs)).Planned? &&
            var safe := PlanResources(c, s, Some(jobs)).allocation;
            var a := ChooseCapacity(c, s, runnable, jobsReply, workersReply).allocation;
            && a.jobs == jobs <= ceiling.jobs
            && a.workers == Clamp(workersReply, safe.workers) <= safe.workers
            && a.container <= safe.container
  {
    var ceiling := PlanResources(c, s, Some(runnable)).allocation;
    var jobs := Clamp(jobsReply, ceiling.jobs);
    ReplanExact(c, s, Some(runnable), jobs);
    var safe := PlanResources(c, s, Some(jobs)).allocation;
    var d := c.(maxJobs := jobs, parallelWorkers := Clamp(workersReply, safe.workers));
    assert Jobs(d, s, Some(jobs)) == jobs;
    MulMono(Workers(d, s, jobs), Workers(c, s, jobs), WorkerMemory(c));
  }

  // ---------- out-of-memory adaptation ----------

  function Available(c: Settings, s: Snapshot, a: Allocation): int {
    var free := Max(512, s.memoryAvailable - a.memoryReserve);
    if c.containerMemory > 0 then Min(free, c.containerMemory) else free
  }

  function Wanted(c: Settings, a: Allocation, events: int): int {
    Min(Max(Max(256, c.rssLimit), c.adaptiveRssLimit), Max(a.rss, 768) + 256 * events)
  }

  function Enlarge(c: Settings, s: Snapshot, a: Allocation, wanted: int): Allocation {
    var workers := Max(1, a.workers);
    var container := Min(Available(c, s, a), Max(a.container, Overhead(c) + workers * wanted));
    a.(workers := workers, container := container,
       rss := Min(wanted, Max(256, (container - Overhead(c)) / workers)))
  }

  // Each long-running out-of-memory restart raises the memory limits of later sessions.
  function Adapt(c: Settings, s: Snapshot, a: Allocation, events: int): Allocation {
    if events <= 0 then a else Enlarge(c, s, a, Wanted(c, a, events))
  }

  lemma EnlargeMonotone(c: Settings, s: Snapshot, a: Allocation, lower: int, higher: int)
    requires lower <= higher
    ensures var b, d := Enlarge(c, s, a, lower), Enlarge(c, s, a, higher);
            b.container <= d.container && b.rss <= d.rss
  {
    var b, d, workers := Enlarge(c, s, a, lower), Enlarge(c, s, a, higher), Max(1, a.workers);
    ScaleMono(workers, lower, higher);
    DivMono(b.container - Overhead(c), d.container - Overhead(c), workers);
  }

  lemma AdaptRaises(c: Settings, s: Snapshot, requested: Option<int>, events: int)
    requires Measured(s) && PlanResources(c, s, requested).Planned?
    ensures var a := PlanResources(c, s, requested).allocation;
            var b := Adapt(c, s, a, events);
            b.container >= a.container && b.rss >= a.rss && b.jobs == a.jobs && b.workers == a.workers
  {
    var a := PlanResources(c, s, requested).allocation;
    var b := Adapt(c, s, a, events);
    ShareFits(c, s, requested);
    MulMono(1, a.jobs, Share(c, s, a.jobs));
    if events > 0 {
      DivMono(a.container - Overhead(c), b.container - Overhead(c), a.workers);
    }
  }

  lemma AdaptMonotone(c: Settings, s: Snapshot, requested: Option<int>, fewer: int, more: int)
    requires Measured(s) && PlanResources(c, s, requested).Planned? && fewer <= more
    ensures var a := PlanResources(c, s, requested).allocation;
            var b, d := Adapt(c, s, a, fewer), Adapt(c, s, a, more);
            b.container <= d.container && b.rss <= d.rss
  {
    var a := PlanResources(c, s, requested).allocation;
    AdaptRaises(c, s, requested, more);
    if fewer > 0 {
      EnlargeMonotone(c, s, a, Wanted(c, a, fewer), Wanted(c, a, more));
    }
  }

  // One adapted job still fits the machine and the configured container size.
  lemma AdaptFitsOneJob(c: Settings, s: Snapshot, requested: Option<int>, events: int)
    requires Measured(s) && PlanResources(c, s, requested).Planned?
    ensures var b := Adapt(c, s, PlanResources(c, s, requested).allocation, events);
            && b.container + b.memoryReserve <= s.memoryAvailable
            && (c.containerMemory > 0 ==> b.container <= c.containerMemory)
  {
    ShareFits(c, s, requested);
    var a := PlanResources(c, s, requested).allocation;
    MulMono(1, a.jobs, Share(c, s, a.jobs));
  }

  lemma DivShrinks(n: int, d: int)
    requires n >= 1 && d >= 2
    ensures n / d < n
  {
    Quotient(n, d);
    MulMono(2, d, n / d);
  }

  // With more than one job a share is less than the memory, and holds the planned container.
  lemma SharesAreSmall(c: Settings, s: Snapshot, requested: Option<int>)
    requires Jobs(c, s, requested) > 1
    ensures var n, u := Jobs(c, s, requested), UsableMemory(c, s);
            512 <= u / n < u && Container(c, s, n) <= u / n
  {
    var n, u := Jobs(c, s, requested), UsableMemory(c, s);
    JobsFit(c, s, requested);
    ScaleMono(n, 512, MinContainer(c));
    assert 512 * n == n * 512;
    DivAtLeast(u, n, 512);
    DivShrinks(u, n);
  }

  // Parallel jobs are adapted one by one. Together they still fit exactly when there is only one
  // of them, or an equal share of the usable memory holds a container of the configured size, or
  // one for all the workers' raised limits.
  lemma AdaptFitsTogetherExactly(c: Settings, s: Snapshot, requested: Option<int>, events: int)
    requires Measured(s) && PlanResources(c, s, requested).Planned? && events > 0
    ensures var a := PlanResources(c, s, requested).allocation;
            var b := Adapt(c, s, a, events);
            b.jobs * b.container + b.memoryReserve <= s.memoryAvailable <==>
            (a.jobs == 1 ||
             0 < c.containerMemory <= UsableMemory(c, s) / a.jobs ||
             Overhead(c) + a.workers * Wanted(c, a, events) <= UsableMemory(c, s) / a.jobs)
  {
    var a := PlanResources(c, s, requested).allocation;
    var b := Adapt(c, s, a, events);
    assert b.memoryReserve + UsableMemory(c, s) == s.memoryAvailable;
    if a.jobs == 1 {
      AdaptFitsOneJob(c, s, requested, events);
    } else {
      FitsExactly(b.container, a.jobs, UsableMemory(c, s));
      assert b.jobs * b.container == b.container * a.jobs;
      SharesAreSmall(c, s, requested);
    }
  }

  // So two jobs on a small machine outgrow it after one restart.
  lemma AdaptOvercommitsTogether()
    ensures exists c, s :: Measured(s) && PlanResources(c, s, None).Planned? &&
              var b := Adapt(c, s, PlanResources(c, s, None).allocation, 1);
              b.jobs * b.container + b.memoryReserve > s.memoryAvailable
  {
    var c := Settings(0, 0, 1, 256, 128, 512, 2, 2, 0, 1, 1, 256, 1024);
    var s := Snapshot(2, 1024);
    assert Jobs(c, s, None) == 2 && Share(c, s, 2) == 512 && Workers(c, s, 2) == 1 && Container(c, s, 2) == 512;
    assert PlanResources(c, s, None).allocation == Allocation(2, 1, 512, 256, 0, 0);
    AdaptFitsTogetherExactly(c, s, None, 1);
  }
}
