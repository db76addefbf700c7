// Every run of worker steps and central recoveries halts, and what holds throughout a run.
module Termination {
  import opened Basics
  import opened FuzzTime
  import opened Lifecycle

  predicate BeforeFuzzing(stage: Stage) {
    Preparation(stage) || (stage.Integration? || stage.Build? || stage.Smoke? || stage.QuartetGate? || stage.CoverageAnalysis?)
  }

  // A plan exists only from the coverage analysis on. Whatever status the controller itself gives
  // a fuzzing job comes with an approved review; a job that is ready for a session has an
  // approved plan too, unless triage returned it from its probe, and one that waits for a harness
  // has a closed plan.
  predicate PlanInv(j: Job) {
    && (BeforeFuzzing(j.stage) && j.stage != CoverageAnalysis ==> j.plan.None?)
    && (j.stage == CoverageAnalysis ==> j.review == Some(true))
    && (j.stage == Fuzzing && j.status.AflPending? ==> Approved(j))
    && ((j.stage == Fuzzing && j.status.Ready?) || j.stage == Triage ==> Approved(j) || Returned(j))
    && (NeedsHarness(j) ==> j.review == Some(true) && j.plan == Some(false))
  }

  // What the crash files of a probe leave behind: no analysis was made before the triage.
  predicate Returned(j: Job) {
    j.plan.None? && j.probe.Some? && j.probe.value.CrashFiles()
  }

  // No harness whose probe left crash files, or found anything but an uncaught C++ exception,
  // gets past the gate, except to triage and back.
  predicate Clean(p: Probe) {
    !p.CrashFiles() && (p.finding ==> p.kind == CppException)
  }

  predicate ProbeInv(j: Job) {
    && (j.probe.Some? ==> ValidProbe(j.probe.value))
    && (j.stage == CoverageAnalysis && j.probe.Some? ==> Clean(j.probe.value))
    && ((j.stage == Fuzzing || j.stage == Triage) && j.probe.Some? ==> Clean(j.probe.value) || Returned(j))
  }

  // The optional AFL lane and the automatic repairs and generations stay within their limits.
  predicate BoundInv(cfg: Config, j: Job) {
    && (j.status == AflPending ==> j.stage == Fuzzing && !j.afl)
    && (j.status == QuartetRepairPending ==>
          j.stage == QuartetGate && j.generic && j.review.Some? && j.repairs < cfg.maxGenerationCycles)
    && (j.status == SkippedAfterRecovery ==> j.stage == Complete)
    && j.generations <= Max(0, cfg.maxGenerationCycles)
    && j.repairs <= Max(0, cfg.maxGenerationCycles)
  }

  // What every reachable job satisfies, operator commands included.
  predicate Inv(cfg: Config, j: Job) {
    PlanInv(j) && ProbeInv(j) && BoundInv(cfg, j)
  }

  // The part of the invariant that does not depend on the status.
  predicate Sound(cfg: Config, j: Job) {
    && (BeforeFuzzing(j.stage) && j.stage != CoverageAnalysis ==> j.plan.None?)
    && (j.stage == CoverageAnalysis ==> j.review == Some(true)) && ProbeInv(j)
    && (j.stage == Triage ==> Approved(j) || Returned(j))
    && j.generations <= Max(0, cfg.maxGenerationCycles) && j.repairs <= Max(0, cfg.maxGenerationCycles)
  }

  lemma GateKeepsInv(cfg: Config, j: Job, exit: Exit, choice: Target)
    requires Inv(cfg, j) && j.stage == QuartetGate && j.review.Some?
    requires exit == ToAnalysis ==> j.review == Some(true) && (j.probe.Some? ==> Clean(j.probe.value))
    requires exit == Repair ==> j.generic && j.repairs < cfg.maxGenerationCycles
    requires exit == ToTriage ==> j.probe.Some? && j.probe.value.CrashFiles()
    requires exit != ToFuzzing
    ensures Inv(cfg, Enter(j, exit, choice))
  {
  }

  lemma QuartetKeepsInv(cfg: Config, j: Job, ready: bool, choice: Target)
    requires Inv(cfg, j) && j.stage == QuartetGate && j.review == Some(ready)
    ensures Inv(cfg, ApplyQuartet(cfg, j, ready, choice))
  {
    var clean := RejectedCleanly(j, ready);
    var retry := clean && choice in RetryCandidates(cfg, j);
    var k := if clean then j.(attempted := AttemptedAfter(j)) else j;
    GateKeepsInv(cfg, k, Route(cfg, j, ready, retry), choice);
  }

  lemma ResultKeepsInv(cfg: Config, j: Job, total: nat, verdict: Verdict)
    requires Inv(cfg, j) && CanFuzz(j) && ValidVerdict(cfg, j, verdict)
    ensures Inv(cfg, ApplyResult(cfg, j, total, verdict))
  {
  }

  // A recorded error overrides the status, so the rest is enough.
  lemma ErrorKeepsInv(cfg: Config, j: Job, error: Option<Message>)
    requires Sound(cfg, j)
    ensures Inv(cfg, RecordError(cfg, j, error))
  {
  }

  lemma SessionLeavesSound(cfg: Config, j: Job, left: Leftover)
    requires Inv(cfg, j) && ValidLeftover(cfg, j, left)
    requires left.PlanClosed? || left.Cut? || left.Unfinished? || left.AflWritten?
    ensures Sound(cfg, Leave(cfg, j, left))
  {
  }

  lemma ArchiveLeavesSound(cfg: Config, j: Job, left: Leftover)
    requires Inv(cfg, j) && ValidLeftover(cfg, j, left) && (left.Alternate? || left.Archived?)
    ensures Sound(cfg, Leave(cfg, j, left))
  {
  }

  lemma JudgeLeavesSound(cfg: Config, j: Job, e: JudgeStep)
    requires Sound(cfg, j) && JudgeEnabled(j, e)
    ensures Sound(cfg, AfterJudge(j, e))
  {
  }

  lemma LeaveKeepsSound(cfg: Config, j: Job, left: Leftover)
    requires Inv(cfg, j) && Runnable(j) && ValidLeftover(cfg, j, left)
    ensures Sound(cfg, Leave(cfg, j, left))
  {
    if left.PlanClosed? || left.Cut? || left.Unfinished? || left.AflWritten? {
      SessionLeavesSound(cfg, j, left);
    } else if left.Alternate? || left.Archived? {
      ArchiveLeavesSound(cfg, j, left);
    } else if left.Judged? {
      JudgeLeavesSound(cfg, j, left.judge);
    }
  }

  lemma FailureKeepsInv(cfg: Config, j: Job, error: Option<Message>, left: Leftover)
    requires Inv(cfg, j) && Runnable(j) && ValidLeftover(cfg, j, left)
    ensures Inv(cfg, RecordError(cfg, Leave(cfg, j, left), error))
  {
    LeaveKeepsSound(cfg, j, left);
    ErrorKeepsInv(cfg, Leave(cfg, j, left), error);
  }

  lemma RecoveryKeepsInv(cfg: Config, j: Job, action: Action)
    requires Inv(cfg, j) && Eligible(j)
    ensures Inv(cfg, ApplyRecovery(j, action))
  {
  }

  lemma SetupKeepsInv(cfg: Config, j: Job, e: SetupStep)
    requires Inv(cfg, j) && Runnable(j) && SetupEnabled(j, e)
    ensures Inv(cfg, AfterSetup(cfg, j, e))
  {
  }

  lemma GateStepKeepsInv(cfg: Config, j: Job, e: GateStep)
    requires Inv(cfg, j) && GateEnabled(cfg, j, e)
    ensures Inv(cfg, AfterGate(cfg, j, e))
  {
    match e
    case Review(ready, choice) => QuartetKeepsInv(cfg, j.(review := Some(ready)), ready, choice);
    case ReapplyReview(choice) => QuartetKeepsInv(cfg, j, j.review.value, choice);
    case _ =>
  }

  lemma FinishKeepsInv(cfg: Config, j: Job)
    requires Sound(cfg, j) && j.stage == Fuzzing && Approved(j)
    ensures Inv(cfg, Finish(j))
  {
  }

  lemma ScheduleKeepsInv(cfg: Config, j: Job)
    requires Sound(cfg, j) && j.stage == Fuzzing && j.review == Some(true) && j.plan.Some?
    ensures Inv(cfg, Schedule(j))
  {
  }

  lemma ReadyKeepsInv(cfg: Config, j: Job, error: Option<Message>)
    requires Sound(cfg, j) && j.stage == Fuzzing && Approved(j)
    ensures Inv(cfg, Resume(j, error))
  {
  }

  lemma ResmokeKeepsInv(cfg: Config, j: Job, targets: set<Target>, preferred: Option<Target>)
    requires Sound(cfg, j)
    ensures Inv(cfg, Resmoke(j, targets, preferred))
  {
  }

  lemma LimitKeepsInv(cfg: Config, j: Job, reason: Message)
    requires Sound(cfg, j)
    ensures Inv(cfg, Limit(j, reason))
  {
  }

  lemma AflKeepsInv(cfg: Config, ended: Job, crashes: nat, harness: bool)
    requires Sound(cfg, ended) && ended.stage == Fuzzing && Approved(ended)
    ensures Inv(cfg, EndAfl(cfg, ended, crashes, harness))
  {
    if crashes > 0 || ended.completed >= cfg.budget * 1000 {
      FinishKeepsInv(cfg, ended.(crashes := crashes, evidence := true));
    } else if harness {
      ScheduleKeepsInv(cfg, ended);
    } else {
      ReadyKeepsInv(cfg, ended, None);
    }
  }

  lemma GenerationKeepsInv(cfg: Config, j: Job, e: FuzzStep)
    requires Sound(cfg, j) && FuzzEnabled(cfg, j, e) && (e.GenerationLimit? || e.Generate?)
    ensures Inv(cfg, AfterFuzz(cfg, j, e))
  {
    if e.GenerationLimit? {
      LimitKeepsInv(cfg, j, e.reason);
    } else {
      ResmokeKeepsInv(cfg, CountCycle(j), e.targets, e.preferred);
    }
  }

  lemma FinishingKeepsInv(cfg: Config, j: Job, e: FuzzStep)
    requires Sound(cfg, j) && CanFuzz(j) && (e.StopLowYield? || e.BudgetSpent?)
    ensures Inv(cfg, AfterFuzz(cfg, j, e))
  {
    FinishKeepsInv(cfg, j);
  }

  lemma SchedulingKeepsInv(cfg: Config, j: Job, e: FuzzStep)
    requires Sound(cfg, j) && CanFuzz(j) && (e.ScheduleHarness? || e.StopFollowup?)
    ensures Inv(cfg, AfterFuzz(cfg, j, e))
  {
    ScheduleKeepsInv(cfg, if e.StopFollowup? then Closed(j) else j);
  }

  lemma LaneKeepsInv(cfg: Config, j: Job, e: FuzzStep)
    requires Inv(cfg, j) && AflDue(j) && (e.AflFailed? || e.AflSession?)
    ensures Inv(cfg, AfterFuzz(cfg, j, e))
  {
    if e.AflFailed? {
      ReadyKeepsInv(cfg, AflRan(j, 0), Some(e.reason));
    } else {
      AflKeepsInv(cfg, AflRan(j, e.elapsed), e.crashes, e.harness);
    }
  }

  lemma JudgeKeepsInv(cfg: Config, j: Job, e: JudgeStep)
    requires Inv(cfg, j) && Runnable(j) && JudgeEnabled(j, e)
    ensures Inv(cfg, AfterJudge(j, e))
  {
  }

  lemma FuzzStepKeepsInv(cfg: Config, j: Job, e: FuzzStep) returns (k: Job)
    requires Inv(cfg, j) && FuzzEnabled(cfg, j, e)
    ensures k == AfterFuzz(cfg, j, e) && Inv(cfg, k)
  {
    k := AfterFuzz(cfg, j, e);
    if e.GenerationLimit? || e.Generate? {
      GenerationKeepsInv(cfg, j, e);
    } else if e.AflFailed? || e.AflSession? {
      LaneKeepsInv(cfg, j, e);
    } else if e.ScheduleHarness? || e.StopFollowup? {
      SchedulingKeepsInv(cfg, j, e);
    } else {
      FinishingKeepsInv(cfg, j, e);
    }
  }

  lemma WorkKeepsInv(cfg: Config, j: Job, w: Work)
    requires Inv(cfg, j) && Runnable(j) && WorkEnabled(cfg, j, w)
    ensures Inv(cfg, AfterWork(cfg, j, w))
  {
    match w
    case Setup(s) => SetupKeepsInv(cfg, j, s);
    case Gate(g) => GateStepKeepsInv(cfg, j, g);
    case Fuzz(f) => var k := FuzzStepKeepsInv(cfg, j, f);
    case Session(_, accounted, verdict) => ResultKeepsInv(cfg, j, Charged(cfg, j, accounted), verdict);
    case Replay(accounted, verdict) => ResultKeepsInv(cfg, j, Charged(cfg, j, accounted), verdict);
    case Judge(e) => JudgeKeepsInv(cfg, j, e);
  }

  lemma InvPreserved(cfg: Config, j: Job, e: Event)
    requires Inv(cfg, j) && Enabled(cfg, j, e)
    ensures Inv(cfg, After(cfg, j, e))
  {
    match e
    case Done(w) => WorkKeepsInv(cfg, j, w);
    case Overrun(w) =>
      WorkKeepsInv(cfg, j, w);
      ErrorKeepsInv(cfg, AfterWork(cfg, j, w), Some(TRANSITION_LIMIT));
    case Fail(error, left) => FailureKeepsInv(cfg, j, error, left);
    case Recover(action, _, _) => RecoveryKeepsInv(cfg, j, action);
    case _ =>
  }

  // ---------- the variant ----------

  // Everything a job can still spend, most significant first. Recoveries bound failures;
  // failures, builds, generations and repairs bound the rebuilds that may enlarge the set of
  // targets; untried targets bound the returns to the smoke test; the way to the first session,
  // the AFL lane, the milliseconds of budget and an open session bound the crash files; those
  // bound the returns from triage. The position in the stage order comes next, and last the calls
  // a worker has left for a stage that finds everything done.
  datatype Measure = Measure(
    alive: nat, recoveries: nat, failures: nat, unbuilt: nat, generations: nat, repairs: nat,
    untried: nat, gated: nat, afl: nat, time: nat, open: nat, crashes: nat, rank: nat, calls: nat)

  predicate Less(a: Measure, b: Measure) {
    if a.alive != b.alive then a.alive < b.alive
    else if a.recoveries != b.recoveries then a.recoveries < b.recoveries
    else if a.failures != b.failures then a.failures < b.failures
    else if a.unbuilt != b.unbuilt then a.unbuilt < b.unbuilt
    else if a.generations != b.generations then a.generations < b.generations
    else if a.repairs != b.repairs then a.repairs < b.repairs
    else if a.untried != b.untried then a.untried < b.untried
    else if a.gated != b.gated then a.gated < b.gated
    else if a.afl != b.afl then a.afl < b.afl
    else if a.time != b.time then a.time < b.time
    else if a.open != b.open then a.open < b.open
    else if a.crashes != b.crashes then a.crashes < b.crashes
    else if a.rank != b.rank then a.rank < b.rank
    else a.calls < b.calls
  }

  function Upcoming(j: Job): Option<Target> {
    if j.stage == Smoke then
      if j.preferred.Some? && j.preferred.value in j.targets then j.preferred else None
    else j.current
  }

  // A target that was already rejected once may be reviewed again after a rebuild; the odd
  // part pays for moving on from it to an untried one.
  function Untried(j: Job): nat {
    var next := Upcoming(j);
    2 * |j.targets - j.attempted| +
    if next.Some? && next.value in j.targets - j.attempted then 0 else 1
  }

  function Rank(j: Job): nat {
    match j.stage
    case Integration => 13
    case Build => 12
    case Smoke => 11
    case QuartetGate =>
      if j.status == QuartetRepairPending then 7
      else if j.probe.None? then 10 else if j.review.None? then 9 else 8
    case CoverageAnalysis => 6
    case Fuzzing =>
      if Fuzzable(j.status) then 5 else if j.status == AflPending then 4 else if NeedsHarness(j) then 3 else 0
    case Triage => 2
    case Validation => 1
    case _ => 14
  }

  function Variant(cfg: Config, j: Job): Measure {
    Measure(
      if Terminal(j) then 0 else 1,
      Max(0, cfg.maxRecoveries - j.recoveries),
      if Manual(j.status) then 0 else Max(0, cfg.maxStageFailures - j.failures) + 1,
      if Preparation(j.stage) || j.stage == Integration || j.stage == Build then 1 else 0,
      Max(0, cfg.maxGenerationCycles - j.generations),
      Max(0, cfg.maxGenerationCycles - j.repairs),
      Untried(j),
      if BeforeFuzzing(j.stage) then 1 else 0,
      if j.afl then 0 else 1,
      Max(0, cfg.budget * 1000 - j.completed),
      if j.active then 1 else 0,
      j.crashes,
      Rank(j),
      if j.stage == CoverageAnalysis && !Manual(j.status) then Max(0, TRANSITIONS - j.stalls) else 0)
  }

  lemma CardinalityDrop<T>(s: set<T>, x: T)
    requires x in s
    ensures |s - {x}| == |s| - 1
  {
  }

  // The untried targets after the reviewed one was recorded as attempted.
  lemma RecordingKeepsUntried(j: Job)
    ensures var before, after := j.targets - j.attempted, j.targets - AttemptedAfter(j);
            if j.current.Some? && j.current.value in before
            then after == before - {j.current.value} && |after| == |before| - 1
            else after == before
  {
    var before, after := j.targets - j.attempted, j.targets - AttemptedAfter(j);
    if j.current.Some? && j.current.value in j.targets {
      var failed := j.current.value;
      assert after == before - {failed};
      if failed in before {
        CardinalityDrop(before, failed);
      }
    }
  }

  lemma NextTargetIsFresh(cfg: Config, j: Job, choice: Target)
    requires choice in RetryCandidates(cfg, j)
    ensures j.current.Some? && j.current.value in j.targets
    ensures Untried(Enter(j.(attempted := AttemptedAfter(j)), NextTarget, choice)) == 2 * |j.targets - AttemptedAfter(j)|
  {
  }

  // Recording the reviewed target as attempted never enlarges the untried set, and moving on
  // to a fresh target strictly lowers the measure.
  lemma RejectionLowersUntried(cfg: Config, j: Job, choice: Target)
    requires j.stage == QuartetGate
    ensures Untried(j.(attempted := AttemptedAfter(j))) <= Untried(j)
    ensures choice in RetryCandidates(cfg, j) ==>
              Untried(Enter(j.(attempted := AttemptedAfter(j)), NextTarget, choice)) < Untried(j)
  {
    RecordingKeepsUntried(j);
    if choice in RetryCandidates(cfg, j) {
      NextTargetIsFresh(cfg, j, choice);
    }
  }

  lemma EnterStops(cfg: Config, j: Job, exit: Exit, choice: Target)
    requires !Terminal(j) && !Manual(j.status)
    requires exit == Untriageable || exit == Spent
    ensures Less(Variant(cfg, Enter(j, exit, choice)), Variant(cfg, j))
  {
  }

  lemma EnterAdvances(cfg: Config, j: Job, exit: Exit, choice: Target)
    requires Runnable(j) && j.stage == QuartetGate && j.probe.Some? && j.review.Some?
    requires exit == ToTriage || exit == ToFuzzing || exit == ToAnalysis || (exit == Repair && j.status != QuartetRepairPending)
    ensures Less(Variant(cfg, Enter(j, exit, choice)), Variant(cfg, j))
  {
    assert Untried(Enter(j, exit, choice)) == Untried(j);
  }

  lemma EnterRetries(cfg: Config, j: Job, choice: Target)
    requires Runnable(j) && j.stage == QuartetGate && choice in RetryCandidates(cfg, j)
    ensures Less(Variant(cfg, Enter(j.(attempted := AttemptedAfter(j)), NextTarget, choice)), Variant(cfg, j))
  {
    RejectionLowersUntried(cfg, j, choice);
  }

  lemma AttemptedOnly(cfg: Config, j: Job, attempted: set<Target>)
    ensures var k := j.(attempted := attempted); Variant(cfg, k) == Variant(cfg, j).(untried := Untried(k))
  {
  }

  lemma QuartetDecreases(cfg: Config, j: Job, ready: bool, choice: Target)
    requires Inv(cfg, j) && Runnable(j) && j.stage == QuartetGate && j.probe.Some? && j.review == Some(ready)
    requires j.status == QuartetRepairPending ==> HasFinding(j) && j.probe.value.kind != CppException
    ensures Less(Variant(cfg, ApplyQuartet(cfg, j, ready, choice)), Variant(cfg, j))
  {
    RejectionLowersUntried(cfg, j, choice);
    var clean := RejectedCleanly(j, ready);
    var retry := clean && choice in RetryCandidates(cfg, j);
    var k := if clean then j.(attempted := AttemptedAfter(j)) else j;
    var exit := Route(cfg, j, ready, retry);
    if exit == Untriageable || exit == Spent {
      EnterStops(cfg, k, exit, choice);
    } else if exit == NextTarget {
      EnterRetries(cfg, j, choice);
    } else {
      EnterAdvances(cfg, k, exit, choice);
    }
    AttemptedOnly(cfg, j, k.attempted);
  }

  lemma ProbeDecreases(cfg: Config, j: Job, probe: Probe)
    requires Runnable(j) && GateEnabled(cfg, j, RunProbe(probe))
    ensures Less(Variant(cfg, AfterGate(cfg, j, RunProbe(probe))), Variant(cfg, j))
  {
  }

  lemma RepairDecreases(cfg: Config, j: Job, targets: set<Target>, preferred: Option<Target>)
    requires Inv(cfg, j) && Runnable(j) && GateEnabled(cfg, j, RepairHarness(targets, preferred))
    ensures Less(Variant(cfg, AfterGate(cfg, j, RepairHarness(targets, preferred))), Variant(cfg, j))
  {
  }

  lemma ReviewLowersRank(cfg: Config, j: Job, ready: bool)
    requires j.stage == QuartetGate && j.status != QuartetRepairPending && j.probe.Some? && j.review.None?
    ensures Variant(cfg, j.(review := Some(ready))) == Variant(cfg, j).(rank := 8) && Rank(j) == 9
  {
  }

  lemma ReviewDecreases(cfg: Config, j: Job, ready: bool, choice: Target)
    requires Inv(cfg, j) && Runnable(j) && GateEnabled(cfg, j, Review(ready, choice))
    ensures Less(Variant(cfg, AfterGate(cfg, j, Review(ready, choice))), Variant(cfg, j))
  {
    ReviewLowersRank(cfg, j, ready);
    QuartetDecreases(cfg, j.(review := Some(ready)), ready, choice);
  }

  lemma GateDecreases(cfg: Config, j: Job, e: GateStep)
    requires Inv(cfg, j) && Runnable(j) && GateEnabled(cfg, j, e)
    ensures Less(Variant(cfg, AfterGate(cfg, j, e)), Variant(cfg, j))
  {
    match e
    case Review(ready, choice) => ReviewDecreases(cfg, j, ready, choice);
    case ReapplyReview(choice) => QuartetDecreases(cfg, j, j.review.value, choice);
    case RunProbe(probe) => ProbeDecreases(cfg, j, probe);
    case RepairHarness(targets, preferred) => RepairDecreases(cfg, j, targets, preferred);
  }

  lemma SetupDecreases(cfg: Config, j: Job, e: SetupStep)
    requires Inv(cfg, j) && Runnable(j) && SetupEnabled(j, e)
    ensures Less(Variant(cfg, AfterSetup(cfg, j, e)), Variant(cfg, j))
  {
  }

  // What neither a session nor the lane touches.
  predicate SameSetup(j: Job, k: Job) {
    && k.recoveries == j.recoveries && k.failures == j.failures && k.generations == j.generations && k.repairs == j.repairs
    && k.targets == j.targets && k.attempted == j.attempted && k.current == j.current
  }

  // Using the AFL lane pays for whatever follows it.
  lemma LanePays(cfg: Config, j: Job, k: Job)
    requires Runnable(j) && j.stage == Fuzzing && (k.stage == Fuzzing || k.stage == Triage) && SameSetup(j, k)
    requires !j.afl && k.afl
    ensures Less(Variant(cfg, k), Variant(cfg, j))
  {
    assert Untried(k) == Untried(j);
  }

  lemma AflDecreases(cfg: Config, j: Job, elapsed: nat, crashes: nat, harness: bool)
    requires Runnable(j) && AflDue(j) && !j.afl
    ensures Less(Variant(cfg, EndAfl(cfg, AflRan(j, elapsed), crashes, harness)), Variant(cfg, j))
  {
    LanePays(cfg, j, EndAfl(cfg, AflRan(j, elapsed), crashes, harness));
  }

  lemma AflFailedDecreases(cfg: Config, j: Job, reason: Message)
    requires Runnable(j) && AflDue(j) && !j.afl
    ensures Less(Variant(cfg, AfterFuzz(cfg, j, AflFailed(reason))), Variant(cfg, j))
  {
    LanePays(cfg, j, AfterFuzz(cfg, j, AflFailed(reason)));
  }

  lemma GenerationDecreases(cfg: Config, j: Job, e: FuzzStep)
    requires Runnable(j) && FuzzEnabled(cfg, j, e) && (e.GenerationLimit? || e.Generate?)
    ensures Less(Variant(cfg, AfterFuzz(cfg, j, e)), Variant(cfg, j))
  {
  }

  lemma StopDecreases(cfg: Config, j: Job, e: FuzzStep)
    requires Runnable(j) && FuzzEnabled(cfg, j, e)
    requires e.ScheduleHarness? || e.StopLowYield? || e.StopFollowup? || e.BudgetSpent?
    ensures Less(Variant(cfg, AfterFuzz(cfg, j, e)), Variant(cfg, j))
  {
  }

  lemma LaneDecreases(cfg: Config, j: Job, e: FuzzStep)
    requires Runnable(j) && AflDue(j) && !j.afl && (e.AflFailed? || e.AflSession?)
    ensures Less(Variant(cfg, AfterFuzz(cfg, j, e)), Variant(cfg, j))
  {
    if e.AflFailed? {
      AflFailedDecreases(cfg, j, e.reason);
    } else {
      AflDecreases(cfg, j, e.elapsed, e.crashes, e.harness);
    }
  }

  lemma FuzzStepDecreases(cfg: Config, j: Job, e: FuzzStep)
    requires Inv(cfg, j) && Runnable(j) && FuzzEnabled(cfg, j, e)
    ensures Less(Variant(cfg, AfterFuzz(cfg, j, e)), Variant(cfg, j))
  {
    if e.GenerationLimit? || e.Generate? {
      GenerationDecreases(cfg, j, e);
    } else if e.AflFailed? || e.AflSession? {
      LaneDecreases(cfg, j, e);
    } else {
      StopDecreases(cfg, j, e);
    }
  }

  // More time is charged than before, or an open session is closed.
  predicate Pays(cfg: Config, j: Job, total: nat) {
    total >= j.completed && (j.active || j.completed < Min(total, cfg.budget * 1000))
  }

  lemma TimePays(cfg: Config, j: Job, k: Job)
    requires Runnable(j) && j.stage == Fuzzing && (k.stage == Fuzzing || k.stage == Triage) && SameSetup(j, k)
    requires k.afl == j.afl && !k.active && Pays(cfg, j, k.completed)
    ensures Less(Variant(cfg, k), Variant(cfg, j))
  {
    assert Untried(k) == Untried(j);
  }

  lemma WaitingPays(cfg: Config, j: Job, k: Job)
    requires Runnable(j) && Manual(k.status) && k.recoveries == j.recoveries
    ensures Less(Variant(cfg, k), Variant(cfg, j))
  {
  }

  lemma ResultKeepsSetup(cfg: Config, j: Job, total: nat, verdict: Verdict)
    requires j.stage == Fuzzing && !verdict.LogLimit?
    ensures var k := ApplyResult(cfg, j, total, verdict);
            SameSetup(j, k) && (k.stage == Fuzzing || k.stage == Triage) && k.afl == j.afl && !k.active && k.completed == total
  {
  }

  // Whatever the verdict, the job goes on with less to spend.
  lemma ResultLowers(cfg: Config, j: Job, total: nat, verdict: Verdict)
    requires CanFuzz(j) && Pays(cfg, j, total)
    ensures Less(Variant(cfg, ApplyResult(cfg, j, total, verdict)), Variant(cfg, j))
  {
    var k := ApplyResult(cfg, j, total, verdict);
    if verdict.LogLimit? {
      WaitingPays(cfg, j, k);
    } else {
      ResultKeepsSetup(cfg, j, total, verdict);
      TimePays(cfg, j, k);
    }
  }

  // A session that may start has budget left, so that any time it accounts for is charged.
  lemma ResultDecreases(cfg: Config, j: Job, accounted: nat, verdict: Verdict)
    requires CanFuzz(j) && (j.active || (accounted > 0 && Remaining(cfg.budget, j.completed) > 0))
    ensures Less(Variant(cfg, ApplyResult(cfg, j, Charged(cfg, j, accounted), verdict)), Variant(cfg, j))
  {
    ResultLowers(cfg, j, Charged(cfg, j, accounted), verdict);
  }

  lemma JudgeDecreases(cfg: Config, j: Job, e: JudgeStep)
    requires Runnable(j) && JudgeEnabled(j, e)
    ensures Less(Variant(cfg, AfterJudge(j, e)), Variant(cfg, j))
  {
  }

  predicate SameCounts(j: Job, k: Job) {
    k.failures == j.failures && k.recoveries == j.recoveries
  }

  lemma TakenKeepsCounts(j: Job, moved: nat)
    ensures SameCounts(j, Taken(j, moved))
  {
  }

  lemma JudgeKeepsCounts(j: Job, e: JudgeStep)
    ensures SameCounts(j, AfterJudge(j, e))
  {
  }

  lemma LeaveKeepsCounts(cfg: Config, j: Job, left: Leftover)
    ensures SameCounts(j, Leave(cfg, j, left))
  {
    match left
    case Alternate(choice, moved) => TakenKeepsCounts(j.(review := Some(false), preferred := Some(choice)), moved);
    case Archived(_, _, moved, _) => TakenKeepsCounts(j, moved);
    case Judged(e) => JudgeKeepsCounts(j, e);
    case _ =>
  }

  // A recorded failure is paid for by the failures left, whatever else changed.
  lemma ErrorLowers(cfg: Config, j: Job, k: Job, error: Option<Message>)
    requires Runnable(j) && SameCounts(j, k)
    ensures Less(Variant(cfg, RecordError(cfg, k, error)), Variant(cfg, j))
  {
  }

  lemma FailureDecreases(cfg: Config, j: Job, error: Option<Message>, left: Leftover)
    requires Runnable(j)
    ensures Less(Variant(cfg, RecordError(cfg, Leave(cfg, j, left), error)), Variant(cfg, j))
  {
    LeaveKeepsCounts(cfg, j, left);
    ErrorLowers(cfg, j, Leave(cfg, j, left), error);
  }

  lemma RecoveryDecreases(cfg: Config, j: Job, action: Action, vendored: bool, initial: bool)
    requires Inv(cfg, j) && RecoverEnabled(cfg, j, action, vendored, initial)
    ensures Less(Variant(cfg, ApplyRecovery(j, action)), Variant(cfg, j))
  {
  }

  lemma WorkDecreases(cfg: Config, j: Job, w: Work)
    requires Inv(cfg, j) && Runnable(j) && WorkEnabled(cfg, j, w)
    ensures Less(Variant(cfg, AfterWork(cfg, j, w)), Variant(cfg, j))
  {
    match w
    case Setup(s) => SetupDecreases(cfg, j, s);
    case Gate(g) => GateDecreases(cfg, j, g);
    case Fuzz(f) => FuzzStepDecreases(cfg, j, f);
    case Session(_, accounted, verdict) => ResultDecreases(cfg, j, accounted, verdict);
    case Replay(accounted, verdict) => ResultDecreases(cfg, j, accounted, verdict);
    case Judge(e) => JudgeDecreases(cfg, j, e);
  }

  lemma ErrorNeverIncreases(cfg: Config, j: Job, error: Option<Message>)
    ensures var m, n := Variant(cfg, RecordError(cfg, j, error)), Variant(cfg, j); m == n || Less(m, n)
  {
  }

  // Every step of the worker and the central agent spends something.
  lemma StepDecreases(cfg: Config, j: Job, e: Event)
    requires Inv(cfg, j) && Enabled(cfg, j, e) && !Operator(e)
    ensures Less(Variant(cfg, After(cfg, j, e)), Variant(cfg, j))
  {
    match e
    case Done(w) => WorkDecreases(cfg, j, w);
    case Overrun(w) =>
      WorkDecreases(cfg, j, w);
      ErrorNeverIncreases(cfg, AfterWork(cfg, j, w), Some(TRANSITION_LIMIT));
    case Fail(error, left) => FailureDecreases(cfg, j, error, left);
    case Recover(action, vendored, initial) => RecoveryDecreases(cfg, j, action, vendored, initial);
    case _ =>
  }

  // One enabled step, with the measure it leaves.
  lemma Spend(cfg: Config, j: Job, e: Event) returns (k: Job, m: Measure)
    requires Inv(cfg, j) && Enabled(cfg, j, e) && !Operator(e)
    ensures k == After(cfg, j, e) && Inv(cfg, k) && m == Variant(cfg, k) && Less(m, Variant(cfg, j))
  {
    k := After(cfg, j, e);
    m := Variant(cfg, k);
    InvPreserved(cfg, j, e);
    StepDecreases(cfg, j, e);
  }

  predicate RunsAt(cfg: Config, run: nat -> Job, es: nat -> Event, n: nat) {
    !Operator(es(n)) && Step(cfg, run(n), es(n), run(n + 1))
  }

  lemma {:induction false} HaltsFrom(cfg: Config, run: nat -> Job, es: nat -> Event, m: Measure, from: nat)
    returns (to: nat)
    requires Inv(cfg, run(from)) && m == Variant(cfg, run(from))
    ensures from <= to && !RunsAt(cfg, run, es, to)
    decreases m.alive, m.recoveries, m.failures, m.unbuilt, m.generations, m.repairs, m.untried,
              m.gated, m.afl, m.time, m.open, m.crashes, m.rank, m.calls
  {
    to := from;
    if RunsAt(cfg, run, es, from) {
      var k, rest := Spend(cfg, run(from), es(from));
      to := HaltsFrom(cfg, run, es, rest, from + 1);
    }
  }

  lemma StepKeepsInv(cfg: Config, js: seq<Job>, es: seq<Event>, i: nat)
    requires Path(cfg, js, es) && i < |es| && Inv(cfg, js[i])
    ensures Inv(cfg, js[i + 1])
  {
    assert StepAt(cfg, js, es, i);
    InvPreserved(cfg, js[i], es[i]);
  }

  lemma {:induction false} ReachableInv(cfg: Config, js: seq<Job>, es: seq<Event>, n: nat)
    requires Life(cfg, js, es) && n <= |es|
    ensures Inv(cfg, js[n])
  {
    if n > 0 {
      ReachableInv(cfg, js, es, n - 1);
      StepKeepsInv(cfg, js, es, n - 1);
    }
  }

  // From any state the controller can reach, operator commands included, there is no endless
  // run of worker steps and central recoveries.
  lemma EveryRunHalts(cfg: Config, js: seq<Job>, past: seq<Event>, run: nat -> Job, es: nat -> Event)
    requires Life(cfg, js, past) && run(0) == js[|past|]
    ensures exists n: nat :: !RunsAt(cfg, run, es, n)
  {
    ReachableInv(cfg, js, past, |past|);
    var n := HaltsFrom(cfg, run, es, Variant(cfg, run(0)), 0);
  }
}
