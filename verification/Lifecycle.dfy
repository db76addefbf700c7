// One fuzzing job as a persistent state machine. An event is one effect the controller can
// have on the job's saved state: a worker stage call (with the outcome of its AI review,
// build, probe or session as an argument), a recovery by the central agent, or an operator
// command. Enabled says when the controller can produce the event, After what it saves.
module Lifecycle {
  import opened Basics
  import opened FuzzTime

  type Target = nat
  type Message = nat

  datatype Stage =
    | PolicyRecheck | SourceCheckout | ToolSync | Integration | Build | Smoke
    | QuartetGate | CoverageAnalysis | Fuzzing | Triage | Validation | Complete

  datatype Status =
    | Queued | Preparing | Prepared | Integrated | Built | Generated | TargetRetryPending
    | QuartetPending | QuartetRepairPending | AnalysisPending
    | Ready | Running | Interrupted | WorkerFailed
    | HarnessWorkPending | GenerationFailed | AflPending | AflRunning | TriagePending
    | RecoveryPending | ManualReview | QuartetReviewRequired
    | ValidationPending | TriageReview | CampaignExhausted | ReadyForHuman
    | UnsupportedIntegration | SkippedAfterRecovery

  datatype CrashKind = NoCrash | SanitizerError | CppException | Untriaged

  datatype Probe = Probe(finding: bool, files: nat, kind: CrashKind) {
    predicate CrashFiles() {
      files > 0
    }
  }

  datatype Action = RetryStage | RestartFromIntegration | SkipTarget

  // A failure fingerprint is the hash of stage and normalised message, taken as injective.
  datatype Recovery = Recovery(stage: Stage, error: Message, action: Action)

  datatype Config = Config(
    maxStageFailures: int,
    maxGenerationCycles: int,
    maxTargetAttempts: int,
    maxRecoveries: int,
    budget: int,
    checkpoint: int,
    generatedRoute: bool,
    nativeRoute: bool,
    aflEnabled: bool)

  // The saved state together with the artifacts that steer it. `preferred` belongs to the
  // build manifest, `current` is the target the smoke result or the review names, `plan` and
  // `review` hold execution_ready. `crashes` counts the crash files that the result named for
  // triage still has, `evidence` says that the job was ever handed to triage with a result named.
  // `stalls` counts the calls of the running worker that found everything done and saved nothing.
  datatype Job = Job(
    stage: Stage, status: Status, error: Option<Message>, exhausted: bool,
    failures: nat, recoveries: nat, generations: nat, repairs: nat,
    history: seq<Recovery>,
    targets: set<Target>, attempted: set<Target>,
    preferred: Option<Target>, current: Option<Target>,
    generic: bool, probe: Option<Probe>, review: Option<bool>, plan: Option<bool>,
    run: bool, afl: bool, active: bool, completed: nat, crashes: nat, evidence: bool, stalls: nat)

  const TRANSITIONS := 100

  datatype Next = NextReady | NextAfl | NextHarness

  datatype Verdict =
    | Finding(crashes: nat)
    | LogLimit(reason: Message)
    | LowYield
    | Followup
    | Continue(next: Next)

  // What a stage call that raises may leave behind on disk: artifacts written or archived
  // before the state that goes with them. `moved` counts the artifacts an archive has taken, in
  // its order: smoke result, probe, review, plan, fuzz record; `lost` says that it then took the
  // progress record and could not write the continuation.
  datatype Leftover =
    | Nothing
    | Advanced(stage: Stage)
    | IntegrationWritten
    | Rebuilt(targets: set<Target>, preferred: Option<Target>)
    | Smoked(selected: Target)
    | Probed(probe: Probe)
    | Reviewed(ready: bool)
    | Alternate(choice: Target, moved: nat)
    | Analyzed(ready: bool)
    | Archived(targets: set<Target>, preferred: Option<Target>, moved: nat, lost: bool)
    | PlanClosed
    | Cut(requested: nat, elapsed: nat, run: bool)
    | Unfinished(requested: nat, accounted: nat, charged: bool, closed: bool)
    | AflWritten(elapsed: nat, charged: bool, closed: bool)
    | FilesMoved(moved: nat)
    | Judged(judge: JudgeStep)

  datatype SetupStep =
    | Prepare
    | Integrate
    | BuildTargets(targets: set<Target>, preferred: Option<Target>)
    | SmokeTest(selected: Target)
    | Analyze(ready: bool)
    | AnalyzeCached

  datatype GateStep =
    | RunProbe(probe: Probe)
    | Review(ready: bool, choice: Target)
    | ReapplyReview(choice: Target)
    | RepairHarness(targets: set<Target>, preferred: Option<Target>)

  datatype FuzzStep =
    | GenerationLimit(reason: Message)
    | Generate(targets: set<Target>, preferred: Option<Target>)
    | ScheduleHarness
    | StopLowYield
    | StopFollowup
    | BudgetSpent
    | AflFailed(reason: Message)
    | AflSession(elapsed: nat, crashes: nat, harness: bool)

  // What triage makes of the crash files, and the validation of a confirmed crash.
  datatype JudgeStep =
    | Confirmed
    | FalsePositive(moved: nat)
    | Unconfirmed
    | NothingFound
    | Validated

  // One stage call that returned.
  datatype Work =
    | Setup(setup: SetupStep)
    | Gate(gate: GateStep)
    | Fuzz(fuzz: FuzzStep)
    | Session(requested: nat, accounted: nat, verdict: Verdict)
    | Replay(accounted: nat, verdict: Verdict)
    | Judge(judge: JudgeStep)

  // Overrun is the stage call that used up the worker's transition limit: whatever it saved,
  // an error is recorded on top. A validation ends the worker's call and never does.
  datatype Event =
    | Done(work: Work)
    | Overrun(work: Work)
    | Fail(error: Option<Message>, leftover: Leftover)
    | Unsupported(error: Option<Message>)
    | Recover(action: Action, vendored: bool, initial: bool)
    | Retarget
    | OperatorRepair

  // Statuses the worker never picks up.
  predicate Manual(status: Status) {
    || status.RecoveryPending? || status.QuartetReviewRequired? || status.ManualReview? || status.UnsupportedIntegration?
    || status.TriageReview? || status.CampaignExhausted? || status.ReadyForHuman?
  }

  predicate Terminal(j: Job) {
    j.stage == Complete
  }

  predicate Fuzzable(status: Status) {
    (status.Ready? || status.Running? || status.Interrupted? || status.WorkerFailed?)
  }

  predicate Preparation(stage: Stage) {
    (stage.PolicyRecheck? || stage.SourceCheckout? || stage.ToolSync?)
  }

  // The worker picks the job up and its dispatcher finds a stage method to call.
  predicate Runnable(j: Job) {
    && !Manual(j.status) && !Terminal(j)
    && (j.stage == Fuzzing ==>
          Fuzzable(j.status) || (j.status.HarnessWorkPending? || j.status.GenerationFailed? || j.status.AflPending?))
  }

  // ---------- the Quartet gate ----------

  function TargetLimit(cfg: Config): (n: int)
    ensures n >= 1
  {
    Max(1, cfg.maxTargetAttempts)
  }

  // Whether a rejected review is followed by another built target, and which ones qualify.
  function AttemptedAfter(j: Job): set<Target> {
    if j.current.Some? && j.current.value in j.targets
      then (j.attempted * j.targets) + {j.current.value}
      else j.attempted
  }

  function RetryCandidates(cfg: Config, j: Job): set<Target> {
    if j.current.Some? && j.current.value in j.targets && |AttemptedAfter(j)| < TargetLimit(cfg)
      then j.targets - AttemptedAfter(j)
      else {}
  }

  predicate HasFinding(j: Job) {
    j.probe.Some? && j.probe.value.finding
  }

  predicate RejectedCleanly(j: Job, ready: bool) {
    !ready && !HasFinding(j)
  }

  datatype Exit = ToTriage | Untriageable | ToFuzzing | ToAnalysis | NextTarget | Repair | Spent

  // The branch chain that turns a review into the next stage.
  function Route(cfg: Config, j: Job, ready: bool, retry: bool): Exit {
    var finding := HasFinding(j);
    var crash := finding && j.probe.value.CrashFiles();
    var kind := if finding then j.probe.value.kind else NoCrash;
    if finding && kind == SanitizerError && crash then ToTriage
    else if finding && kind != CppException && (!ready || !crash) then Untriageable
    else if ready && crash then ToTriage
    else if ready && j.plan.Some? then ToFuzzing
    else if ready then ToAnalysis
    else if retry then NextTarget
    else if j.generic && j.repairs < cfg.maxGenerationCycles then Repair
    else Spent
  }

  function Enter(j: Job, exit: Exit, choice: Target): Job {
    match exit
    case ToTriage =>
      j.(stage := Triage, status := TriagePending, error := None, evidence := true,
         crashes := if j.probe.Some? then j.probe.value.files else 0)
    case Untriageable =>
      j.(stage := QuartetGate, status := QuartetReviewRequired, error := Some(UNTRIAGED_FINDING),
         failures := Max(1, j.failures))
    case ToFuzzing => j.(stage := Fuzzing, status := Ready, error := None)
    case ToAnalysis => j.(stage := CoverageAnalysis, status := AnalysisPending, error := None)
    case NextTarget =>
      j.(stage := Smoke, status := TargetRetryPending, preferred := Some(choice), error := None,
         current := None, probe := None, review := None, plan := None)
    case Repair => j.(stage := QuartetGate, status := QuartetRepairPending, error := None)
    case Spent =>
      j.(stage := QuartetGate, status := QuartetReviewRequired, exhausted := true,
         error := Some(GATE_EXHAUSTED), failures := Max(1, j.failures))
  }

  const UNTRIAGED_FINDING: Message := 0
  const GATE_EXHAUSTED: Message := 1
  const TRANSITION_LIMIT: Message := 2

  function ApplyQuartet(cfg: Config, j: Job, ready: bool, choice: Target): Job {
    var clean := RejectedCleanly(j, ready);
    var retry := clean && choice in RetryCandidates(cfg, j);
    var reviewed := if clean then j.(attempted := AttemptedAfter(j)) else j;
    Enter(reviewed, Route(cfg, j, ready, retry), choice)
  }

  // ---------- fuzzing ----------

  predicate Approved(j: Job) {
    j.review == Some(true) && j.plan == Some(true)
  }

  // A follow-up harness needs an unused generation cycle; choosing one closes the plan.
  predicate CanSchedule(cfg: Config, j: Job) {
    j.generations < cfg.maxGenerationCycles && j.plan.Some?
  }

  function Schedule(j: Job): Job {
    j.(status := HarnessWorkPending, plan := Some(false), error := None)
  }

  function Finish(j: Job): Job {
    j.(stage := Triage, status := TriagePending, error := None, active := false)
  }

  predicate ValidAccounting(requested: nat, accounted: nat, verdict: Verdict) {
    if verdict.Finding? || verdict.LogLimit? then 0 < accounted <= requested * 1000
    else accounted == requested * 1000 || accounted >= 300_000
  }

  predicate ValidVerdict(cfg: Config, j: Job, verdict: Verdict) {
    match verdict
    case Finding(crashes) => crashes > 0
    case Followup => cfg.nativeRoute && CanSchedule(cfg, j)
    case Continue(NextAfl) => !cfg.nativeRoute && cfg.aflEnabled && !j.afl
    case Continue(NextHarness) => CanSchedule(cfg, j)
    case _ => true
  }

  function ApplyResult(cfg: Config, j: Job, total: nat, verdict: Verdict): Job {
    var ended := j.(run := true, active := false, completed := total, crashes := 0);
    match verdict
    case Finding(crashes) => Finish(ended.(crashes := crashes, evidence := true))
    case LogLimit(e) =>
      ended.(status := ManualReview, exhausted := true, error := Some(e), failures := Max(1, j.failures))
    case LowYield => Finish(ended)
    case Followup => Schedule(ended)
    case Continue(next) =>
      if total >= cfg.budget * 1000 then Finish(ended)
      else match next
        case NextHarness => Schedule(ended)
        case NextAfl => ended.(status := AflPending, error := None)
        case NextReady => Resume(ended, None)
  }

  // ---------- failures ----------

  // An analysis needs an approved review and the probe, and is made once.
  predicate CanAnalyze(j: Job) {
    j.stage == CoverageAnalysis && j.review == Some(true) && j.probe.Some? && j.plan.None?
  }

  // The stage calls that compile a harness.
  predicate Building(j: Job) {
    || j.stage == Integration || j.stage == Build
    || (j.stage == QuartetGate && j.status == QuartetRepairPending)
    || NeedsHarness(j)
  }

  // The longest session that may start.
  function Slice(cfg: Config, j: Job): int {
    Min(Remaining(cfg.budget, j.completed), cfg.checkpoint)
  }

  predicate ValidLeftover(cfg: Config, j: Job, left: Leftover) {
    match left
    case Nothing => true
    case Advanced(stage) => Preparation(j.stage) && Preparation(stage) && stage != PolicyRecheck
    case IntegrationWritten => j.stage == Integration
    case Rebuilt(_, _) => Building(j) && j.stage != Integration
    case Smoked(_) => j.stage == Smoke
    case Probed(p) => j.stage == QuartetGate && j.probe.None? && ValidProbe(p)
    case Reviewed(_) =>
      j.stage == QuartetGate && j.status != QuartetRepairPending && j.current.Some? && j.probe.Some? && j.review.None?
    case Alternate(choice, moved) =>
      && j.stage == QuartetGate && j.probe.Some? && !HasFinding(j) && moved <= 4
      && (j.review == Some(false) || (j.review.None? && j.status != QuartetRepairPending))
      && choice in RetryCandidates(cfg, j)
    case Analyzed(_) => CanAnalyze(j)
    case Archived(_, _, moved, lost) =>
      Building(j) && (j.stage == QuartetGate || j.stage == Fuzzing) && moved <= 5 && (lost ==> moved == 5)
    case PlanClosed => CanFuzz(j) && CanSchedule(cfg, j)
    case Cut(requested, elapsed, _) => CanFuzz(j) && 1 <= requested <= Slice(cfg, j) && elapsed <= requested * 1000
    case Unfinished(requested, accounted, charged, closed) =>
      CanFuzz(j) && 1 <= requested <= Slice(cfg, j) && (closed ==> charged && CanSchedule(cfg, j))
    case AflWritten(elapsed, charged, closed) =>
      && j.stage == Fuzzing && j.status == AflPending && !j.afl
      && elapsed <= Remaining(cfg.budget, j.completed) * 1000 && (closed ==> charged && CanSchedule(cfg, j))
    case FilesMoved(moved) => j.stage == Triage && moved <= j.crashes
    case Judged(judge) => JudgeEnabled(j, judge) && !judge.Validated?
  }

  // The evidence that survives an archive which stopped after `moved` artifacts.
  function Taken(j: Job, moved: nat): Job {
    j.(current := if moved >= 3 then None else j.current,
       probe := if moved >= 2 then None else j.probe,
       review := if moved >= 3 then None else j.review,
       plan := if moved >= 4 then None else j.plan,
       run := moved < 5 && j.run)
  }

  function Leave(cfg: Config, j: Job, left: Leftover): Job {
    match left
    case Nothing => j
    case Advanced(stage) => j.(stage := stage)
    case IntegrationWritten => j.(generic := cfg.generatedRoute)
    case Rebuilt(targets, preferred) => j.(targets := targets, preferred := preferred)
    case Smoked(selected) => j.(current := Some(selected))
    case Probed(p) => j.(probe := Some(p))
    case Reviewed(ready) => j.(review := Some(ready))
    case Alternate(choice, moved) => Taken(j.(review := Some(false), preferred := Some(choice)), moved)
    case Analyzed(ready) => j.(plan := Some(ready))
    case Archived(targets, preferred, moved, lost) =>
      Taken(j, moved).(targets := targets, preferred := preferred, completed := if lost then 0 else j.completed)
    case PlanClosed => j.(plan := Some(false))
    case Cut(_, elapsed, run) =>
      j.(status := Interrupted, completed := j.completed + elapsed, active := false, run := j.run || run)
    case Unfinished(_, accounted, charged, closed) =>
      j.(status := Running, run := true, active := true, plan := if closed then Some(false) else j.plan,
         completed := if charged then j.completed + Charge(cfg.budget, j.completed, accounted) else j.completed)
    case AflWritten(elapsed, charged, closed) =>
      j.(status := AflRunning, afl := true, plan := if closed then Some(false) else j.plan,
         completed := if charged then j.completed + elapsed else j.completed)
    case FilesMoved(moved) => j.(crashes := if moved <= j.crashes then j.crashes - moved else 0)
    case Judged(judge) => AfterJudge(j, judge)
  }

  // An exception that reached the worker: an interrupted session stays resumable until the
  // failure limit, every other status waits for the central agent.
  function RecordError(cfg: Config, j: Job, error: Option<Message>): Job {
    var failures := j.failures + 1;
    j.(failures := failures, error := error, stalls := 0,
       status := if failures >= cfg.maxStageFailures then ManualReview
                 else if j.status == Interrupted then Interrupted
                 else RecoveryPending)
  }

  predicate ValidProbe(p: Probe) {
    (p.CrashFiles() ==> p.finding) && (p.kind == NoCrash <==> !p.finding)
  }

  // ---------- recovery ----------

  predicate Recoverable(stage: Stage) {
    || stage.SourceCheckout? || stage.ToolSync? || stage.Integration? || stage.Build?
    || stage.Smoke? || stage.QuartetGate? || stage.CoverageAnalysis? || stage.Fuzzing?
  }

  predicate Restartable(stage: Stage) {
    (stage.Build? || stage.Smoke? || stage.QuartetGate? || stage.CoverageAnalysis? || stage.Fuzzing?)
  }

  predicate Eligible(j: Job) {
    && (j.status.RecoveryPending? || j.status.ManualReview? || j.status.QuartetReviewRequired?)
    && Recoverable(j.stage) && j.failures > 0 && j.error.Some?
  }

  function RecoveryCount(j: Job): nat {
    Max(|j.history|, j.recoveries)
  }

  predicate Exhausted(j: Job) {
    j.exhausted || (j.status == QuartetReviewRequired && j.stage == QuartetGate)
  }

  // The actions the central agent may choose from; skipping is always among them.
  predicate Offered(cfg: Config, j: Job, action: Action, vendored: bool, initial: bool)
    requires Eligible(j)
  {
    var open := !Exhausted(j) && RecoveryCount(j) < Max(0, cfg.maxRecoveries);
    var tried := Recovery(j.stage, j.error.value, action) in j.history;
    match action
    case SkipTarget => true
    case RetryStage => open && !vendored && !tried
    case RestartFromIntegration =>
      open && !tried && cfg.generatedRoute && (Restartable(j.stage) || initial)
  }

  const HISTORY_LIMIT := 20

  function LastOf<T>(s: seq<T>): seq<T> {
    if |s| <= HISTORY_LIMIT then s else s[|s| - HISTORY_LIMIT..]
  }

  function RetryStatus(stage: Stage): Status {
    match stage
    case Integration => Prepared
    case Build => Integrated
    case Smoke => Built
    case QuartetGate => QuartetPending
    case CoverageAnalysis => AnalysisPending
    case Fuzzing => Interrupted
    case _ => Preparing
  }

  function ApplyRecovery(j: Job, action: Action): Job
    requires Eligible(j)
  {
    var k := j.(failures := 0, recoveries := j.recoveries + 1,
                history := LastOf(j.history + [Recovery(j.stage, j.error.value, action)]));
    match action
    case RestartFromIntegration =>
      k.(stage := Integration, status := Prepared, error := None, generic := false, targets := {},
         preferred := None, current := None, probe := None, review := None, plan := None)
    case RetryStage => k.(status := RetryStatus(j.stage), error := None)
    case SkipTarget => k.(stage := Complete, status := SkippedAfterRecovery)
  }

  // Both operator commands archive every artifact but the recovery history and start a new
  // attempts record, so all counters return to zero.
  function OperatorReset(j: Job): Job {
    j.(error := None, exhausted := false, failures := 0, recoveries := 0, generations := 0,
       repairs := 0, targets := {}, attempted := {}, preferred := None, current := None,
       probe := None, review := None, plan := None, run := false, afl := false, active := false,
       completed := 0, crashes := 0, evidence := false, stalls := 0)
  }

  // ---------- the step relation ----------

  predicate SetupEnabled(j: Job, e: SetupStep) {
    match e
    case Prepare => Preparation(j.stage)
    case Integrate => j.stage == Integration
    case BuildTargets(_, _) => j.stage == Build
    case SmokeTest(selected) =>
      && j.stage == Smoke && selected in j.targets
      && (j.preferred.Some? && j.preferred.value in j.targets ==> selected == j.preferred.value)
    case Analyze(_) => CanAnalyze(j)
    case AnalyzeCached =>
      j.stage == CoverageAnalysis && j.review == Some(true) && j.plan.Some? && j.stalls < TRANSITIONS
  }

  function AfterSetup(cfg: Config, j: Job, e: SetupStep): Job {
    match e
    case Prepare => j.(stage := Integration, status := Prepared, error := None)
    case Integrate => j.(stage := Build, status := Integrated, error := None, generic := cfg.generatedRoute)
    case BuildTargets(targets, preferred) =>
      j.(stage := Smoke, status := Built, error := None, targets := targets, preferred := preferred)
    case SmokeTest(selected) =>
      j.(stage := QuartetGate, status := QuartetPending, error := None, current := Some(selected))
    case Analyze(ready) =>
      j.(stage := Fuzzing, status := if ready then Ready else HarnessWorkPending, error := None, plan := Some(ready))
    case AnalyzeCached => j.(stalls := j.stalls + 1)
  }

  // An alternate target is tried only when one qualifies, and then one that qualifies.
  predicate ValidChoice(cfg: Config, j: Job, ready: bool, choice: Target) {
    RejectedCleanly(j, ready) && RetryCandidates(cfg, j) != {} ==> choice in RetryCandidates(cfg, j)
  }

  predicate GateEnabled(cfg: Config, j: Job, e: GateStep) {
    && j.stage == QuartetGate
    && match e
       case RunProbe(p) => j.status != QuartetRepairPending && j.probe.None? && ValidProbe(p)
       case Review(ready, choice) =>
         && j.status != QuartetRepairPending && j.current.Some? && j.probe.Some? && j.review.None?
         && ValidChoice(cfg, j, ready, choice)
       case ReapplyReview(choice) =>
         && j.probe.Some? && j.review.Some? && ValidChoice(cfg, j, j.review.value, choice)
         && (j.status == QuartetRepairPending ==> HasFinding(j) && j.probe.value.kind != CppException)
       case RepairHarness(_, _) =>
         && j.status == QuartetRepairPending && j.generic && j.review.Some?
         && (HasFinding(j) ==> j.probe.value.kind == CppException)
  }

  // A rebuilt harness goes back to the smoke test with its old evidence archived.
  function Resmoke(j: Job, targets: set<Target>, preferred: Option<Target>): Job {
    j.(stage := Smoke, status := Generated, error := None, targets := targets, preferred := preferred,
       current := None, probe := None, review := None, plan := None, run := false, crashes := 0)
  }

  function AfterGate(cfg: Config, j: Job, e: GateStep): Job
    requires GateEnabled(cfg, j, e)
  {
    match e
    case RunProbe(p) => j.(probe := Some(p))
    case Review(ready, choice) => ApplyQuartet(cfg, j.(review := Some(ready)), ready, choice)
    case ReapplyReview(choice) => ApplyQuartet(cfg, j, j.review.value, choice)
    case RepairHarness(targets, preferred) => Resmoke(j, targets, preferred).(repairs := j.repairs + 1)
  }

  predicate CanFuzz(j: Job) {
    j.stage == Fuzzing && Fuzzable(j.status) && Approved(j)
  }

  predicate NeedsHarness(j: Job) {
    j.stage == Fuzzing && (j.status.HarnessWorkPending? || j.status.GenerationFailed?)
  }

  predicate AflDue(j: Job) {
    j.stage == Fuzzing && j.status == AflPending
  }

  predicate FuzzEnabled(cfg: Config, j: Job, e: FuzzStep) {
    match e
    case GenerationLimit(_) => NeedsHarness(j) && j.generations >= cfg.maxGenerationCycles
    case Generate(_, _) => NeedsHarness(j) && j.generations < cfg.maxGenerationCycles
    case ScheduleHarness => CanFuzz(j) && CanSchedule(cfg, j)
    case StopLowYield => CanFuzz(j) && j.run && j.crashes == 0
    case StopFollowup => CanFuzz(j) && j.run && j.crashes == 0 && cfg.nativeRoute && CanSchedule(cfg, j)
    case BudgetSpent => CanFuzz(j) && j.run && Remaining(cfg.budget, j.completed) == 0
    case AflFailed(_) => AflDue(j)
    case AflSession(elapsed, _, harness) =>
      && AflDue(j) && elapsed <= Remaining(cfg.budget, j.completed) * 1000
      && (harness ==> CanSchedule(cfg, j))
  }

  function CountCycle(j: Job): Job {
    j.(generations := j.generations + 1)
  }

  function Closed(j: Job): Job {
    j.(active := false)
  }

  function AflRan(j: Job, elapsed: nat): Job {
    j.(afl := true, completed := j.completed + elapsed)
  }

  function Resume(j: Job, error: Option<Message>): Job {
    j.(status := Ready, error := error)
  }

  function EndAfl(cfg: Config, ended: Job, crashes: nat, harness: bool): Job {
    if crashes > 0 || ended.completed >= cfg.budget * 1000 then Finish(ended.(crashes := crashes, evidence := true))
    else if harness then Schedule(ended)
    else Resume(ended, None)
  }

  // A bounded resource is used up: the job waits for review.
  function Limit(j: Job, reason: Message): Job {
    j.(status := ManualReview, exhausted := true, error := Some(reason), failures := Max(1, j.failures))
  }

  function AfterFuzz(cfg: Config, j: Job, e: FuzzStep): Job {
    match e
    case GenerationLimit(reason) => Limit(j, reason)
    case Generate(targets, preferred) => Resmoke(CountCycle(j), targets, preferred)
    case ScheduleHarness => Schedule(j)
    case StopLowYield => Finish(j)
    case StopFollowup => Schedule(Closed(j))
    case BudgetSpent => Finish(j)
    case AflFailed(reason) => Resume(AflRan(j, 0), Some(reason))
    case AflSession(elapsed, crashes, harness) =>
      EndAfl(cfg, AflRan(j, elapsed), crashes, harness)
  }

  // Triage finds nothing exactly when no crash file is left; files it takes for artifacts of the
  // run itself are moved away, as many of them as one call looks at.
  predicate JudgeEnabled(j: Job, e: JudgeStep) {
    match e
    case Confirmed => j.stage == Triage && j.crashes > 0
    case FalsePositive(moved) => j.stage == Triage && 1 <= moved <= j.crashes
    case Unconfirmed => j.stage == Triage && j.crashes > 0
    case NothingFound => j.stage == Triage && j.crashes == 0
    case Validated => j.stage == Validation
  }

  function AfterJudge(j: Job, e: JudgeStep): Job {
    match e
    case Confirmed => j.(stage := Validation, status := ValidationPending, error := None)
    case FalsePositive(moved) =>
      j.(stage := Fuzzing, status := Ready, error := None, crashes := if moved <= j.crashes then j.crashes - moved else 0)
    case Unconfirmed => j.(stage := Complete, status := TriageReview, error := None)
    case NothingFound => j.(stage := Complete, status := CampaignExhausted, error := None)
    case Validated => j.(stage := Complete, status := ReadyForHuman, error := None)
  }

  predicate SessionEnabled(cfg: Config, j: Job, requested: nat, accounted: nat, verdict: Verdict) {
    && CanFuzz(j) && 1 <= requested <= Slice(cfg, j)
    && ValidAccounting(requested, accounted, verdict) && ValidVerdict(cfg, j, verdict)
  }

  predicate RecoverEnabled(cfg: Config, j: Job, action: Action, vendored: bool, initial: bool) {
    && Eligible(j) && Offered(cfg, j, action, vendored, initial)
    && (vendored ==> j.stage == Build && cfg.nativeRoute)
    && (initial ==> j.stage == Integration && !j.generic)
  }

  predicate WorkEnabled(cfg: Config, j: Job, w: Work) {
    match w
    case Setup(s) => SetupEnabled(j, s)
    case Gate(g) => GateEnabled(cfg, j, g)
    case Fuzz(f) => FuzzEnabled(cfg, j, f)
    case Session(requested, accounted, verdict) => SessionEnabled(cfg, j, requested, accounted, verdict)
    case Replay(_, verdict) => CanFuzz(j) && j.active && j.run && ValidVerdict(cfg, j, verdict)
    case Judge(e) => JudgeEnabled(j, e)
  }

  predicate Enabled(cfg: Config, j: Job, e: Event) {
    match e
    case Done(w) => Runnable(j) && WorkEnabled(cfg, j, w)
    case Overrun(w) => Runnable(j) && WorkEnabled(cfg, j, w) && w != Judge(Validated)
    case Fail(_, left) => Runnable(j) && ValidLeftover(cfg, j, left)
    case Unsupported(_) => Runnable(j) && Building(j)
    case Recover(action, vendored, initial) => RecoverEnabled(cfg, j, action, vendored, initial)
    case Retarget =>
      && cfg.nativeRoute && !j.evidence && !UnderReview(j.status) && !(j.probe.Some? && j.probe.value.CrashFiles())
      && (j.generic || (j.stage == Complete && j.status == SkippedAfterRecovery && j.error.Some?))
    case OperatorRepair =>
      && cfg.nativeRoute && j.generic && !j.evidence && (j.status.QuartetReviewRequired? || j.status.SkippedAfterRecovery?)
      && (HasFinding(j) ==> j.probe.value.kind == CppException)
  }

  // Statuses of a finding under review; no operator command starts such a job over.
  predicate UnderReview(status: Status) {
    status.TriagePending? || status.TriageReview? || status.ValidationPending? || status.ReadyForHuman?
  }

  predicate Operator(e: Event) {
    e.Retarget? || e.OperatorRepair?
  }

  function Charged(cfg: Config, j: Job, accounted: nat): nat {
    j.completed + Charge(cfg.budget, j.completed, accounted)
  }

  function AfterWork(cfg: Config, j: Job, w: Work): Job
    requires WorkEnabled(cfg, j, w)
  {
    match w
    case Setup(s) => AfterSetup(cfg, j, s)
    case Gate(g) => AfterGate(cfg, j, g)
    case Fuzz(f) => AfterFuzz(cfg, j, f)
    case Session(_, accounted, verdict) => ApplyResult(cfg, j, Charged(cfg, j, accounted), verdict)
    case Replay(accounted, verdict) => ApplyResult(cfg, j, Charged(cfg, j, accounted), verdict)
    case Judge(e) => AfterJudge(j, e)
  }

  function After(cfg: Config, j: Job, e: Event): Job
    requires Enabled(cfg, j, e)
  {
    match e
    case Done(w) => AfterWork(cfg, j, w)
    case Overrun(w) => RecordError(cfg, AfterWork(cfg, j, w), Some(TRANSITION_LIMIT))
    case Fail(error, left) => RecordError(cfg, Leave(cfg, j, left), error)
    case Unsupported(error) => j.(stage := Complete, status := UnsupportedIntegration, error := error)
    case Recover(action, _, _) => ApplyRecovery(j, action)
    case Retarget => OperatorReset(j).(stage := Integration, status := Prepared, generic := false)
    case OperatorRepair => OperatorReset(j).(stage := Build, status := Integrated, generic := true)
  }

  function NewJob(): Job {
    Job(PolicyRecheck, Queued, None, false, 0, 0, 0, 0, [], {}, {}, None, None,
        false, None, None, None, false, false, false, 0, 0, false, 0)
  }

  predicate Step(cfg: Config, j: Job, e: Event, k: Job) {
    Enabled(cfg, j, e) && k == After(cfg, j, e)
  }

  predicate StepAt(cfg: Config, js: seq<Job>, es: seq<Event>, i: nat)
    requires i < |es| < |js|
  {
    Step(cfg, js[i], es[i], js[i + 1])
  }

  // A finite stretch of a job's life: the saved states and the events between them.
  predicate Path(cfg: Config, js: seq<Job>, es: seq<Event>) {
    |js| == |es| + 1 && forall i :: 0 <= i < |es| ==> StepAt(cfg, js, es, i)
  }

  predicate Life(cfg: Config, js: seq<Job>, es: seq<Event>) {
    Path(cfg, js, es) && js[0] == NewJob()
  }

  lemma SameStep(cfg: Config, js: seq<Job>, es: seq<Event>, ks: seq<Job>, fs: seq<Event>, i: nat)
    requires Path(cfg, js, es) && i < |es| && i < |fs| < |ks|
    requires ks[i] == js[i] && fs[i] == es[i] && ks[i + 1] == js[i + 1]
    ensures StepAt(cfg, ks, fs, i)
  {
    assert StepAt(cfg, js, es, i);
  }

  lemma Extend(cfg: Config, js: seq<Job>, es: seq<Event>, e: Event)
    requires Path(cfg, js, es) && Enabled(cfg, js[|es|], e)
    ensures Path(cfg, js + [After(cfg, js[|es|], e)], es + [e])
  {
    var longer, events := js + [After(cfg, js[|es|], e)], es + [e];
    forall i | 0 <= i < |events|
      ensures StepAt(cfg, longer, events, i)
    {
      if i < |es| {
        SameStep(cfg, js, es, longer, events, i);
      }
    }
  }
}
