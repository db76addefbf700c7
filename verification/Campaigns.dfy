// Whole lives of a job, built event by event: retries and returns from triage that cannot work,
// jobs that nothing can move any more, and healthy campaigns that run into the transition limit.
// Each comes with the exact condition it depends on.
module Campaigns {
  import opened Basics
  import opened FuzzTime
  import opened Lifecycle
  import opened Progress
  import opened Termination
  import opened Worker

  // A life that ends in a job.
  ghost predicate Ends(cfg: Config, js: seq<Job>, es: seq<Event>, j: Job) {
    Life(cfg, js, es) && js[|es|] == j
  }

  lemma Next(cfg: Config, js: seq<Job>, es: seq<Event>, j: Job, e: Event, k: Job) returns (ks: seq<Job>, fs: seq<Event>)
    requires Ends(cfg, js, es, j) && Step(cfg, j, e, k)
    ensures Ends(cfg, ks, fs, k) && ks == js + [k] && fs == es + [e]
  {
    ks, fs := js + [k], es + [e];
    Extend(cfg, js, es, e);
  }

  // A job whose one target was built, probed without a finding, and approved.
  function Smoked(cfg: Config): Job {
    NewJob().(stage := QuartetGate, status := QuartetPending, generic := cfg.generatedRoute, targets := {0}, current := Some(0))
  }

  function Approved(cfg: Config): Job {
    Smoked(cfg).(stage := CoverageAnalysis, status := AnalysisPending, probe := Some(NO_FINDING), review := Some(true))
  }

  const NO_FINDING := Probe(false, 0, NoCrash)

  function Integrated(cfg: Config): Job {
    NewJob().(stage := Build, status := Status.Integrated, generic := cfg.generatedRoute)
  }

  lemma IntegratedLife(cfg: Config) returns (js: seq<Job>, es: seq<Event>)
    ensures Ends(cfg, js, es, Integrated(cfg)) && forall i :: 0 <= i < |es| ==> es[i].Done?
  {
    var prepared := NewJob().(stage := Integration, status := Prepared);
    js, es := [NewJob()], [];
    js, es := Next(cfg, js, es, NewJob(), Done(Setup(Prepare)), prepared);
    js, es := Next(cfg, js, es, prepared, Done(Setup(Integrate)), Integrated(cfg));
  }

  lemma SmokeLife(cfg: Config) returns (js: seq<Job>, es: seq<Event>)
    ensures Ends(cfg, js, es, Smoked(cfg)) && forall i :: 0 <= i < |es| ==> es[i].Done?
  {
    var built := Integrated(cfg).(stage := Smoke, status := Built, targets := {0});
    js, es := IntegratedLife(cfg);
    js, es := Next(cfg, js, es, Integrated(cfg), Done(Setup(BuildTargets({0}, None))), built);
    js, es := Next(cfg, js, es, built, Done(Setup(SmokeTest(0))), Smoked(cfg));
  }

  function Probed(cfg: Config, p: Probe): Job {
    Smoked(cfg).(probe := Some(p))
  }

  lemma ProbedLife(cfg: Config, p: Probe) returns (js: seq<Job>, es: seq<Event>)
    requires ValidProbe(p)
    ensures Ends(cfg, js, es, Probed(cfg, p)) && forall i :: 0 <= i < |es| ==> es[i].Done?
  {
    js, es := SmokeLife(cfg);
    js, es := Next(cfg, js, es, Smoked(cfg), Done(Gate(RunProbe(p))), Probed(cfg, p));
  }

  lemma ApprovedLife(cfg: Config) returns (js: seq<Job>, es: seq<Event>)
    ensures Ends(cfg, js, es, Approved(cfg)) && forall i :: 0 <= i < |es| ==> es[i].Done?
  {
    js, es := ProbedLife(cfg, NO_FINDING);
    js, es := Next(cfg, js, es, Probed(cfg, NO_FINDING), Done(Gate(Review(true, 0))), Approved(cfg));
  }

  // ---------- retries that can only fail ----------

  // What a call of the fuzzing stage can still do.
  predicate CanResume(cfg: Config, j: Job) {
    && j.review == Some(true) && j.plan == Some(true)
    && (Slice(cfg, j) > 0 || CanSchedule(cfg, j) || (j.run && (j.active || j.crashes == 0 || Remaining(cfg.budget, j.completed) == 0)))
  }

  lemma FuzzWorksExactly(cfg: Config, j: Job)
    requires j.stage == Fuzzing && Fuzzable(j.status)
    ensures (exists w :: WorkEnabled(cfg, j, w)) <==> CanResume(cfg, j)
  {
    if CanResume(cfg, j) {
      if CanSchedule(cfg, j) {
        assert WorkEnabled(cfg, j, Fuzz(ScheduleHarness));
      } else if Slice(cfg, j) > 0 {
        assert WorkEnabled(cfg, j, Session(1, 1000, Continue(NextReady)));
      } else if j.active {
        assert WorkEnabled(cfg, j, Replay(0, LowYield));
      } else if j.crashes == 0 {
        assert WorkEnabled(cfg, j, Fuzz(StopLowYield));
      } else {
        assert WorkEnabled(cfg, j, Fuzz(BudgetSpent));
      }
    }
  }

  // Retrying the fuzzing stage can succeed exactly when review and plan are still approved and
  // there is time left, an unused generation cycle, or a fuzz record to finish with: all of it on
  // record before the retry is applied.
  lemma RetryWorksExactly(cfg: Config, j: Job)
    requires Eligible(j) && j.stage == Fuzzing
    ensures (exists w :: WorkEnabled(cfg, ApplyRecovery(j, RetryStage), w)) <==> CanResume(cfg, j)
  {
    FuzzWorksExactly(cfg, ApplyRecovery(j, RetryStage));
  }

  // The agent offers a retry of the fuzzing stage that can only fail.
  predicate DeadRetry(cfg: Config, j: Job) {
    j.stage == Fuzzing && RecoverEnabled(cfg, j, RetryStage, false, false) && !CanResume(cfg, j)
  }

  const GENERATION_FAILED: Message := 3

  // Some life reaches such an offer exactly when recoveries are allowed at all: a failed harness
  // generation is enough.
  lemma DeadRetryOfferedExactly(cfg: Config)
    ensures (exists js, es :: Life(cfg, js, es) && DeadRetry(cfg, js[|es|])) <==> cfg.maxRecoveries > 0
  {
    if cfg.maxRecoveries > 0 {
      var js, es := FailedGenerationLife(cfg);
    }
  }

  function PendingHarness(cfg: Config): Job {
    Approved(cfg).(stage := Fuzzing, status := HarnessWorkPending, plan := Some(false))
  }

  lemma PendingHarnessLife(cfg: Config) returns (js: seq<Job>, es: seq<Event>)
    ensures Ends(cfg, js, es, PendingHarness(cfg))
  {
    js, es := ApprovedLife(cfg);
    js, es := Next(cfg, js, es, Approved(cfg), Done(Setup(Analyze(false))), PendingHarness(cfg));
  }

  lemma FailedGenerationLife(cfg: Config) returns (js: seq<Job>, es: seq<Event>)
    requires cfg.maxRecoveries > 0
    ensures Life(cfg, js, es) && DeadRetry(cfg, js[|es|])
  {
    var failed := RecordError(cfg, PendingHarness(cfg), Some(GENERATION_FAILED));
    js, es := PendingHarnessLife(cfg);
    js, es := Next(cfg, js, es, PendingHarness(cfg), Fail(Some(GENERATION_FAILED), Nothing), failed);
  }

  ghost predicate MovesOn(cfg: Config, j: Job) {
    exists w :: WorkEnabled(cfg, j, w) && AfterWork(cfg, j, w).stage != CoverageAnalysis
  }

  lemma OnlyAnalysisWorks(cfg: Config, j: Job, w: Work)
    requires j.stage == CoverageAnalysis && WorkEnabled(cfg, j, w)
    ensures w == Setup(AnalyzeCached) || (w.Setup? && w.setup.Analyze? && CanAnalyze(j))
  {
  }

  // An analysis whose plan was written before its state is answered from the plan and saves no
  // state: a retry can move it on exactly when the review is approved, the probe is there and no plan
  // was written.
  lemma RetriedAnalysisMovesExactly(cfg: Config, j: Job)
    requires Eligible(j) && j.stage == CoverageAnalysis
    ensures MovesOn(cfg, ApplyRecovery(j, RetryStage)) <==> CanAnalyze(j)
  {
    var k := ApplyRecovery(j, RetryStage);
    if CanAnalyze(j) {
      assert WorkEnabled(cfg, k, Setup(Analyze(true)));
    }
    if w :| WorkEnabled(cfg, k, w) && AfterWork(cfg, k, w).stage != CoverageAnalysis {
      OnlyAnalysisWorks(cfg, k, w);
    }
  }

  ghost predicate StuckAnalysis(cfg: Config, j: Job) {
    && j.stage == CoverageAnalysis && RecoverEnabled(cfg, j, RetryStage, false, false)
    && !MovesOn(cfg, ApplyRecovery(j, RetryStage))
  }

  const STATE_NOT_WRITTEN: Message := 4

  lemma StuckAnalysisOfferedExactly(cfg: Config)
    ensures (exists js, es :: Life(cfg, js, es) && StuckAnalysis(cfg, js[|es|])) <==> cfg.maxRecoveries > 0
  {
    if cfg.maxRecoveries > 0 {
      var js, es := StuckAnalysisLife(cfg);
    }
  }

  lemma StuckAnalysisLife(cfg: Config) returns (js: seq<Job>, es: seq<Event>)
    requires cfg.maxRecoveries > 0
    ensures Life(cfg, js, es) && StuckAnalysis(cfg, js[|es|])
  {
    var error := Fail(Some(STATE_NOT_WRITTEN), Analyzed(true));
    var failed := RecordError(cfg, Approved(cfg).(plan := Some(true)), Some(STATE_NOT_WRITTEN));
    js, es := ApprovedLife(cfg);
    js, es := Next(cfg, js, es, Approved(cfg), error, failed);
    RetriedAnalysisMovesExactly(cfg, failed);
  }

  // ---------- returns from triage ----------

  // Files that triage takes for artifacts of the run send a job back to fuzzing. It can go on
  // exactly when review and plan were approved before, with the same things left as for a retry.
  lemma ReturnWorksExactly(cfg: Config, j: Job, moved: nat)
    requires JudgeEnabled(j, FalsePositive(moved))
    ensures (exists w :: WorkEnabled(cfg, AfterJudge(j, FalsePositive(moved)), w)) <==>
            CanResume(cfg, j.(crashes := j.crashes - moved))
  {
    FuzzWorksExactly(cfg, AfterJudge(j, FalsePositive(moved)));
  }

  // A target whose probe left one crash file with a sanitizer error, handed to triage.
  function Crashed(cfg: Config): Job {
    Smoked(cfg).(stage := Triage, status := TriagePending, probe := Some(ONE_CRASH), review := Some(true),
                 crashes := 1, evidence := true)
  }

  const ONE_CRASH := Probe(true, 1, SanitizerError)

  lemma CrashedLife(cfg: Config) returns (js: seq<Job>, es: seq<Event>)
    ensures Ends(cfg, js, es, Crashed(cfg)) && forall i :: 0 <= i < |es| ==> es[i].Done?
  {
    js, es := ProbedLife(cfg, ONE_CRASH);
    js, es := Next(cfg, js, es, Probed(cfg, ONE_CRASH), Done(Gate(Review(true, 0))), Crashed(cfg));
  }

  // Under every configuration there is a life in which nothing failed and whose job, marked
  // ready, has no stage call left that could succeed: the probe's false positive came before any
  // coverage plan.
  lemma DeadReturnLife(cfg: Config) returns (js: seq<Job>, es: seq<Event>)
    ensures Life(cfg, js, es) && forall i :: 0 <= i < |es| ==> es[i].Done?
    ensures js[|es|].stage == Fuzzing && js[|es|].status == Ready && forall w :: !WorkEnabled(cfg, js[|es|], w)
  {
    var back := AfterJudge(Crashed(cfg), FalsePositive(1));
    js, es := CrashedLife(cfg);
    js, es := Next(cfg, js, es, Crashed(cfg), Done(Judge(FalsePositive(1))), back);
    FuzzWorksExactly(cfg, back);
  }

  // ---------- jobs nothing can move ----------

  const TRIAGE_FAILED: Message := 5

  // Under every configuration one failed triage call leaves a job on which no event is possible:
  // no stage call, no recovery, no operator command.
  lemma DeadTriageLife(cfg: Config) returns (js: seq<Job>, es: seq<Event>)
    ensures Life(cfg, js, es) && js[|es|].stage == Triage && forall e :: !Enabled(cfg, js[|es|], e)
  {
    var failed := RecordError(cfg, Crashed(cfg), Some(TRIAGE_FAILED));
    js, es := CrashedLife(cfg);
    js, es := Next(cfg, js, es, Crashed(cfg), Fail(Some(TRIAGE_FAILED), Nothing), failed);
    DeadExactly(cfg, js, es);
  }

  // ---------- healthy campaigns ----------

  function ReadyJob(cfg: Config): Job {
    Approved(cfg).(stage := Fuzzing, status := Ready, plan := Some(true))
  }

  lemma ReadyLife(cfg: Config) returns (js: seq<Job>, es: seq<Event>)
    ensures Ends(cfg, js, es, ReadyJob(cfg)) && forall i :: 0 <= i < |es| ==> es[i].Done?
  {
    js, es := ApprovedLife(cfg);
    js, es := Next(cfg, js, es, Approved(cfg), Done(Setup(Analyze(true))), ReadyJob(cfg));
  }

  lemma {:induction false} SessionsLife(cfg: Config, n: nat) returns (js: seq<Job>, es: seq<Event>)
    requires cfg.checkpoint >= 1 && (n > 0 ==> n * cfg.checkpoint < Remaining(cfg.budget, 0))
    ensures Ends(cfg, js, es, AfterSessions(ReadyJob(cfg), n * cfg.checkpoint)) && forall i :: 0 <= i < |es| ==> es[i].Done?
  {
    if n == 0 {
      js, es := ReadyLife(cfg);
    } else {
      var seconds := (n - 1) * cfg.checkpoint;
      assert n * cfg.checkpoint == seconds + cfg.checkpoint;
      js, es := SessionsLife(cfg, n - 1);
      var before := AfterSessions(ReadyJob(cfg), seconds);
      HealthyStep(cfg, ReadyJob(cfg), seconds);
      js, es := Next(cfg, js, es, before, HealthySession(cfg, before), AfterSessions(ReadyJob(cfg), n * cfg.checkpoint));
    }
  }

  lemma FullSessionsLife(cfg: Config, n: nat) returns (js: seq<Job>, es: seq<Event>)
    requires cfg.checkpoint >= 1 && cfg.budget > n * cfg.checkpoint
    ensures Ends(cfg, js, es, AfterSessions(ReadyJob(cfg), n * cfg.checkpoint)) && forall i :: 0 <= i < |es| ==> es[i].Done?
    ensures var k := AfterSessions(ReadyJob(cfg), n * cfg.checkpoint);
            Slice(cfg, k) >= 1 && Enabled(cfg, k, HealthySession(cfg, k)) &&
            var next := After(cfg, k, HealthySession(cfg, k));
            next.failures == 0 && if cfg.budget > (n + 1) * cfg.checkpoint then next.stage == Fuzzing else Triageable(next)
  {
    js, es := SessionsLife(cfg, n);
    HealthyStep(cfg, ReadyJob(cfg), n * cfg.checkpoint);
    assert (n + 1) * cfg.checkpoint == n * cfg.checkpoint + cfg.checkpoint;
  }

  // The hundredth call is a session: the job waits, fuzzing or already handed to triage.
  lemma SessionOverruns(cfg: Config) returns (js: seq<Job>, es: seq<Event>)
    requires cfg.checkpoint >= 1 && cfg.budget > (TRANSITIONS - 1) * cfg.checkpoint
    ensures GivesUp(cfg, js, es, if cfg.budget > TRANSITIONS * cfg.checkpoint then Fuzzing else Triage)
  {
    var n := TRANSITIONS - 1;
    js, es := FullSessionsLife(cfg, n);
    var last := AfterSessions(ReadyJob(cfg), n * cfg.checkpoint);
    var overrun := Overrun(HealthySession(cfg, last).work);
    js, es := Next(cfg, js, es, last, overrun, After(cfg, last, overrun));
  }

  // The hundredth call is the triage: its verdict is overwritten.
  lemma TriageOverruns(cfg: Config) returns (js: seq<Job>, es: seq<Event>)
    requires cfg.checkpoint >= 1 && (TRANSITIONS - 2) * cfg.checkpoint < cfg.budget <= (TRANSITIONS - 1) * cfg.checkpoint
    ensures GivesUp(cfg, js, es, Complete)
  {
    var n := TRANSITIONS - 2;
    js, es := FullSessionsLife(cfg, n);
    var last := AfterSessions(ReadyJob(cfg), n * cfg.checkpoint);
    var done := After(cfg, last, HealthySession(cfg, last));
    js, es := Next(cfg, js, es, last, HealthySession(cfg, last), done);
    js, es := TriageOverrun(cfg, js, es, done);
  }

  lemma TriageOverrun(cfg: Config, js: seq<Job>, es: seq<Event>, j: Job) returns (ks: seq<Job>, fs: seq<Event>)
    requires Ends(cfg, js, es, j) && Triageable(j) && j.failures == 0 && forall i :: 0 <= i < |es| ==> es[i].Done?
    ensures GivesUp(cfg, ks, fs, Complete)
  {
    var overrun := Overrun(Judge(NothingFound));
    ks, fs := Next(cfg, js, es, j, overrun, After(cfg, j, overrun));
  }

  // A life in which nothing failed until the limit overruled its last call.
  ghost predicate GivesUp(cfg: Config, js: seq<Job>, es: seq<Event>, stage: Stage) {
    && Life(cfg, js, es) && es != [] && es[|es| - 1].Overrun? && (forall i :: 0 <= i < |es| - 1 ==> es[i].Done?)
    && js[|es|].stage == stage && js[|es|].failures == 1 && Waits(js[|es|].status)
  }

  // Every healthy campaign with more than 98 checkpoints of budget ends that way, in the middle
  // of its fuzzing, in front of a triage that nobody runs any more, or with its verdict gone.
  lemma HealthyLifeGivesUp(cfg: Config) returns (js: seq<Job>, es: seq<Event>)
    requires cfg.checkpoint >= 1 && cfg.budget > (TRANSITIONS - 2) * cfg.checkpoint
    ensures GivesUp(cfg, js, es, if cfg.budget > TRANSITIONS * cfg.checkpoint then Fuzzing
                                 else if cfg.budget > (TRANSITIONS - 1) * cfg.checkpoint then Triage
                                 else Complete)
  {
    if cfg.budget > (TRANSITIONS - 1) * cfg.checkpoint {
      js, es := SessionOverruns(cfg);
    } else {
      Monotone(TRANSITIONS - 1, TRANSITIONS, cfg.checkpoint);
      js, es := TriageOverruns(cfg);
    }
  }
}
