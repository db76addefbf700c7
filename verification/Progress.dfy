// Who takes a job's next step, whatever happened to it: the worker, the central agent or, in
// three named cases, nobody but an operator; and what a job has spent.
module Progress {
  import opened Basics
  import opened Lifecycle
  import opened Termination

  predicate Waits(status: Status) {
    (status.RecoveryPending? || status.ManualReview? || status.QuartetReviewRequired?)
  }

  predicate Dispatched(status: Status) {
    Fuzzable(status) || status.HarnessWorkPending? || status.GenerationFailed? || status.AflPending?
  }

  // The statuses a job ends with.
  predicate Ending(status: Status) {
    status.UnsupportedIntegration? || status.TriageReview? || status.CampaignExhausted? || status.ReadyForHuman?
  }

  // A waiting job has failed, one with an ending status is complete, and a fuzzing job has a
  // status the dispatcher knows.
  predicate Attended(j: Job) {
    && (Waits(j.status) ==> j.failures > 0)
    && (Ending(j.status) ==> j.stage == Complete)
    && (j.stage == Fuzzing ==> Dispatched(j.status) || Waits(j.status))
  }

  lemma EnterAttended(j: Job, exit: Exit, choice: Target)
    requires Attended(j) && j.stage == QuartetGate
    ensures Attended(Enter(j, exit, choice))
  {
  }

  lemma QuartetAttended(cfg: Config, j: Job, ready: bool, choice: Target)
    requires Attended(j) && j.stage == QuartetGate
    ensures Attended(ApplyQuartet(cfg, j, ready, choice))
  {
    var clean := RejectedCleanly(j, ready);
    var k := if clean then j.(attempted := AttemptedAfter(j)) else j;
    EnterAttended(k, Route(cfg, j, ready, clean && choice in RetryCandidates(cfg, j)), choice);
  }

  lemma GateAttended(cfg: Config, j: Job, e: GateStep)
    requires Attended(j) && GateEnabled(cfg, j, e)
    ensures Attended(AfterGate(cfg, j, e))
  {
    match e
    case Review(ready, choice) => QuartetAttended(cfg, j.(review := Some(ready)), ready, choice);
    case ReapplyReview(choice) => QuartetAttended(cfg, j, j.review.value, choice);
    case _ =>
  }

  lemma SetupAttended(cfg: Config, j: Job, e: SetupStep)
    requires Attended(j) && SetupEnabled(j, e)
    ensures Attended(AfterSetup(cfg, j, e))
  {
  }

  lemma LaneAttended(cfg: Config, j: Job, elapsed: nat, crashes: nat, harness: bool)
    requires Attended(j) && AflDue(j)
    ensures Attended(EndAfl(cfg, AflRan(j, elapsed), crashes, harness))
  {
  }

  lemma FuzzAttended(cfg: Config, j: Job, e: FuzzStep)
    requires Attended(j) && FuzzEnabled(cfg, j, e)
    ensures Attended(AfterFuzz(cfg, j, e))
  {
    match e
    case AflSession(elapsed, crashes, harness) => LaneAttended(cfg, j, elapsed, crashes, harness);
    case _ =>
  }

  lemma ResultAttended(cfg: Config, j: Job, total: nat, verdict: Verdict)
    requires Attended(j) && CanFuzz(j)
    ensures Attended(ApplyResult(cfg, j, total, verdict))
  {
  }

  lemma JudgeAttended(j: Job, e: JudgeStep)
    requires Attended(j)
    ensures Attended(AfterJudge(j, e))
  {
  }

  lemma WorkAttended(cfg: Config, j: Job, w: Work)
    requires Attended(j) && WorkEnabled(cfg, j, w)
    ensures Attended(AfterWork(cfg, j, w))
  {
    match w
    case Setup(s) => SetupAttended(cfg, j, s);
    case Gate(g) => GateAttended(cfg, j, g);
    case Fuzz(f) => FuzzAttended(cfg, j, f);
    case Session(_, accounted, verdict) => ResultAttended(cfg, j, Charged(cfg, j, accounted), verdict);
    case Replay(accounted, verdict) => ResultAttended(cfg, j, Charged(cfg, j, accounted), verdict);
    case Judge(e) => JudgeAttended(j, e);
  }

  // An error overrides the status, so only the stage behind it matters.
  lemma ErrorAttended(cfg: Config, j: Job, error: Option<Message>)
    ensures Attended(RecordError(cfg, j, error))
  {
  }

  lemma RecoveryAttended(j: Job, action: Action)
    requires Attended(j) && Eligible(j)
    ensures Attended(ApplyRecovery(j, action))
  {
  }

  lemma EventAttended(cfg: Config, j: Job, e: Event)
    requires Attended(j) && Enabled(cfg, j, e)
    ensures Attended(After(cfg, j, e))
  {
    match e
    case Done(w) => WorkAttended(cfg, j, w);
    case Overrun(w) => ErrorAttended(cfg, AfterWork(cfg, j, w), Some(TRANSITION_LIMIT));
    case Fail(error, left) => ErrorAttended(cfg, Leave(cfg, j, left), error);
    case Recover(action, _, _) => RecoveryAttended(j, action);
    case _ =>
  }

  lemma {:induction false} ReachableAttended(cfg: Config, js: seq<Job>, es: seq<Event>, n: nat)
    requires Life(cfg, js, es) && n <= |es|
    ensures Attended(js[n])
  {
    if n > 0 {
      ReachableAttended(cfg, js, es, n - 1);
      assert StepAt(cfg, js, es, n - 1);
      EventAttended(cfg, js[n - 1], es[n - 1]);
    }
  }

  // The cases left to an operator: the policy check itself failed, triage or validation did, or
  // no error was saved.
  predicate OperatorOnly(j: Job) {
    Waits(j.status) && (!Recoverable(j.stage) || j.error.None?)
  }

  // A reachable job that is not complete is taken by exactly one party, and its record says by
  // which: the worker takes it unless it waits; the central agent, which can always skip it,
  // takes a waiting one at a stage it can recover with a saved error; no other is taken.
  lemma NeverStuck(cfg: Config, js: seq<Job>, es: seq<Event>)
    requires Life(cfg, js, es) && js[|es|].stage != Complete
    ensures var j := js[|es|];
            && (Runnable(j) <==> !Waits(j.status))
            && (RecoverEnabled(cfg, j, SkipTarget, false, false) <==> Waits(j.status) && Recoverable(j.stage) && j.error.Some?)
            && (OperatorOnly(j) <==> !Runnable(j) && !Eligible(j))
  {
    ReachableAttended(cfg, js, es, |es|);
  }

  // What the operator commands can still do for a job nobody takes.
  predicate Revivable(cfg: Config, j: Job) {
    && cfg.nativeRoute && j.generic && !j.evidence
    && (!(j.probe.Some? && j.probe.value.CrashFiles()) ||
        (j.status == QuartetReviewRequired && HasFinding(j) && j.probe.value.kind == CppException))
  }

  // A job that is not complete and on which no event is possible any more: exactly the
  // operator's cases in which the commands refuse, too.
  lemma DeadExactly(cfg: Config, js: seq<Job>, es: seq<Event>)
    requires Life(cfg, js, es) && js[|es|].stage != Complete
    ensures (forall e :: !Enabled(cfg, js[|es|], e)) <==> OperatorOnly(js[|es|]) && !Revivable(cfg, js[|es|])
  {
    NeverStuck(cfg, js, es);
    var j := js[|es|];
    ReachableInv(cfg, js, es, |es|);
    if Runnable(j) {
      assert Enabled(cfg, j, Fail(None, Nothing));
    } else if Eligible(j) {
      assert Enabled(cfg, j, Recover(SkipTarget, false, false));
    } else if Revivable(cfg, j) {
      assert Enabled(cfg, j, Retarget) || Enabled(cfg, j, OperatorRepair);
    }
  }

  // ---------- what a failure leaves ----------

  // The archive took the progress record and could not write its continuation.
  predicate Loses(left: Leftover) {
    left.Archived? && left.lost
  }

  lemma ErrorOutcome(cfg: Config, j: Job, error: Option<Message>)
    ensures var k := RecordError(cfg, j, error);
            && (Runnable(k) <==> k.failures < cfg.maxStageFailures && j.status == Interrupted && j.stage != Complete)
            && (Eligible(k) <==> Waits(k.status) && error.Some? && Recoverable(k.stage))
  {
  }

  lemma TakenOutcome(j: Job, moved: nat)
    ensures var k := Taken(j, moved);
            k.stage == j.stage && k.status == j.status && k.failures == j.failures && k.completed == j.completed
  {
  }

  lemma JudgeOutcome(j: Job, e: JudgeStep)
    ensures var k := AfterJudge(j, e);
            k.status != Interrupted && k.failures == j.failures && k.completed == j.completed
  {
  }

  lemma LeaveOutcome(cfg: Config, j: Job, left: Leftover)
    requires Runnable(j) && ValidLeftover(cfg, j, left)
    ensures var k := Leave(cfg, j, left);
            && k.failures == j.failures && (k.completed >= j.completed || Loses(left))
            && (k.status == Interrupted ==> k.stage != Complete)
            && (k.status == Interrupted <==> left.Cut? || (j.status == Interrupted && !left.Unfinished? && !left.Judged?))
  {
    match left
    case Alternate(choice, moved) => TakenOutcome(j.(review := Some(false), preferred := Some(choice)), moved);
    case Archived(_, _, moved, _) => TakenOutcome(j, moved);
    case Judged(e) => JudgeOutcome(j, e);
    case _ =>
  }

  // After a raised exception the worker goes on by itself only with an interrupted session, and
  // only below the failure limit; the central agent takes every other failure that was saved
  // with an error at a stage it can recover.
  lemma FailureOutcome(cfg: Config, j: Job, error: Option<Message>, left: Leftover)
    requires Enabled(cfg, j, Fail(error, left))
    ensures var k := After(cfg, j, Fail(error, left));
            && k.failures == j.failures + 1 && k.error == error && (k.completed >= j.completed || Loses(left))
            && (Runnable(k) <==>
                  k.failures < cfg.maxStageFailures &&
                  (left.Cut? || (j.status == Interrupted && !left.Unfinished? && !left.Judged?)))
            && (Eligible(k) <==> !Runnable(k) && error.Some? && Recoverable(k.stage))
  {
    LeaveOutcome(cfg, j, left);
    ErrorOutcome(cfg, Leave(cfg, j, left), error);
  }

  // ---------- what a job spends stays spent ----------

  // Operator commands start over, and a lost progress record takes the total with it.
  predicate Keeps(e: Event) {
    !Operator(e) && !(e.Fail? && Loses(e.leftover))
  }

  predicate Grows(j: Job, k: Job) {
    && j.generations <= k.generations && j.repairs <= k.repairs && j.recoveries <= k.recoveries
    && (j.afl ==> k.afl) && j.completed <= k.completed
  }

  lemma EnterGrows(j: Job, exit: Exit, choice: Target)
    ensures Grows(j, Enter(j, exit, choice))
  {
  }

  lemma QuartetGrows(cfg: Config, j: Job, ready: bool, choice: Target)
    ensures Grows(j, ApplyQuartet(cfg, j, ready, choice))
  {
    var clean := RejectedCleanly(j, ready);
    var k := if clean then j.(attempted := AttemptedAfter(j)) else j;
    EnterGrows(k, Route(cfg, j, ready, clean && choice in RetryCandidates(cfg, j)), choice);
  }

  lemma GateGrows(cfg: Config, j: Job, e: GateStep)
    requires GateEnabled(cfg, j, e)
    ensures Grows(j, AfterGate(cfg, j, e))
  {
    match e
    case Review(ready, choice) => QuartetGrows(cfg, j.(review := Some(ready)), ready, choice);
    case ReapplyReview(choice) => QuartetGrows(cfg, j, j.review.value, choice);
    case _ =>
  }

  lemma SetupGrows(cfg: Config, j: Job, e: SetupStep)
    ensures Grows(j, AfterSetup(cfg, j, e))
  {
  }

  lemma LaneGrows(cfg: Config, j: Job, elapsed: nat, crashes: nat, harness: bool)
    ensures Grows(j, EndAfl(cfg, AflRan(j, elapsed), crashes, harness))
  {
  }

  lemma FuzzGrows(cfg: Config, j: Job, e: FuzzStep)
    ensures Grows(j, AfterFuzz(cfg, j, e))
  {
    match e
    case AflSession(elapsed, crashes, harness) => LaneGrows(cfg, j, elapsed, crashes, harness);
    case _ =>
  }

  lemma ResultGrows(cfg: Config, j: Job, total: nat, verdict: Verdict)
    requires j.completed <= total
    ensures Grows(j, ApplyResult(cfg, j, total, verdict))
  {
  }

  lemma JudgeGrows(j: Job, e: JudgeStep)
    ensures Grows(j, AfterJudge(j, e))
  {
  }

  lemma TakenGrows(j: Job, moved: nat)
    ensures Grows(j, Taken(j, moved))
  {
  }

  lemma SessionGrows(cfg: Config, j: Job, left: Leftover)
    requires left.Cut? || left.Unfinished? || left.AflWritten?
    ensures Grows(j, Leave(cfg, j, left))
  {
  }

  lemma LeaveGrows(cfg: Config, j: Job, left: Leftover)
    requires !Loses(left)
    ensures Grows(j, Leave(cfg, j, left))
  {
    match left
    case Cut(_, _, _) => SessionGrows(cfg, j, left);
    case Unfinished(_, _, _, _) => SessionGrows(cfg, j, left);
    case AflWritten(_, _, _) => SessionGrows(cfg, j, left);
    case Alternate(choice, moved) => TakenGrows(j.(review := Some(false), preferred := Some(choice)), moved);
    case Archived(_, _, moved, _) => TakenGrows(j, moved);
    case Judged(e) => JudgeGrows(j, e);
    case _ =>
  }

  lemma WorkGrows(cfg: Config, j: Job, w: Work)
    requires WorkEnabled(cfg, j, w)
    ensures Grows(j, AfterWork(cfg, j, w))
  {
    match w
    case Setup(s) => SetupGrows(cfg, j, s);
    case Gate(g) => GateGrows(cfg, j, g);
    case Fuzz(f) => FuzzGrows(cfg, j, f);
    case Session(_, accounted, verdict) => ResultGrows(cfg, j, Charged(cfg, j, accounted), verdict);
    case Replay(accounted, verdict) => ResultGrows(cfg, j, Charged(cfg, j, accounted), verdict);
    case Judge(e) => JudgeGrows(j, e);
  }

  lemma RecoveryGrows(j: Job, action: Action)
    requires Eligible(j)
    ensures Grows(j, ApplyRecovery(j, action))
  {
  }

  lemma ErrorGrows(cfg: Config, j: Job, error: Option<Message>)
    ensures Grows(j, RecordError(cfg, j, error))
  {
  }

  lemma EventGrows(cfg: Config, j: Job, e: Event)
    requires Enabled(cfg, j, e) && Keeps(e)
    ensures Grows(j, After(cfg, j, e))
  {
    match e
    case Done(w) => WorkGrows(cfg, j, w);
    case Overrun(w) =>
      WorkGrows(cfg, j, w);
      ErrorGrows(cfg, AfterWork(cfg, j, w), Some(TRANSITION_LIMIT));
    case Fail(error, left) =>
      LeaveGrows(cfg, j, left);
      ErrorGrows(cfg, Leave(cfg, j, left), error);
    case Recover(action, _, _) => RecoveryGrows(j, action);
    case Unsupported(_) =>
  }

  lemma {:induction false} Chain(js: seq<Job>, a: nat, b: nat)
    requires a <= b < |js| && forall i :: a <= i < b ==> Grows(js[i], js[i + 1])
    ensures Grows(js[a], js[b])
    decreases b
  {
    if a < b {
      Chain(js, a, b - 1);
      assert Grows(js[b - 1], js[b]);
    }
  }

  // Along any stretch of a life no recovery, failure or stage call gives back a generation
  // cycle, a repair, a recovery, the AFL lane or a millisecond of fuzzing.
  lemma SpentStaysSpent(cfg: Config, js: seq<Job>, es: seq<Event>, a: nat, b: nat)
    requires Path(cfg, js, es) && a <= b <= |es| && forall i :: a <= i < b ==> Keeps(es[i])
    ensures Grows(js[a], js[b])
  {
    forall i | a <= i < b
      ensures Grows(js[i], js[i + 1])
    {
      assert StepAt(cfg, js, es, i);
      EventGrows(cfg, js[i], es[i]);
    }
    Chain(js, a, b);
  }
}
