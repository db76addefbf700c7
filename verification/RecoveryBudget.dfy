// How many automatic recoveries a job can receive over its whole life, operator commands
// included. The recovery history survives those commands but keeps only its newest entries.
module RecoveryBudget {
  import opened Basics
  import opened Lifecycle

  // The recoveries applied by the first n events of a run, oldest first.
  function Log(js: seq<Job>, es: seq<Event>, n: nat): seq<Recovery>
    requires n <= |es| < |js|
  {
    if n == 0 then []
    else Log(js, es, n - 1) + Applied(js[n - 1], es[n - 1])
  }

  function Applied(j: Job, e: Event): seq<Recovery> {
    if e.Recover? && j.error.Some? then [Recovery(j.stage, j.error.value, e.action)] else []
  }

  function Counted(log: seq<Recovery>): nat {
    if log == [] then 0 else (if log[0].action == SkipTarget then 0 else 1) + Counted(log[1..])
  }

  // Everything but skipping the target happens early in the log and never repeats.
  predicate Disciplined(cfg: Config, log: seq<Recovery>) {
    forall i :: 0 <= i < |log| && log[i].action != SkipTarget ==>
      i < cfg.maxRecoveries && forall k :: 0 <= k < i ==> log[k] != log[i]
  }

  lemma CountedBound(log: seq<Recovery>, n: nat)
    requires forall i :: 0 <= i < |log| && log[i].action != SkipTarget ==> i < n
    ensures Counted(log) <= n
  {
    if log != [] {
      if n == 0 {
        CountedBound(log[1..], 0);
      } else {
        CountedBound(log[1..], n - 1);
      }
    }
  }

  predicate SameRecoveries(j: Job, k: Job) {
    k.history == j.history && k.recoveries == j.recoveries
  }

  lemma EnterKeepsHistory(j: Job, exit: Exit, choice: Target)
    ensures SameRecoveries(j, Enter(j, exit, choice))
  {
  }

  lemma QuartetKeepsHistory(cfg: Config, j: Job, ready: bool, choice: Target)
    ensures SameRecoveries(j, ApplyQuartet(cfg, j, ready, choice))
  {
    var clean := RejectedCleanly(j, ready);
    var reviewed := if clean then j.(attempted := AttemptedAfter(j)) else j;
    EnterKeepsHistory(reviewed, Route(cfg, j, ready, clean && choice in RetryCandidates(cfg, j)), choice);
  }

  lemma GateKeepsHistory(cfg: Config, j: Job, e: GateStep)
    requires GateEnabled(cfg, j, e)
    ensures SameRecoveries(j, AfterGate(cfg, j, e))
  {
    match e
    case Review(ready, choice) => QuartetKeepsHistory(cfg, j.(review := Some(ready)), ready, choice);
    case ReapplyReview(choice) => QuartetKeepsHistory(cfg, j, j.review.value, choice);
    case _ =>
  }

  lemma SetupKeepsHistory(cfg: Config, j: Job, e: SetupStep)
    ensures SameRecoveries(j, AfterSetup(cfg, j, e))
  {
  }

  lemma FuzzKeepsHistory(cfg: Config, j: Job, e: FuzzStep)
    ensures SameRecoveries(j, AfterFuzz(cfg, j, e))
  {
  }

  lemma ResultKeepsHistory(cfg: Config, j: Job, total: nat, verdict: Verdict)
    ensures SameRecoveries(j, ApplyResult(cfg, j, total, verdict))
  {
  }

  lemma JudgeKeepsHistory(j: Job, e: JudgeStep)
    ensures SameRecoveries(j, AfterJudge(j, e))
  {
  }

  lemma WorkKeepsHistory(cfg: Config, j: Job, w: Work)
    requires WorkEnabled(cfg, j, w)
    ensures SameRecoveries(j, AfterWork(cfg, j, w))
  {
    match w
    case Setup(s) => SetupKeepsHistory(cfg, j, s);
    case Gate(g) => GateKeepsHistory(cfg, j, g);
    case Fuzz(f) => FuzzKeepsHistory(cfg, j, f);
    case Session(_, accounted, verdict) => ResultKeepsHistory(cfg, j, Charged(cfg, j, accounted), verdict);
    case Replay(accounted, verdict) => ResultKeepsHistory(cfg, j, Charged(cfg, j, accounted), verdict);
    case Judge(e) => JudgeKeepsHistory(j, e);
  }

  lemma TakenKeepsHistory(j: Job, moved: nat)
    ensures SameRecoveries(j, Taken(j, moved))
  {
  }

  lemma LeaveKeepsHistory(cfg: Config, j: Job, left: Leftover)
    ensures SameRecoveries(j, Leave(cfg, j, left))
  {
    match left
    case Alternate(choice, moved) => TakenKeepsHistory(j.(review := Some(false), preferred := Some(choice)), moved);
    case Archived(_, _, moved, _) => TakenKeepsHistory(j, moved);
    case Judged(e) => JudgeKeepsHistory(j, e);
    case _ =>
  }

  // Only a recovery changes the history; operator commands clear the counter beside it.
  lemma HistoryKept(cfg: Config, j: Job, e: Event)
    requires Enabled(cfg, j, e) && !e.Recover?
    ensures After(cfg, j, e).history == j.history
    ensures !Operator(e) ==> After(cfg, j, e).recoveries == j.recoveries
  {
    match e
    case Done(w) => WorkKeepsHistory(cfg, j, w);
    case Overrun(w) => WorkKeepsHistory(cfg, j, w);
    case Fail(_, left) => LeaveKeepsHistory(cfg, j, left);
    case _ =>
  }

  lemma LastOfSnoc<T>(s: seq<T>, x: T)
    ensures LastOf(LastOf(s) + [x]) == LastOf(s + [x])
  {
  }

  lemma RecoveryExtends(cfg: Config, j: Job, action: Action, vendored: bool, initial: bool, past: seq<Recovery>)
    requires cfg.maxRecoveries <= HISTORY_LIMIT && j.history == LastOf(past) && Disciplined(cfg, past)
    requires RecoverEnabled(cfg, j, action, vendored, initial)
    ensures var log := past + [Recovery(j.stage, j.error.value, action)];
            Disciplined(cfg, log) && ApplyRecovery(j, action).history == LastOf(log)
  {
    var r := Recovery(j.stage, j.error.value, action);
    LastOfSnoc(past, r);
    if action != SkipTarget {
      assert |j.history| < HISTORY_LIMIT && j.history == past;
    }
  }

  lemma EventExtends(cfg: Config, j: Job, e: Event, k: Job, past: seq<Recovery>) returns (log: seq<Recovery>)
    requires cfg.maxRecoveries <= HISTORY_LIMIT && j.history == LastOf(past) && Disciplined(cfg, past)
    requires Step(cfg, j, e, k)
    ensures log == past + Applied(j, e) && Disciplined(cfg, log) && k.history == LastOf(log)
  {
    log := past + Applied(j, e);
    if e.Recover? {
      RecoveryExtends(cfg, j, e.action, e.vendored, e.initial, past);
    } else {
      HistoryKept(cfg, j, e);
    }
  }

  lemma {:induction false} LogDisciplined(cfg: Config, js: seq<Job>, es: seq<Event>, n: nat) returns (log: seq<Recovery>)
    requires cfg.maxRecoveries <= HISTORY_LIMIT && Life(cfg, js, es) && n <= |es|
    ensures log == Log(js, es, n) && js[n].history == LastOf(log) && Disciplined(cfg, log)
  {
    log := [];
    if n > 0 {
      log := LogDisciplined(cfg, js, es, n - 1);
      assert StepAt(cfg, js, es, n - 1);
      log := EventExtends(cfg, js[n - 1], es[n - 1], js[n], log);
    }
  }

  // With a limit the history can hold, the per-job limit is kept and no action is applied
  // twice to the same failure, however failures, recoveries and operator commands interleave.
  lemma RecoveriesBounded(cfg: Config, js: seq<Job>, es: seq<Event>)
    requires cfg.maxRecoveries <= HISTORY_LIMIT && Life(cfg, js, es)
    ensures var log := Log(js, es, |es|);
            && Counted(log) <= Max(0, cfg.maxRecoveries)
            && forall k, i :: 0 <= k < i < |log| && log[i].action != SkipTarget ==> log[k] != log[i]
  {
    var log := LogDisciplined(cfg, js, es, |es|);
    CountedBound(log, Max(0, cfg.maxRecoveries));
  }

  // ---------- a limit the history cannot hold ----------

  const PERIOD := HISTORY_LIMIT + 1

  function Retried(i: nat): Recovery {
    Recovery(Build, i % PERIOD, RetryStage)
  }

  function Retries(from: nat, count: nat): (log: seq<Recovery>)
    ensures |log| == count && forall i :: 0 <= i < count ==> log[i] == Retried(from + i)
  {
    seq(count, i requires 0 <= i => Retried(from + i))
  }

  // A job the operator has just retargeted for the n-th time, each time after one failed and
  // retried build.
  function Retargeted(n: nat): Job {
    NewJob().(stage := Integration, status := Prepared, history := LastOf(Retries(0, n)))
  }

  lemma RetriesSnoc(n: nat)
    ensures Retries(0, n + 1) == Retries(0, n) + [Retried(n)]
  {
  }

  lemma ResiduesDiffer(i: nat, n: nat)
    requires 0 < n - i < PERIOD
    ensures i % PERIOD != n % PERIOD
  {
    assert n - i == PERIOD * (n / PERIOD - i / PERIOD) + (n % PERIOD - i % PERIOD);
  }

  lemma FreshRetry(n: nat)
    ensures Retried(n) !in LastOf(Retries(0, n))
    ensures LastOf(LastOf(Retries(0, n)) + [Retried(n)]) == LastOf(Retries(0, n + 1))
  {
    var all := Retries(0, n);
    RetriesSnoc(n);
    LastOfSnoc(all, Retried(n));
    forall i | 0 <= i < n && n - i <= HISTORY_LIMIT
      ensures all[i] != Retried(n)
    {
      ResiduesDiffer(i, n);
    }
  }

  lemma LogPrefix(js: seq<Job>, es: seq<Event>, j: Job, e: Event, n: nat)
    requires n <= |es| && |js| == |es| + 1
    ensures Log(js + [j], es + [e], n) == Log(js, es, n)
  {
  }

  // A run that ends in a job, with the recoveries applied along it.
  ghost predicate Ends(cfg: Config, js: seq<Job>, es: seq<Event>, j: Job, log: seq<Recovery>) {
    Life(cfg, js, es) && js[|es|] == j && Log(js, es, |es|) == log
  }

  // One more event at the end of a run.
  lemma Grow(cfg: Config, js: seq<Job>, es: seq<Event>, j: Job, log: seq<Recovery>, e: Event, k: Job)
    returns (ks: seq<Job>, fs: seq<Event>)
    requires Ends(cfg, js, es, j, log) && Step(cfg, j, e, k)
    ensures Ends(cfg, ks, fs, k, if e.Recover? then log + Applied(j, e) else log)
  {
    ks, fs := js + [k], es + [e];
    Extend(cfg, js, es, e);
    LogPrefix(js, es, k, e, |es|);
  }

  lemma CycleSteps(cfg: Config, n: nat) returns (built: Job, failed: Job, retried: Job)
    requires cfg.maxRecoveries > HISTORY_LIMIT && cfg.nativeRoute && cfg.generatedRoute
    ensures Step(cfg, Retargeted(n), Done(Setup(Integrate)), built)
    ensures Step(cfg, built, Fail(Some(n % PERIOD), Nothing), failed)
    ensures Step(cfg, failed, Recover(RetryStage, false, false), retried)
    ensures Applied(failed, Recover(RetryStage, false, false)) == [Retried(n)]
    ensures Step(cfg, retried, Retarget, Retargeted(n + 1))
  {
    built, failed := FailSteps(cfg, n);
    retried := RetrySteps(cfg, n, failed);
  }

  function BuildJob(n: nat): Job {
    Retargeted(n).(stage := Build, status := Integrated, generic := true)
  }

  lemma FailSteps(cfg: Config, n: nat) returns (built: Job, failed: Job)
    requires cfg.generatedRoute
    ensures Step(cfg, Retargeted(n), Done(Setup(Integrate)), built)
    ensures Step(cfg, built, Fail(Some(n % PERIOD), Nothing), failed)
    ensures failed == RecordError(cfg, BuildJob(n), Some(n % PERIOD))
  {
    built := BuildJob(n);
    failed := RecordError(cfg, built, Some(n % PERIOD));
  }

  // The failed build is retried, because its failure is new to the history, and retargeted.
  lemma RetrySteps(cfg: Config, n: nat, failed: Job) returns (retried: Job)
    requires cfg.maxRecoveries > HISTORY_LIMIT && cfg.nativeRoute && cfg.generatedRoute
    requires failed == RecordError(cfg, BuildJob(n), Some(n % PERIOD))
    ensures Step(cfg, failed, Recover(RetryStage, false, false), retried)
    ensures Applied(failed, Recover(RetryStage, false, false)) == [Retried(n)]
    ensures Step(cfg, retried, Retarget, Retargeted(n + 1))
  {
    FreshRetry(n);
    retried := After(cfg, failed, Recover(RetryStage, false, false));
  }

  // One build failure that is retried and then retargeted away.
  lemma CycleRuns(cfg: Config, n: nat, js: seq<Job>, es: seq<Event>, log: seq<Recovery>)
    returns (ks: seq<Job>, fs: seq<Event>)
    requires cfg.maxRecoveries > HISTORY_LIMIT && cfg.nativeRoute && cfg.generatedRoute
    requires Ends(cfg, js, es, Retargeted(n), log)
    ensures Ends(cfg, ks, fs, Retargeted(n + 1), log + [Retried(n)])
  {
    var integrate, fail, recover :=
      Done(Setup(Integrate)), Fail(Some(n % PERIOD), Nothing), Recover(RetryStage, false, false);
    var built, failed, retried := CycleSteps(cfg, n);
    ks, fs := Grow(cfg, js, es, Retargeted(n), log, integrate, built);
    ks, fs := Grow(cfg, ks, fs, built, log, fail, failed);
    ks, fs := Grow(cfg, ks, fs, failed, log, recover, retried);
    ks, fs := Grow(cfg, ks, fs, retried, log + [Retried(n)], Retarget, Retargeted(n + 1));
  }

  lemma FirstCycle(cfg: Config) returns (js: seq<Job>, es: seq<Event>)
    ensures Life(cfg, js, es) && js[|es|] == Retargeted(0) && Log(js, es, |es|) == []
  {
    js, es := [NewJob(), Retargeted(0)], [Done(Setup(Prepare))];
    assert StepAt(cfg, js, es, 0);
    assert Log(js, es, 1) == Log(js, es, 0) + Applied(js[0], es[0]);
  }

  lemma {:induction false} CyclesRun(cfg: Config, n: nat) returns (js: seq<Job>, es: seq<Event>)
    requires cfg.maxRecoveries > HISTORY_LIMIT && cfg.nativeRoute && cfg.generatedRoute
    ensures Ends(cfg, js, es, Retargeted(n), Retries(0, n))
  {
    if n == 0 {
      js, es := FirstCycle(cfg);
    } else {
      js, es := CyclesRun(cfg, n - 1);
      js, es := CycleRuns(cfg, n - 1, js, es, Retries(0, n - 1));
      RetriesSnoc(n - 1);
    }
  }

  lemma {:induction false} CountedAll(log: seq<Recovery>)
    requires forall i :: 0 <= i < |log| ==> log[i].action != SkipTarget
    ensures Counted(log) == |log|
  {
    if log != [] {
      CountedAll(log[1..]);
    }
  }

  lemma RetriesRepeat(n: nat)
    requires n > PERIOD
    ensures Counted(Retries(0, n)) == n && Retries(0, n)[0] == Retries(0, n)[PERIOD]
  {
    CountedAll(Retries(0, n));
  }

  // Otherwise there is a life with more recoveries than the limit, two of them the same
  // action for the same failure.
  lemma {:induction false} BudgetOverrun(cfg: Config) returns (js: seq<Job>, es: seq<Event>)
    requires cfg.maxRecoveries > HISTORY_LIMIT && cfg.nativeRoute && cfg.generatedRoute
    ensures Life(cfg, js, es)
    ensures var log := Log(js, es, |es|);
            Counted(log) > cfg.maxRecoveries && |log| > PERIOD && log[0] == log[PERIOD]
  {
    var n := cfg.maxRecoveries + 1;
    RetriesRepeat(n);
    js, es := CyclesRun(cfg, n);
    assert Log(js, es, |es|) == Retries(0, n);
  }

  // ---------- jobs without operator commands ----------

  lemma {:induction false} CountedSnoc(log: seq<Recovery>, r: Recovery)
    ensures Counted(log + [r]) == Counted(log) + (if r.action == SkipTarget then 0 else 1)
  {
    if log == [] {
      assert [r][1..] == [];
    } else {
      CountedSnoc(log[1..], r);
      assert (log + [r])[1..] == log[1..] + [r];
    }
  }

  lemma {:induction false} CountedWithin(log: seq<Recovery>)
    ensures Counted(log) <= |log|
  {
    if log != [] {
      CountedWithin(log[1..]);
    }
  }

  lemma RecoveryCounts(cfg: Config, j: Job, action: Action, vendored: bool, initial: bool)
    requires RecoverEnabled(cfg, j, action, vendored, initial)
    ensures ApplyRecovery(j, action).recoveries == j.recoveries + 1
    ensures action != SkipTarget ==> j.recoveries < cfg.maxRecoveries
  {
  }

  lemma CountNext(past: seq<Recovery>, r: Recovery, limit: nat)
    requires Counted(past) <= limit && (r.action != SkipTarget ==> |past| < limit)
    ensures Counted(past + [r]) <= limit
  {
    CountedSnoc(past, r);
    CountedWithin(past);
  }

  // The counter is exact as long as no operator command clears it.
  ghost predicate Counts(cfg: Config, j: Job, log: seq<Recovery>) {
    j.recoveries == |log| && Counted(log) <= Max(0, cfg.maxRecoveries)
  }

  lemma RecoverExtends(cfg: Config, j: Job, e: Event, past: seq<Recovery>)
    requires e.Recover? && Enabled(cfg, j, e) && Counts(cfg, j, past)
    ensures Counts(cfg, After(cfg, j, e), past + Applied(j, e))
  {
    RecoveryCounts(cfg, j, e.action, e.vendored, e.initial);
    CountNext(past, Recovery(j.stage, j.error.value, e.action), Max(0, cfg.maxRecoveries));
  }

  lemma OtherExtends(cfg: Config, j: Job, e: Event, past: seq<Recovery>)
    requires !cfg.nativeRoute && !e.Recover? && Enabled(cfg, j, e) && Counts(cfg, j, past)
    ensures Counts(cfg, After(cfg, j, e), past + Applied(j, e))
  {
    NoOperator(cfg, j, e);
    HistoryKept(cfg, j, e);
    SameCount(cfg, j, After(cfg, j, e), past);
    assert past + Applied(j, e) == past;
  }

  lemma NoOperator(cfg: Config, j: Job, e: Event)
    requires !cfg.nativeRoute && Enabled(cfg, j, e)
    ensures !Operator(e)
  {
  }

  lemma SameCount(cfg: Config, j: Job, k: Job, log: seq<Recovery>)
    requires Counts(cfg, j, log) && k.recoveries == j.recoveries
    ensures Counts(cfg, k, log)
  {
  }

  lemma CounterExtends(cfg: Config, js: seq<Job>, es: seq<Event>, i: nat, past: seq<Recovery>) returns (log: seq<Recovery>)
    requires !cfg.nativeRoute && Path(cfg, js, es) && i < |es| && Counts(cfg, js[i], past)
    ensures log == past + Applied(js[i], es[i]) && Counts(cfg, js[i + 1], log)
  {
    log := past + Applied(js[i], es[i]);
    assert StepAt(cfg, js, es, i);
    if es[i].Recover? {
      RecoverExtends(cfg, js[i], es[i], past);
    } else {
      OtherExtends(cfg, js[i], es[i], past);
    }
  }

  lemma {:induction false} CounterExact(cfg: Config, js: seq<Job>, es: seq<Event>, n: nat) returns (log: seq<Recovery>)
    requires !cfg.nativeRoute && Life(cfg, js, es) && n <= |es|
    ensures log == Log(js, es, n) && Counts(cfg, js[n], log)
  {
    log := [];
    if n > 0 {
      log := CounterExact(cfg, js, es, n - 1);
      log := CounterExtends(cfg, js, es, n - 1, log);
    }
  }

  // The limit is enforced on every life exactly when it does not exceed the history's size or
  // no operator command applies to the job. Native integrations are generated ones.
  lemma LimitEnforcedExactly(cfg: Config)
    requires cfg.nativeRoute ==> cfg.generatedRoute
    ensures (forall js, es :: Life(cfg, js, es) ==> Counted(Log(js, es, |es|)) <= Max(0, cfg.maxRecoveries))
            <==> cfg.maxRecoveries <= HISTORY_LIMIT || !cfg.nativeRoute
  {
    if cfg.maxRecoveries <= HISTORY_LIMIT {
      forall js, es | Life(cfg, js, es)
        ensures Counted(Log(js, es, |es|)) <= Max(0, cfg.maxRecoveries)
      {
        RecoveriesBounded(cfg, js, es);
      }
    } else if !cfg.nativeRoute {
      forall js, es | Life(cfg, js, es)
        ensures Counted(Log(js, es, |es|)) <= Max(0, cfg.maxRecoveries)
      {
        var log := CounterExact(cfg, js, es, |es|);
      }
    } else {
      var js, es := BudgetOverrun(cfg);
    }
  }
}
