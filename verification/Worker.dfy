// The worker's dispatch loop over one job, and what its runs guarantee.
module Worker {
  import opened Basics
  import opened FuzzTime
  import opened Lifecycle
  import opened Termination

  datatype Outcome = NeedsAttention | ReadyToFuzz | Failed | GaveUp | Finished

  // Stage calls that may start fuzzing; preparation stops in front of them.
  predicate StartsFuzzing(e: Event) {
    match e
    case Done(w) => FuzzWork(w)
    case Overrun(w) => FuzzWork(w)
    case Fail(_, left) => left.Cut? || left.Unfinished? || left.AflWritten? || left.PlanClosed?
    case _ => false
  }

  predicate FuzzWork(w: Work) {
    match w
    case Session(_, _, _) => true
    case Replay(_, _) => true
    case Fuzz(f) => !f.GenerationLimit? && !f.Generate?
    case _ => false
  }

  // A path whose last call used up the limit: an error stands on top of what it saved.
  function Errored(cfg: Config, js: seq<Job>): seq<Job>
    requires js != []
  {
    js[..|js| - 1] + [RecordError(cfg, js[|js| - 1], Some(TRANSITION_LIMIT))]
  }

  function Overrunning(es: seq<Event>): seq<Event>
    requires es != [] && es[|es| - 1].Done?
  {
    es[..|es| - 1] + [Overrun(es[|es| - 1].work)]
  }

  // A stage call that returned and does not end the worker's call.
  predicate Returns(e: Event) {
    e.Done? && e.work != Judge(Validated)
  }

  lemma OverrunStep(cfg: Config, j: Job, e: Event, k: Job)
    requires Step(cfg, j, e, k) && Returns(e)
    ensures Step(cfg, j, Overrun(e.work), RecordError(cfg, k, Some(TRANSITION_LIMIT)))
  {
  }

  lemma Overran(cfg: Config, js: seq<Job>, es: seq<Event>)
    requires Path(cfg, js, es) && es != [] && Returns(es[|es| - 1])
    ensures Path(cfg, Errored(cfg, js), Overrunning(es))
  {
    var ks, fs, last := Errored(cfg, js), Overrunning(es), |es| - 1;
    LastOverran(cfg, js, es);
    forall i | 0 <= i < |fs|
      ensures StepAt(cfg, ks, fs, i)
    {
      if i < last {
        SameStep(cfg, js, es, ks, fs, i);
      }
    }
  }

  lemma LastOverran(cfg: Config, js: seq<Job>, es: seq<Event>)
    requires Path(cfg, js, es) && es != [] && Returns(es[|es| - 1])
    ensures StepAt(cfg, Errored(cfg, js), Overrunning(es), |es| - 1)
  {
    var last := |es| - 1;
    assert StepAt(cfg, js, es, last);
    OverrunStep(cfg, js[last], es[last], js[last + 1]);
  }

  // ---------- stalled calls ----------

  // A finished analysis whose state was never saved: every call returns at once.
  predicate Stalled(j: Job) {
    j.stage == CoverageAnalysis && j.review == Some(true) && j.plan.Some? && !Manual(j.status)
  }

  lemma StallsOnlyWhenAnalysed(cfg: Config, j: Job, e: Event)
    requires Enabled(cfg, j, e) && (e.Done? || e.Fail? || e.Unsupported?) && (j.stalls > 0 ==> Stalled(j))
    ensures var k := After(cfg, j, e); k.stalls <= j.stalls + 1 && (k.stalls > 0 ==> Stalled(k))
  {
    if e.Done? {
      if e.work.Setup? && e.work.setup.AnalyzeCached? {
        assert Stalled(After(cfg, j, e));
      } else {
        WorkKeepsStalls(cfg, j, e.work);
      }
    }
  }

  lemma WorkKeepsStalls(cfg: Config, j: Job, w: Work)
    requires WorkEnabled(cfg, j, w) && !(w.Setup? && w.setup.AnalyzeCached?)
    ensures AfterWork(cfg, j, w).stalls == j.stalls && !Stalled(j)
  {
    match w
    case Setup(_) =>
    case Gate(g) => GateKeepsStalls(cfg, j, g);
    case Fuzz(f) => FuzzKeepsStalls(cfg, j, f);
    case Session(_, accounted, verdict) => ResultKeepsStalls(cfg, j, Charged(cfg, j, accounted), verdict);
    case Replay(accounted, verdict) => ResultKeepsStalls(cfg, j, Charged(cfg, j, accounted), verdict);
    case Judge(e) => JudgeKeepsStalls(j, e);
  }

  lemma JudgeKeepsStalls(j: Job, e: JudgeStep)
    ensures AfterJudge(j, e).stalls == j.stalls
  {
  }

  lemma LaneKeepsStalls(cfg: Config, j: Job, elapsed: nat, crashes: nat, harness: bool)
    ensures EndAfl(cfg, AflRan(j, elapsed), crashes, harness).stalls == j.stalls
  {
  }

  lemma FuzzKeepsStalls(cfg: Config, j: Job, e: FuzzStep)
    ensures AfterFuzz(cfg, j, e).stalls == j.stalls
  {
    match e
    case AflSession(elapsed, crashes, harness) => LaneKeepsStalls(cfg, j, elapsed, crashes, harness);
    case _ =>
  }

  lemma ResultKeepsStalls(cfg: Config, j: Job, total: nat, verdict: Verdict)
    ensures ApplyResult(cfg, j, total, verdict).stalls == j.stalls
  {
  }

  lemma GateKeepsStalls(cfg: Config, j: Job, e: GateStep)
    requires GateEnabled(cfg, j, e)
    ensures AfterGate(cfg, j, e).stalls == j.stalls
  {
    match e
    case Review(ready, choice) => QuartetKeepsStalls(cfg, j.(review := Some(ready)), ready, choice);
    case ReapplyReview(choice) => QuartetKeepsStalls(cfg, j, j.review.value, choice);
    case _ =>
  }

  lemma EnterKeepsStalls(j: Job, exit: Exit, choice: Target)
    ensures Enter(j, exit, choice).stalls == j.stalls
  {
  }

  lemma QuartetKeepsStalls(cfg: Config, j: Job, ready: bool, choice: Target)
    ensures ApplyQuartet(cfg, j, ready, choice).stalls == j.stalls
  {
    var clean := RejectedCleanly(j, ready);
    var k := if clean then j.(attempted := AttemptedAfter(j)) else j;
    EnterKeepsStalls(k, Route(cfg, j, ready, clean && choice in RetryCandidates(cfg, j)), choice);
  }

  // ---------- healthy sessions ----------

  // A session of the longest length that passes and is followed by the next one.
  function HealthySession(cfg: Config, j: Job): Event
    requires Slice(cfg, j) >= 1
  {
    Done(Session(Slice(cfg, j), Slice(cfg, j) * 1000, Continue(NextReady)))
  }

  function AfterSessions(j: Job, seconds: nat): Job {
    if seconds == 0 then j
    else j.(run := true, active := false, status := Ready, error := None, completed := j.completed + seconds * 1000, crashes := 0)
  }

  // Triage of a campaign that left no crash files.
  function HealthyTriage(): Event {
    Done(Judge(NothingFound))
  }

  predicate Triageable(j: Job) {
    j.stage == Triage && j.status == TriagePending && j.crashes == 0
  }

  predicate Concluded(j: Job) {
    j.stage == Complete && j.status == CampaignExhausted
  }

  lemma SessionStarts(cfg: Config, j: Job, seconds: nat)
    requires CanFuzz(j) && cfg.checkpoint >= 1 && seconds < Remaining(cfg.budget, j.completed)
    ensures var k, left := AfterSessions(j, seconds), Remaining(cfg.budget, j.completed) - seconds;
            && CanFuzz(k) && Runnable(k) && Remaining(cfg.budget, k.completed) == left
            && Slice(cfg, k) == Min(left, cfg.checkpoint) >= 1 && Enabled(cfg, k, HealthySession(cfg, k))
  {
    SecondsOff(cfg.budget, j.completed, seconds);
  }

  // As long as whole seconds are left, a healthy session takes the checkpoint's length off them;
  // the last one ends the campaign.
  lemma HealthyStep(cfg: Config, j: Job, seconds: nat)
    requires CanFuzz(j) && cfg.checkpoint >= 1 && seconds < Remaining(cfg.budget, j.completed)
    ensures var k, left := AfterSessions(j, seconds), Remaining(cfg.budget, j.completed) - seconds;
            && Slice(cfg, k) >= 1 && Enabled(cfg, k, HealthySession(cfg, k))
            && var next := After(cfg, k, HealthySession(cfg, k));
               if cfg.checkpoint < left then next == AfterSessions(j, seconds + cfg.checkpoint) else Triageable(next)
  {
    var k := AfterSessions(j, seconds);
    SessionStarts(cfg, j, seconds);
    SessionTotal(cfg.budget, k.completed, Slice(cfg, k));
    var total := Charged(cfg, k, Slice(cfg, k) * 1000);
    assert After(cfg, k, HealthySession(cfg, k)) == ApplyResult(cfg, k, total, Continue(NextReady));
  }

  lemma SecondsOff(budget: int, completed: nat, seconds: nat)
    requires seconds < Remaining(budget, completed)
    ensures Remaining(budget, completed + seconds * 1000) == Remaining(budget, completed) - seconds
  {
    assert (completed + seconds * 1000) / 1000 == completed / 1000 + seconds;
  }

  // A session shorter than what is left is charged in full; one that takes all whole seconds
  // left spends the budget.
  lemma SessionTotal(budget: int, completed: nat, length: nat)
    requires 1 <= length <= Remaining(budget, completed)
    ensures var total := completed + Charge(budget, completed, length * 1000);
            if length < Remaining(budget, completed) then total == completed + length * 1000 < budget * 1000
            else total == budget * 1000
  {
  }

  // ---------- calls ----------

  // A call that started with one job has brought it to another, one finished stage call at a time.
  ghost predicate Called(cfg: Config, from: Job, to: Job, saved: seq<Job>, trace: seq<Event>, setupOnly: bool) {
    && Path(cfg, saved, trace) && saved[0] == from && saved[|trace|] == to
    && (setupOnly ==> forall i :: 0 <= i < |trace| ==> !StartsFuzzing(trace[i]))
  }

  lemma CalledMore(cfg: Config, from: Job, to: Job, saved: seq<Job>, trace: seq<Event>, setupOnly: bool, e: Event)
    requires Called(cfg, from, to, saved, trace, setupOnly) && Enabled(cfg, to, e) && (setupOnly ==> !StartsFuzzing(e))
    ensures Called(cfg, from, After(cfg, to, e), saved + [After(cfg, to, e)], trace + [e], setupOnly)
  {
    Extend(cfg, saved, trace, e);
  }

  lemma PreparationNeverFuzzes(cfg: Config, j: Job, e: Event)
    requires Enabled(cfg, j, e) && (e.Done? || e.Fail? || e.Unsupported?)
    requires !(j.stage == Fuzzing && (Fuzzable(j.status) || j.status == AflPending))
    ensures !StartsFuzzing(e)
  {
  }

  lemma CalledTooOften(cfg: Config, from: Job, to: Job, saved: seq<Job>, trace: seq<Event>, setupOnly: bool)
    requires Called(cfg, from, to, saved, trace, setupOnly) && trace != [] && Returns(trace[|trace| - 1])
    ensures Called(cfg, from, RecordError(cfg, to, Some(TRANSITION_LIMIT)), Errored(cfg, saved), Overrunning(trace), setupOnly)
  {
    Overran(cfg, saved, trace);
  }

  class Worker {
    const cfg: Config
    var job: Job

    constructor (cfg: Config, job: Job)
      ensures this.cfg == cfg && this.job == job
    {
      this.cfg := cfg;
      this.job := job;
    }

    // What the stage call chosen by the dispatcher does, for every job it may be called on.
    ghost predicate Environment(outcome: Job -> Event) {
      forall j :: Runnable(j) && j.stalls < TRANSITIONS ==>
        && Enabled(cfg, j, outcome(j))
        && (outcome(j).Done? || outcome(j).Fail? || outcome(j).Unsupported?)
    }

    // Every session that can start passes, and triage of a job without crash files finds nothing.
    ghost predicate Healthy(outcome: Job -> Event) {
      && cfg.checkpoint >= 1
      && (forall j :: CanFuzz(j) && Slice(cfg, j) >= 1 ==> outcome(j) == HealthySession(cfg, j))
      && forall j :: Triageable(j) ==> outcome(j) == HealthyTriage()
    }

    predicate Parked()
      reads this
    {
      job.stage == Fuzzing && (Fuzzable(job.status) || job.status == AflPending)
    }

    // One stage call of the dispatcher.
    method CallStage(setupOnly: bool, outcome: Job -> Event, ghost from: Job, ghost before: seq<Job>,
                     ghost events: seq<Event>, ghost healthy: bool)
      returns (e: Event, ghost saved: seq<Job>, ghost trace: seq<Event>)
      requires Environment(outcome) && (healthy ==> Healthy(outcome))
      requires Runnable(job) && (setupOnly ==> !Parked()) && |events| < TRANSITIONS
      requires Called(cfg, from, job, before, events, setupOnly) && Underway(cfg, from, job, |events|, healthy)
      modifies this`job
      ensures Called(cfg, from, job, saved, trace, setupOnly) && Underway(cfg, from, job, |trace|, healthy)
      ensures trace == events + [e] && (e.Done? || e.Fail? || e.Unsupported?)
      ensures (healthy ==> Returns(e)) && (!Returns(e) ==> job.stalls == 0)
      ensures e == Done(Judge(Validated)) ==> job.stage == Complete && job.status == ReadyForHuman
    {
      e := outcome(job);
      saved, trace := StageCalled(cfg, from, job, before, events, setupOnly, healthy, e);
      job := After(cfg, job, e);
    }

    // Runs stage calls until the job needs someone else, fails, is validated, or the transition
    // limit is used up. The saved job is always the result of a legal run of at most that many
    // calls. A healthy campaign ends exhausted exactly when its sessions and the triage behind
    // them leave one iteration to find it so; otherwise it gives up.
    method Advance(setupOnly: bool, outcome: Job -> Event)
      returns (result: Outcome, ghost saved: seq<Job>, ghost trace: seq<Event>)
      requires Environment(outcome) && job.stalls == 0 && job.stage != Complete
      modifies this`job
      ensures Called(cfg, old(job), job, saved, trace, setupOnly) && |trace| <= TRANSITIONS
      ensures job.stalls == 0
      ensures result == ReadyToFuzz ==> setupOnly && Parked()
      ensures result == NeedsAttention ==> !Runnable(job)
      ensures result == Finished ==> job.stage == Complete && job.status == ReadyForHuman
      ensures result == Failed ==> trace != [] && (trace[|trace| - 1].Fail? || trace[|trace| - 1].Unsupported?)
      ensures result == GaveUp ==> |trace| == TRANSITIONS && trace[|trace| - 1].Overrun?
      ensures !setupOnly && Healthy(outcome) && CanFuzz(old(job)) && Remaining(cfg.budget, old(job.completed)) > 0 ==>
                HealthyEnd(cfg, old(job), job, result)
    {
      saved, trace := [job], [];
      ghost var healthy := !setupOnly && Healthy(outcome) && CanFuzz(job) && Remaining(cfg.budget, job.completed) > 0;
      for steps := 0 to TRANSITIONS
        invariant steps == |trace| && Called(cfg, old(job), job, saved, trace, setupOnly)
        invariant steps > 0 ==> Returns(trace[steps - 1])
        invariant Underway(cfg, old(job), job, steps, healthy)
      {
        if !Runnable(job) {
          if healthy {
            HealthyStop(cfg, old(job), job, steps);
          }
          return NeedsAttention, saved, trace;
        }
        if setupOnly && Parked() {
          return ReadyToFuzz, saved, trace;
        }
        var e;
        e, saved, trace := CallStage(setupOnly, outcome, old(job), saved, trace, healthy);
        if !e.Done? {
          return Failed, saved, trace;
        }
        if e == Done(Judge(Validated)) {
          return Finished, saved, trace;
        }
      }
      if healthy {
        HealthyOverrun(cfg, old(job), job);
      }
      // The limit is an error whatever the last call saved.
      CalledTooOften(cfg, old(job), job, saved, trace, setupOnly);
      job := RecordError(cfg, job, Some(TRANSITION_LIMIT));
      saved, trace := Errored(cfg, saved), Overrunning(trace);
      result := GaveUp;
    }
  }

  // A campaign that started with job j and has had `calls` healthy calls: sessions, then triage.
  predicate Campaign(cfg: Config, j: Job, now: Job, calls: nat) {
    && cfg.checkpoint >= 1 && CanFuzz(j)
    && var left := Remaining(cfg.budget, j.completed);
       if calls * cfg.checkpoint < left then now == AfterSessions(j, calls * cfg.checkpoint)
       else if (calls - 1) * cfg.checkpoint < left then calls > 0 && Triageable(now)
       else calls > 1 && (calls - 2) * cfg.checkpoint < left && Concluded(now)
  }

  // How a healthy campaign ends: with 98 checkpoints left or less, in triage's verdict.
  predicate HealthyEnd(cfg: Config, from: Job, to: Job, result: Outcome) {
    if Remaining(cfg.budget, from.completed) > (TRANSITIONS - 2) * cfg.checkpoint then result == GaveUp
    else result == NeedsAttention && Concluded(to)
  }

  lemma HealthyStop(cfg: Config, from: Job, now: Job, calls: nat)
    requires Campaign(cfg, from, now, calls) && calls < TRANSITIONS && !Runnable(now)
    ensures HealthyEnd(cfg, from, now, NeedsAttention)
  {
    Monotone(calls - 1, TRANSITIONS - 2, cfg.checkpoint);
  }

  lemma HealthyOverrun(cfg: Config, from: Job, now: Job)
    requires Campaign(cfg, from, now, TRANSITIONS)
    ensures forall to :: HealthyEnd(cfg, from, to, GaveUp)
  {
    Monotone(TRANSITIONS - 2, TRANSITIONS - 1, cfg.checkpoint);
    Monotone(TRANSITIONS - 1, TRANSITIONS, cfg.checkpoint);
  }

  // What a call keeps between its stage calls.
  predicate Underway(cfg: Config, from: Job, now: Job, calls: nat, healthy: bool) {
    now.stalls <= calls && (now.stalls > 0 ==> Stalled(now)) && (healthy ==> Campaign(cfg, from, now, calls))
  }

  lemma UnderwayMore(cfg: Config, from: Job, now: Job, calls: nat, healthy: bool, e: Event)
    requires Underway(cfg, from, now, calls, healthy) && Runnable(now)
    requires Enabled(cfg, now, e) && (e.Done? || e.Fail? || e.Unsupported?)
    requires healthy && CanFuzz(now) && Slice(cfg, now) >= 1 ==> e == HealthySession(cfg, now)
    requires healthy && Triageable(now) ==> e == HealthyTriage()
    ensures Underway(cfg, from, After(cfg, now, e), calls + 1, healthy)
    ensures healthy ==> Returns(e)
  {
    StallsOnlyWhenAnalysed(cfg, now, e);
    if healthy {
      if Triageable(now) {
        TriageStep(cfg, from, now, calls);
      } else {
        CampaignStep(cfg, from, now, calls);
      }
    }
  }

  // A call that fails or validates ends the worker's call, with nothing stalled.
  lemma LastCall(cfg: Config, from: Job, now: Job, calls: nat, healthy: bool, e: Event)
    requires Enabled(cfg, now, e) && Underway(cfg, from, After(cfg, now, e), calls + 1, healthy)
    requires e.Done? || e.Fail? || e.Unsupported?
    ensures !Returns(e) ==> After(cfg, now, e).stalls == 0
    ensures e == Done(Judge(Validated)) ==> After(cfg, now, e).stage == Complete && After(cfg, now, e).status == ReadyForHuman
  {
  }

  // Everything one stage call adds to what a worker's call has done so far.
  lemma StageCalled(cfg: Config, from: Job, now: Job, before: seq<Job>, events: seq<Event>, setupOnly: bool,
                    healthy: bool, e: Event) returns (saved: seq<Job>, trace: seq<Event>)
    requires Called(cfg, from, now, before, events, setupOnly) && Underway(cfg, from, now, |events|, healthy)
    requires Runnable(now) && Enabled(cfg, now, e) && (e.Done? || e.Fail? || e.Unsupported?)
    requires setupOnly ==> !(now.stage == Fuzzing && (Fuzzable(now.status) || now.status == AflPending))
    requires healthy && CanFuzz(now) && Slice(cfg, now) >= 1 ==> e == HealthySession(cfg, now)
    requires healthy && Triageable(now) ==> e == HealthyTriage()
    ensures var k := After(cfg, now, e);
            && Called(cfg, from, k, saved, trace, setupOnly) && Underway(cfg, from, k, |trace|, healthy)
            && trace == events + [e] && (healthy ==> Returns(e)) && (!Returns(e) ==> k.stalls == 0)
            && (e == Done(Judge(Validated)) ==> k.stage == Complete && k.status == ReadyForHuman)
  {
    if setupOnly {
      PreparationNeverFuzzes(cfg, now, e);
    }
    UnderwayMore(cfg, from, now, |events|, healthy, e);
    CalledMore(cfg, from, now, before, events, setupOnly, e);
    LastCall(cfg, from, now, |events|, healthy, e);
    saved, trace := before + [After(cfg, now, e)], events + [e];
  }

  lemma Monotone(a: nat, b: nat, c: nat)
    requires a <= b
    ensures a * c <= b * c
  {
  }

  lemma CampaignStep(cfg: Config, j: Job, now: Job, calls: nat)
    requires Campaign(cfg, j, now, calls) && Runnable(now) && !Triageable(now)
    ensures CanFuzz(now) && Slice(cfg, now) >= 1 && Enabled(cfg, now, HealthySession(cfg, now))
    ensures Campaign(cfg, j, After(cfg, now, HealthySession(cfg, now)), calls + 1)
  {
    var seconds := calls * cfg.checkpoint;
    HealthyStep(cfg, j, seconds);
    assert (calls + 1) * cfg.checkpoint == seconds + cfg.checkpoint;
  }

  lemma TriageStep(cfg: Config, j: Job, now: Job, calls: nat)
    requires Campaign(cfg, j, now, calls) && Triageable(now)
    ensures Enabled(cfg, now, HealthyTriage()) && Campaign(cfg, j, After(cfg, now, HealthyTriage()), calls + 1)
  {
    assert !(calls * cfg.checkpoint < Remaining(cfg.budget, j.completed));
    Monotone(calls, calls + 1, cfg.checkpoint);
  }

  // ---------- approvals ----------

  // Over whole lives: what is analysed or fuzzed was approved, and its probe left no crash files
  // and found at most an uncaught C++ exception; a job marked ready has what a session demands,
  // unless triage returned it from the crash files of its probe.
  lemma FuzzedHarnessIsApproved(cfg: Config, js: seq<Job>, es: seq<Event>)
    requires Life(cfg, js, es)
    ensures var j := js[|es|];
            && (j.stage == CoverageAnalysis || CanFuzz(j) ==> j.review == Some(true) && (j.probe.Some? ==> Clean(j.probe.value)))
            && (j.stage == Fuzzing && j.status == Ready ==> (CanFuzz(j) <==> !Returned(j)))
  {
    ReachableInv(cfg, js, es, |es|);
  }
}
